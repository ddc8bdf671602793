/** The gig summary page: the worker's gigs and a job-type map, filled from
    fixed lists, that turns a gig's numeric job type into a name. */
module GigSummary {

  datatype Gig = Gig(
    id: int,
    jobType: int,
    clientName: string,
    clientPhone: string,
    county: string,
    constituency: string,
    ward: string,
    startDate: string,
    durationValue: int,
    durationUnit: string,
    isVerified: bool)

  datatype JobType = JobType(id: int, name: string)

  const MockJobTypes: seq<JobType> := [
    JobType(1, "Plumbing"),
    JobType(2, "Electrical"),
    JobType(3, "Carpentry"),
    JobType(4, "Painting"),
    JobType(5, "Masonry")
  ]

  const MockGigs: seq<Gig> := [
    Gig(1, 1, "Nairobi Hospital", "0712345678", "Nairobi", "Westlands", "Parklands",
        "2025-01-01", 5, "days", true),
    Gig(2, 2, "KNH", "0723456789", "Nairobi", "Dagoretti North", "Kilimani",
        "2024-12-26", 2, "weeks", false),
    Gig(3, 3, "Aga Khan Hospital", "0734567890", "Nairobi", "Westlands", "Parklands",
        "2024-12-15", 7, "days", true),
    Gig(4, 4, "MP Shah Hospital", "0745678901", "Nairobi", "Starehe", "Nairobi Central",
        "2024-12-10", 3, "days", false)
  ]

  /** The map after `set(jt.id, jt.name)` for each job type of `jts`, in order. */
  function Assign(m: map<int, string>, jts: seq<JobType>): map<int, string>
    decreases |jts|
  {
    if jts == [] then m
    else
      var last := jts[|jts| - 1];
      Assign(m, jts[..|jts| - 1])[last.id := last.name]
  }

  /** The entries the job types of `jts` write, later ones winning. */
  function Entries(jts: seq<JobType>): map<int, string>
  {
    Assign(map[], jts)
  }

  /** Setting the pairs of `jts` overrides `m` with exactly their entries. */
  lemma {:induction false} AssignOverrides(m: map<int, string>, jts: seq<JobType>)
    ensures Assign(m, jts) == m + Entries(jts)
    decreases |jts|
  {
    if jts != [] {
      var init := jts[..|jts| - 1];
      var last := jts[|jts| - 1];
      AssignOverrides(m, init);
      AssignOverrides(map[], init);
      assert Assign(map[], init) == map[] + Entries(init);
      assert (m + Entries(init))[last.id := last.name] == m + Entries(init)[last.id := last.name];
    }
  }

  /** The keys afterwards are the old keys and the ids of `jts`. */
  lemma {:induction false} AssignKeys(m: map<int, string>, jts: seq<JobType>)
    ensures Assign(m, jts).Keys == m.Keys + set j | j in jts :: j.id
    decreases |jts|
  {
    if jts != [] {
      var init := jts[..|jts| - 1];
      var last := jts[|jts| - 1];
      AssignKeys(m, init);
      assert jts == init + [last];
      assert (set j | j in jts :: j.id) == (set j | j in init :: j.id) + {last.id};
    }
  }

  /** With distinct ids, every job type of `jts` maps its id to its name. */
  lemma {:induction false} AssignLookup(m: map<int, string>, jts: seq<JobType>)
    requires forall i, k :: 0 <= i < k < |jts| ==> jts[i].id != jts[k].id
    ensures forall i :: 0 <= i < |jts| ==> jts[i].id in Assign(m, jts) && Assign(m, jts)[jts[i].id] == jts[i].name
    decreases |jts|
  {
    if jts != [] {
      var init := jts[..|jts| - 1];
      AssignLookup(m, init);
      assert forall i :: 0 <= i < |init| ==> init[i] == jts[i];
    }
  }

  /** Setting the same pairs a second time changes nothing. */
  lemma AssignIdempotent(m: map<int, string>, jts: seq<JobType>)
    ensures Assign(Assign(m, jts), jts) == Assign(m, jts)
  {
    AssignOverrides(m, jts);
    AssignOverrides(Assign(m, jts), jts);
    assert (m + Entries(jts)) + Entries(jts) == m + Entries(jts);
  }

  /** `getJobTypeName`: the mapped name, or `Unknown Job` when the id is not
      mapped or is mapped to the empty name. */
  function JobTypeName(jobTypesMap: map<int, string>, jobTypeId: int): (r: string)
    ensures jobTypeId in jobTypesMap && jobTypesMap[jobTypeId] != "" ==> r == jobTypesMap[jobTypeId]
    ensures jobTypeId !in jobTypesMap || jobTypesMap[jobTypeId] == "" ==> r == "Unknown Job"
  {
    if jobTypeId in jobTypesMap && jobTypesMap[jobTypeId] != "" then jobTypesMap[jobTypeId]
    else "Unknown Job"
  }

  /** Before the first fetch the map is empty and every id is unknown. */
  lemma EmptyMapKnowsNoJob(jobTypeId: int)
    ensures JobTypeName(map[], jobTypeId) == "Unknown Job"
  {
  }

  /** After a fetch every fixed job type is named, and any other id that was
      not mapped before is still unknown. */
  lemma FetchedMapNamesMockJobTypes(m: map<int, string>, jobTypeId: int)
    ensures forall i :: 0 <= i < |MockJobTypes| ==>
              JobTypeName(Assign(m, MockJobTypes), MockJobTypes[i].id) == MockJobTypes[i].name
    ensures jobTypeId !in m && !(1 <= jobTypeId <= 5) ==> JobTypeName(Assign(m, MockJobTypes), jobTypeId) == "Unknown Job"
  {
    AssignLookup(m, MockJobTypes);
    AssignKeys(m, MockJobTypes);
    assert (set j | j in MockJobTypes :: j.id) == {1, 2, 3, 4, 5} by {
      assert MockJobTypes[0].id == 1 && MockJobTypes[1].id == 2 && MockJobTypes[2].id == 3;
      assert MockJobTypes[3].id == 4 && MockJobTypes[4].id == 5;
    }
  }

  class GigSummaryPage {
    var isLoading: bool
    var gigs: seq<Gig>
    var jobTypesMap: map<int, string>
    const mockJobTypes: seq<JobType>
    const mockGigs: seq<Gig>

    constructor ()
      ensures isLoading && gigs == [] && jobTypesMap == map[]
      ensures mockJobTypes == MockJobTypes && mockGigs == MockGigs
    {
      isLoading, gigs, jobTypesMap := true, [], map[];
      mockJobTypes, mockGigs := MockJobTypes, MockGigs;
    }

    /** `fetchGigs`, its one-second timer taken as fired at once: every job
        type is set in the map, in order, and the gigs become a copy of the
        fixed list. */
    method FetchGigs()
      modifies this`isLoading, this`jobTypesMap, this`gigs
      ensures jobTypesMap == Assign(old(jobTypesMap), mockJobTypes)
      ensures gigs == mockGigs && !isLoading
    {
      isLoading := true;

      var i := 0;
      while i < |mockJobTypes|
        invariant 0 <= i <= |mockJobTypes|
        invariant jobTypesMap == Assign(old(jobTypesMap), mockJobTypes[..i])
      {
        var jt := mockJobTypes[i];
        assert mockJobTypes[..i + 1][..i] == mockJobTypes[..i];
        jobTypesMap := jobTypesMap[jt.id := jt.name];
        i := i + 1;
      }
      assert mockJobTypes[..i] == mockJobTypes;

      gigs := mockGigs;
      isLoading := false;
    }
  }
}
