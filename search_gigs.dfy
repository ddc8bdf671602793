/** The gig search form: a cascading county -> constituency -> ward picker over
    a fixed region tree, and a search that narrows a fixed gig list by up to
    five optional criteria. */
module SearchGigs {
  import opened Collections
  import opened Text

  datatype JobType = JobType(id: int, name: string)

  datatype Gig = Gig(
    id: int,
    jobType: string,
    clientName: string,
    county: string,
    constituency: string,
    ward: string,
    isVerified: bool)

  datatype Constituency = Constituency(constituencyName: string, wards: seq<string>)

  datatype Region = Region(countyName: string, constituencies: seq<Constituency>)

  const MockRegions: seq<Region> := [
    Region("Nairobi", [
      Constituency("Westlands", ["Parklands", "Highridge", "Karura", "Kangemi", "Mountain View"]),
      Constituency("Dagoretti North", ["Kilimani", "Kawangware", "Gatina", "Kileleshwa", "Kabiro"]),
      Constituency("Starehe", ["Nairobi Central", "Ngara", "Ziwani", "Landimawe", "Nairobi South"])
    ]),
    Region("Kiambu", [
      Constituency("Kiambaa", ["Karuri", "Ndenderu", "Muchatha", "Cianda", "Kihara"]),
      Constituency("Kikuyu", ["Kikuyu", "Kinoo", "Nachu", "Sigona", "Karai"])
    ]),
    Region("Mombasa", [
      Constituency("Mvita", ["Mji Wa Kale", "Tudor", "Tononoka", "Shimanzi", "Makadara"]),
      Constituency("Nyali", ["Frere Town", "Ziwa La Ng'ombe", "Mkomani", "Kongowea", "Kadzandani"])
    ])
  ]

  const MockJobTypes: seq<JobType> := [
    JobType(1, "Plumbing"), JobType(2, "Electrical"), JobType(3, "Carpentry"),
    JobType(4, "Painting"), JobType(5, "Masonry")
  ]

  const MockGigs: seq<Gig> := [
    Gig(1, "Plumbing", "Nairobi Hospital", "Nairobi", "Westlands", "Parklands", true),
    Gig(2, "Electrical", "KNH", "Nairobi", "Dagoretti North", "Kilimani", true),
    Gig(3, "Carpentry", "Aga Khan Hospital", "Nairobi", "Westlands", "Parklands", false),
    Gig(4, "Painting", "MP Shah Hospital", "Nairobi", "Starehe", "Nairobi Central", true)
  ]

  // ---------------------------------------------------------------------------
  // The region tree and the options derived from it

  function CountyIs(county: string): Region -> bool
  {
    (r: Region) => r.countyName == county
  }

  function ConstituencyIs(name: string): Constituency -> bool
  {
    (c: Constituency) => c.constituencyName == name
  }

  /** `regions.map(r => r.county_name)`. */
  function CountyNames(regions: seq<Region>): (names: seq<string>)
    ensures |names| == |regions|
    ensures forall i :: 0 <= i < |regions| ==> names[i] == regions[i].countyName
  {
    seq(|regions|, i requires 0 <= i < |regions| => regions[i].countyName)
  }

  /** `constituencies.map(c => c.constituency_name)`. */
  function ConstituencyNames(cs: seq<Constituency>): (names: seq<string>)
    ensures |names| == |cs|
    ensures forall k :: 0 <= k < |cs| ==> names[k] == cs[k].constituencyName
  {
    seq(|cs|, k requires 0 <= k < |cs| => cs[k].constituencyName)
  }

  /** `regions[i]` is the first region carrying the name `county`. */
  ghost predicate FirstRegionFor(regions: seq<Region>, county: string, i: int)
  {
    0 <= i < |regions| && regions[i].countyName == county
    && forall j :: 0 <= j < i ==> regions[j].countyName != county
  }

  /** `cs[k]` is the first constituency carrying the name `name`. */
  ghost predicate FirstConstituencyFor(cs: seq<Constituency>, name: string, k: int)
  {
    0 <= k < |cs| && cs[k].constituencyName == name
    && forall j :: 0 <= j < k ==> cs[j].constituencyName != name
  }

  /** The constituency list `onCountyChanged` shows for `county`: the names of
      the first matching region's constituencies in tree order, or nothing for
      an empty or unknown county. */
  function ConstituencyOptions(regions: seq<Region>, county: string): (r: seq<string>)
    ensures county == "" ==> r == []
    ensures (forall i :: 0 <= i < |regions| ==> regions[i].countyName != county) ==> r == []
    ensures forall i :: county != "" && FirstRegionFor(regions, county, i) ==>
              r == ConstituencyNames(regions[i].constituencies)
  {
    if county == "" then []
    else match Find(regions, CountyIs(county))
      case Some(region) =>
        var i := FirstIndex(regions, CountyIs(county));
        assert region == regions[i];
        assert forall i' :: FirstRegionFor(regions, county, i') ==> i' == i;
        ConstituencyNames(region.constituencies)
      case None => []
  }

  /** The ward list `onConstituencyChanged` shows: `None` when it leaves the
      list as it was (a constituency is chosen but the county matches no
      region), otherwise the wards of the first matching constituency of the
      county's first region, or nothing. */
  function WardOptions(regions: seq<Region>, county: string, constituency: string): (r: Option<seq<string>>)
    ensures constituency == "" ==> r == Some([])
    ensures constituency != "" && (forall i :: 0 <= i < |regions| ==> regions[i].countyName != county) ==> r == None
    ensures forall i :: constituency != "" && FirstRegionFor(regions, county, i) ==>
              var cs := regions[i].constituencies;
              && ((forall k :: 0 <= k < |cs| ==> cs[k].constituencyName != constituency) ==> r == Some([]))
              && (forall k :: FirstConstituencyFor(cs, constituency, k) ==> r == Some(cs[k].wards))
  {
    if constituency == "" then Some([])
    else match Find(regions, CountyIs(county))
      case Some(region) =>
        var i := FirstIndex(regions, CountyIs(county));
        assert region == regions[i];
        assert forall i' :: FirstRegionFor(regions, county, i') ==> i' == i;
        (match Find(region.constituencies, ConstituencyIs(constituency))
        case Some(c) =>
          var k := FirstIndex(region.constituencies, ConstituencyIs(constituency));
          assert c == region.constituencies[k];
          assert forall k' :: FirstConstituencyFor(region.constituencies, constituency, k') ==> k' == k;
          Some(c.wards)
        case None => Some([]))
      case None => None
  }

  /** `name` is the name of some constituency of the tree. */
  ghost predicate IsConstituencyName(regions: seq<Region>, name: string)
  {
    exists i, k :: 0 <= i < |regions| && 0 <= k < |regions[i].constituencies|
                   && regions[i].constituencies[k].constituencyName == name
  }

  /** `name` is the name of some ward of the tree. */
  ghost predicate IsWardName(regions: seq<Region>, name: string)
  {
    exists i, k, m :: 0 <= i < |regions| && 0 <= k < |regions[i].constituencies|
                      && 0 <= m < |regions[i].constituencies[k].wards|
                      && regions[i].constituencies[k].wards[m] == name
  }

  /** Every constituency option is a constituency of the tree. */
  lemma ConstituencyOptionsFromTree(regions: seq<Region>, county: string)
    ensures forall c :: c in ConstituencyOptions(regions, county) ==> IsConstituencyName(regions, c)
  {
    var r := ConstituencyOptions(regions, county);
    if r != [] {
      var i := FirstIndex(regions, CountyIs(county));
      assert FirstRegionFor(regions, county, i);
      forall c | c in r ensures IsConstituencyName(regions, c) {
        var k :| 0 <= k < |r| && r[k] == c;
        assert regions[i].constituencies[k].constituencyName == c;
      }
    }
  }

  /** Every ward option is a ward of the tree. */
  lemma WardOptionsFromTree(regions: seq<Region>, county: string, constituency: string)
    ensures WardOptions(regions, county, constituency).Some? ==>
              forall w :: w in WardOptions(regions, county, constituency).value ==> IsWardName(regions, w)
  {
    var r := WardOptions(regions, county, constituency);
    if r.Some? && r.value != [] {
      var i := FirstIndex(regions, CountyIs(county));
      var cs := regions[i].constituencies;
      var k := FirstIndex(cs, ConstituencyIs(constituency));
      assert FirstRegionFor(regions, county, i);
      assert FirstConstituencyFor(cs, constituency, k);
      forall w | w in r.value ensures IsWardName(regions, w) {
        var m :| 0 <= m < |r.value| && r.value[m] == w;
        assert regions[i].constituencies[k].wards[m] == w;
      }
    }
  }

  // ---------------------------------------------------------------------------
  // The search criteria and what a search keeps

  /** The five criteria of the form. */
  datatype Criteria = Criteria(
    county: string,
    constituency: string,
    ward: string,
    jobType: string,
    clientName: string)

  const NoCriteria := Criteria("", "", "", "", "")

  function JobTypeIdIs(key: string): JobType -> bool
  {
    (j: JobType) => DecimalString(j.id) == key
  }

  /** The job-type name the search narrows to: that of the first loaded job
      type whose decimal id equals the selected key; a key naming no job type
      narrows nothing. */
  function JobTypeFilter(jobTypes: seq<JobType>, key: string): (r: Option<string>)
    ensures key == "" ==> r == None
    ensures key != "" ==> (r.Some? <==> exists j :: j in jobTypes && DecimalString(j.id) == key)
    ensures r.Some? ==> exists j :: j in jobTypes && DecimalString(j.id) == key && j.name == r.value
    ensures r.Some? ==>
              exists i :: 0 <= i < |jobTypes| && DecimalString(jobTypes[i].id) == key && jobTypes[i].name == r.value
                && forall j :: 0 <= j < i ==> DecimalString(jobTypes[j].id) != key
  {
    if key == "" then None
    else match Find(jobTypes, JobTypeIdIs(key))
      case Some(j) => Some(j.name)
      case None =>
        assert forall j :: j in jobTypes ==> !JobTypeIdIs(key)(j);
        None
  }

  /** The client-name criterion: a case-insensitive substring match. */
  predicate ClientNameMatches(g: Gig, query: string)
  {
    Includes(ToLower(g.clientName), ToLower(query))
  }

  /** With distinct ids, selecting the decimal key of a loaded job type narrows
      the search to that job type's name. */
  lemma SelectedKeyNamesItsJobType(jobTypes: seq<JobType>, i: int)
    requires forall a, b :: 0 <= a < b < |jobTypes| ==> jobTypes[a].id != jobTypes[b].id
    requires 0 <= i < |jobTypes|
    ensures JobTypeFilter(jobTypes, DecimalString(jobTypes[i].id)) == Some(jobTypes[i].name)
  {
    var key := DecimalString(jobTypes[i].id);
    var r := JobTypeFilter(jobTypes, key);
    assert r.Some?;
    var i0 :| 0 <= i0 < |jobTypes| && DecimalString(jobTypes[i0].id) == key && jobTypes[i0].name == r.value
                && forall j :: 0 <= j < i0 ==> DecimalString(jobTypes[j].id) != key;
    DecimalStringInjective(jobTypes[i0].id, jobTypes[i].id);
  }

  /** The client query ignores case: two queries that lower-case alike give
      the same answer. */
  lemma ClientQueryIgnoresCase(g: Gig, q1: string, q2: string)
    requires ToLower(q1) == ToLower(q2)
    ensures ClientNameMatches(g, q1) <==> ClientNameMatches(g, q2)
  {
  }

  /** A query written exactly as it appears in the client's name matches. */
  lemma VerbatimClientQueryMatches(g: Gig, query: string)
    requires Includes(g.clientName, query)
    ensures ClientNameMatches(g, query)
  {
    IncludesLowered(g.clientName, query);
  }

  /** `g` satisfies every criterion that is set. The client name is a
      criterion when it trims to something, and is then matched untrimmed. */
  predicate Matches(g: Gig, c: Criteria, jobTypes: seq<JobType>)
  {
    && (c.county != "" ==> g.county == c.county)
    && (c.constituency != "" ==> g.constituency == c.constituency)
    && (c.ward != "" ==> g.ward == c.ward)
    && (JobTypeFilter(jobTypes, c.jobType).Some? ==> g.jobType == JobTypeFilter(jobTypes, c.jobType).value)
    && (Trim(c.clientName) != "" ==> ClientNameMatches(g, c.clientName))
  }

  function Matcher(c: Criteria, jobTypes: seq<JobType>): Gig -> bool
  {
    (g: Gig) => Matches(g, c, jobTypes)
  }

  // The single filter steps of the search.
  function InCounty(county: string): Gig -> bool { (g: Gig) => g.county == county }
  function InConstituency(constituency: string): Gig -> bool { (g: Gig) => g.constituency == constituency }
  function InWard(ward: string): Gig -> bool { (g: Gig) => g.ward == ward }
  function OfJobType(name: string): Gig -> bool { (g: Gig) => g.jobType == name }
  function ForClient(query: string): Gig -> bool { (g: Gig) => ClientNameMatches(g, query) }

  /** One filter step of the search narrows the gigs kept so far by one more
      criterion: filtering the results of `c` by `step` gives the results of
      `d`, which sets that criterion. */
  ghost predicate StepNarrowsTo(gigs: seq<Gig>, c: Criteria, d: Criteria, jobTypes: seq<JobType>, step: Gig -> bool)
  {
    Filter(Filter(gigs, Matcher(c, jobTypes)), step) == Filter(gigs, Matcher(d, jobTypes))
  }

  lemma CountyStep(gigs: seq<Gig>, c: Criteria, jobTypes: seq<JobType>, county: string)
    requires c.county == "" && county != ""
    ensures StepNarrowsTo(gigs, c, c.(county := county), jobTypes, InCounty(county))
  {
    FilterTwice(gigs, Matcher(c, jobTypes), InCounty(county), Matcher(c.(county := county), jobTypes));
  }

  lemma ConstituencyStep(gigs: seq<Gig>, c: Criteria, jobTypes: seq<JobType>, constituency: string)
    requires c.constituency == "" && constituency != ""
    ensures StepNarrowsTo(gigs, c, c.(constituency := constituency), jobTypes, InConstituency(constituency))
  {
    FilterTwice(gigs, Matcher(c, jobTypes), InConstituency(constituency),
                Matcher(c.(constituency := constituency), jobTypes));
  }

  lemma WardStep(gigs: seq<Gig>, c: Criteria, jobTypes: seq<JobType>, ward: string)
    requires c.ward == "" && ward != ""
    ensures StepNarrowsTo(gigs, c, c.(ward := ward), jobTypes, InWard(ward))
  {
    FilterTwice(gigs, Matcher(c, jobTypes), InWard(ward), Matcher(c.(ward := ward), jobTypes));
  }

  lemma JobTypeStep(gigs: seq<Gig>, c: Criteria, jobTypes: seq<JobType>, key: string)
    requires c.jobType == ""
    ensures JobTypeFilter(jobTypes, key).Some? ==>
              StepNarrowsTo(gigs, c, c.(jobType := key), jobTypes, OfJobType(JobTypeFilter(jobTypes, key).value))
    ensures JobTypeFilter(jobTypes, key).None? ==>
              Filter(gigs, Matcher(c, jobTypes)) == Filter(gigs, Matcher(c.(jobType := key), jobTypes))
  {
    var d := c.(jobType := key);
    match JobTypeFilter(jobTypes, key)
    case Some(name) =>
      FilterTwice(gigs, Matcher(c, jobTypes), OfJobType(name), Matcher(d, jobTypes));
    case None =>
      FilterAgree(gigs, Matcher(c, jobTypes), Matcher(d, jobTypes));
  }

  lemma ClientStep(gigs: seq<Gig>, c: Criteria, jobTypes: seq<JobType>, query: string)
    requires Trim(c.clientName) == ""
    ensures Trim(query) != "" ==> StepNarrowsTo(gigs, c, c.(clientName := query), jobTypes, ForClient(query))
    ensures Trim(query) == "" ==>
              Filter(gigs, Matcher(c, jobTypes)) == Filter(gigs, Matcher(c.(clientName := query), jobTypes))
  {
    var d := c.(clientName := query);
    if Trim(query) != "" {
      FilterTwice(gigs, Matcher(c, jobTypes), ForClient(query), Matcher(d, jobTypes));
    } else {
      FilterAgree(gigs, Matcher(c, jobTypes), Matcher(d, jobTypes));
    }
  }

  /** With no criterion set, a search keeps every gig. */
  lemma NoCriterionKeepsAll(gigs: seq<Gig>, c: Criteria, jobTypes: seq<JobType>)
    requires c.county == "" && c.constituency == "" && c.ward == "" && c.jobType == ""
    requires Trim(c.clientName) == ""
    ensures Filter(gigs, Matcher(c, jobTypes)) == gigs
  {
    FilterKeepsAll(gigs, Matcher(c, jobTypes));
  }

  /** The results are the gigs that satisfy every set criterion, in their original order. */
  lemma SearchResultsAreOrderedMatches(gigs: seq<Gig>, c: Criteria, jobTypes: seq<JobType>)
    ensures IsSubsequence(Filter(gigs, Matcher(c, jobTypes)), gigs)
    ensures forall g :: g in Filter(gigs, Matcher(c, jobTypes)) <==> g in gigs && Matches(g, c, jobTypes)
  {
    FilterIsSubsequence(gigs, Matcher(c, jobTypes));
    forall g ensures g in Filter(gigs, Matcher(c, jobTypes)) <==> g in gigs && Matches(g, c, jobTypes) {
      FilterMembership(gigs, Matcher(c, jobTypes), g);
    }
  }

  /** Setting a criterion that was unset only narrows the results. */
  lemma MoreCriteriaNarrow(gigs: seq<Gig>, c: Criteria, d: Criteria, jobTypes: seq<JobType>)
    requires c.county == "" || c.county == d.county
    requires c.constituency == "" || c.constituency == d.constituency
    requires c.ward == "" || c.ward == d.ward
    requires c.jobType == "" || c.jobType == d.jobType
    requires Trim(c.clientName) == "" || c.clientName == d.clientName
    ensures IsSubsequence(Filter(gigs, Matcher(d, jobTypes)), Filter(gigs, Matcher(c, jobTypes)))
  {
    FilterNarrows(gigs, Matcher(d, jobTypes), Matcher(c, jobTypes));
  }

  /** The filter chain of the `searchGigs` callback: start from every gig and
      apply each criterion that is set, in the order county, constituency,
      ward, job type, client name. The result is the gigs matching all of
      them, in their original order. */
  method ApplySearch(gigs: seq<Gig>, jobTypes: seq<JobType>, c: Criteria) returns (results: seq<Gig>)
    ensures results == Filter(gigs, Matcher(c, jobTypes))
  {
    var county, constituency, ward, key, query := c.county, c.constituency, c.ward, c.jobType, c.clientName;
    results := gigs;
    ghost var applied := NoCriteria;
    NoCriterionKeepsAll(gigs, applied, jobTypes);

    if county != "" {
      CountyStep(gigs, applied, jobTypes, county);
      results := Filter(results, InCounty(county));
    }
    applied := applied.(county := county);

    if constituency != "" {
      ConstituencyStep(gigs, applied, jobTypes, constituency);
      results := Filter(results, InConstituency(constituency));
    }
    applied := applied.(constituency := constituency);

    if ward != "" {
      WardStep(gigs, applied, jobTypes, ward);
      results := Filter(results, InWard(ward));
    }
    applied := applied.(ward := ward);

    JobTypeStep(gigs, applied, jobTypes, key);
    if key != "" {
      var jobType := Find(jobTypes, JobTypeIdIs(key));
      if jobType.Some? {
        results := Filter(results, OfJobType(jobType.value.name));
      }
    }
    applied := applied.(jobType := key);

    ClientStep(gigs, applied, jobTypes, query);
    if Trim(query) != "" {
      results := Filter(results, ForClient(query));
    }
    applied := applied.(clientName := query);
    assert applied == c;
  }

  // ---------------------------------------------------------------------------
  // The component

  class SearchGigsForm {
    var isLoading: bool
    var hasSearched: bool
    var searchResults: seq<Gig>

    // Form fields
    var selectedCounty: string
    var selectedConstituency: string
    var selectedWard: string
    var selectedJobType: string
    var clientName: string

    // Dropdown options
    var counties: seq<string>
    var constituencies: seq<string>
    var wards: seq<string>
    var jobTypes: seq<JobType>

    const regions: seq<Region>
    const mockJobTypes: seq<JobType>
    const mockGigs: seq<Gig>

    constructor ()
      ensures regions == MockRegions && mockJobTypes == MockJobTypes && mockGigs == MockGigs
      ensures !isLoading && !hasSearched && searchResults == []
      ensures CurrentCriteria() == NoCriteria
      ensures counties == [] && constituencies == [] && wards == [] && jobTypes == []
    {
      regions, mockJobTypes, mockGigs := MockRegions, MockJobTypes, MockGigs;
      isLoading, hasSearched, searchResults := false, false, [];
      selectedCounty, selectedConstituency, selectedWard := "", "", "";
      selectedJobType, clientName := "", "";
      counties, constituencies, wards, jobTypes := [], [], [], [];
    }

    function CurrentCriteria(): Criteria
      reads this
    {
      Criteria(selectedCounty, selectedConstituency, selectedWard, selectedJobType, clientName)
    }

    /** The option lists hold only names drawn from the region tree. */
    ghost predicate OptionsFromTree()
      reads this
    {
      && (forall c :: c in constituencies ==> IsConstituencyName(regions, c))
      && (forall w :: w in wards ==> IsWardName(regions, w))
    }

    /** `ngOnInit`: load the county list and the job types. */
    method OnInit()
      modifies this`counties, this`jobTypes
      ensures counties == CountyNames(regions) && jobTypes == mockJobTypes
    {
      LoadRegions();
      LoadJobTypes();
    }

    method LoadRegions()
      modifies this`counties
      ensures |counties| == |regions|
      ensures forall i :: 0 <= i < |regions| ==> counties[i] == regions[i].countyName
    {
      counties := CountyNames(regions);
    }

    method LoadJobTypes()
      modifies this`jobTypes
      ensures jobTypes == mockJobTypes
    {
      jobTypes := mockJobTypes;
    }

    /** A new county clears the constituency and the ward and offers the
        county's constituencies. */
    method OnCountyChanged()
      modifies this`selectedConstituency, this`selectedWard, this`wards, this`constituencies
      ensures selectedConstituency == "" && selectedWard == "" && wards == []
      ensures constituencies == ConstituencyOptions(regions, selectedCounty)
      ensures OptionsFromTree()
    {
      selectedConstituency := "";
      selectedWard := "";
      wards := [];

      ConstituencyOptionsFromTree(regions, selectedCounty);
      if selectedCounty == "" {
        constituencies := [];
        return;
      }

      var selectedRegion := Find(regions, CountyIs(selectedCounty));
      if selectedRegion.Some? {
        constituencies := ConstituencyNames(selectedRegion.value.constituencies);
      } else {
        constituencies := [];
      }
    }

    /** A new constituency clears the ward and offers the constituency's wards;
        the constituency itself is kept whether or not the county has it. */
    method OnConstituencyChanged()
      modifies this`selectedWard, this`wards
      ensures selectedWard == ""
      ensures wards == match WardOptions(regions, selectedCounty, selectedConstituency)
                       case Some(w) => w
                       case None => old(wards)
      ensures old(OptionsFromTree()) ==> OptionsFromTree()
    {
      selectedWard := "";
      WardOptionsFromTree(regions, selectedCounty, selectedConstituency);

      if selectedConstituency == "" {
        wards := [];
        return;
      }

      var selectedRegion := Find(regions, CountyIs(selectedCounty));
      if selectedRegion.Some? {
        var found := Find(selectedRegion.value.constituencies, ConstituencyIs(selectedConstituency));
        if found.Some? {
          wards := found.value.wards;
        } else {
          wards := [];
        }
      }
    }

    /** No criterion is set; a search would then keep every gig. */
    function IsSearchDisabled(): (r: bool)
      reads this
      ensures r ==> Filter(mockGigs, Matcher(CurrentCriteria(), jobTypes)) == mockGigs
    {
      if && selectedCounty == ""
         && selectedConstituency == ""
         && selectedWard == ""
         && selectedJobType == ""
         && Trim(clientName) == ""
      then
        NoCriterionKeepsAll(mockGigs, CurrentCriteria(), jobTypes);
        true
      else
        false
    }

    /** `searchGigs` up to its timer: refused when no criterion is set or a
        search is pending; otherwise marks the search as pending. */
    method SearchGigs() returns (started: bool)
      modifies this`isLoading, this`hasSearched
      ensures started <==> !IsSearchDisabled() && !old(isLoading)
      ensures started ==> isLoading && hasSearched
      ensures !started ==> isLoading == old(isLoading) && hasSearched == old(hasSearched)
    {
      if IsSearchDisabled() || isLoading {
        return false;
      }
      isLoading := true;
      hasSearched := true;
      started := true;
    }

    /** The timer callback of `searchGigs`: filter the gigs by the criteria as
        they stand when it fires, publish them and clear the form. */
    method OnSearchTimer()
      modifies this`searchResults, this`isLoading, this`selectedCounty, this`selectedConstituency,
               this`selectedWard, this`selectedJobType, this`clientName, this`constituencies, this`wards
      ensures searchResults == Filter(mockGigs, Matcher(old(CurrentCriteria()), jobTypes))
      ensures !isLoading
      ensures CurrentCriteria() == NoCriteria && constituencies == [] && wards == []
    {
      var results := ApplySearch(mockGigs, jobTypes, CurrentCriteria());
      searchResults := results;
      isLoading := false;
      ClearForm();
    }

    /** Empty every criterion and both dependent lists; the county and job-type
        lists stay. */
    method ClearForm()
      modifies this`selectedCounty, this`selectedConstituency, this`selectedWard,
               this`selectedJobType, this`clientName, this`constituencies, this`wards
      ensures CurrentCriteria() == NoCriteria && constituencies == [] && wards == []
      ensures IsSearchDisabled() && OptionsFromTree()
    {
      selectedCounty := "";
      selectedConstituency := "";
      selectedWard := "";
      selectedJobType := "";
      clientName := "";
      constituencies := [];
      wards := [];
    }
  }

  // ---------------------------------------------------------------------------
  // The cascade on the tree the component ships with

  /** Nairobi offers its three constituencies in tree order, and Westlands
      then offers its five wards. */
  lemma NairobiWestlands()
    ensures ConstituencyOptions(MockRegions, "Nairobi") == ["Westlands", "Dagoretti North", "Starehe"]
    ensures WardOptions(MockRegions, "Nairobi", "Westlands")
            == Some(["Parklands", "Highridge", "Karura", "Kangemi", "Mountain View"])
  {
    assert FirstRegionFor(MockRegions, "Nairobi", 0);
    assert FirstConstituencyFor(MockRegions[0].constituencies, "Westlands", 0);
  }

  /** A constituency that Nairobi does not have is not rejected: it gets an
      empty ward list. */
  lemma UnknownConstituencyGetsNoWards()
    ensures WardOptions(MockRegions, "Nairobi", "Nonexistent") == Some([])
  {
    assert FirstRegionFor(MockRegions, "Nairobi", 0);
  }

  /** Searching Nairobi, Westlands finds the two Westlands gigs, in order. */
  lemma WestlandsSearch()
    ensures Filter(MockGigs, Matcher(Criteria("Nairobi", "Westlands", "", "", ""), MockJobTypes))
            == [MockGigs[0], MockGigs[2]]
  {
    var p := Matcher(Criteria("Nairobi", "Westlands", "", "", ""), MockJobTypes);
    assert Trim("") == "";
    assert MockGigs[1..][1..][1..][1..] == [];
    assert Filter(MockGigs[3..], p) == [];
    assert Filter(MockGigs[2..], p) == [MockGigs[2]];
    assert Filter(MockGigs[1..], p) == [MockGigs[2]];
  }
}
