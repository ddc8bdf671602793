/** The identity-verification page: three image slots filled from the camera
    or the gallery, the rule deciding which files are accepted, the dialog
    and camera flags, and the guard in front of the upload. */
module Verification {
  import opened Collections
  import opened Text
  import opened Web

  datatype ImageType = IdFront | IdBack | Selfie

  /** The key the template and the upload use for each slot. */
  function ImageTypeKey(t: ImageType): string
  {
    match t
    case IdFront => "idFront"
    case IdBack => "idBack"
    case Selfie => "selfie"
  }

  /** The title configured for each slot. */
  function ImageTitle(t: ImageType): string
  {
    match t
    case IdFront => "ID Front Side"
    case IdBack => "ID Back Side"
    case Selfie => "Selfie Photo"
  }

  /** `getImageTypeLabel`: the configured title of a slot key, `Image` for any other key. */
  function ImageTypeLabel(key: string): (r: string)
    ensures forall t :: key == ImageTypeKey(t) ==> r == ImageTitle(t)
    ensures (forall t :: key != ImageTypeKey(t)) ==> r == "Image"
  {
    if key == ImageTypeKey(IdFront) then ImageTitle(IdFront)
    else if key == ImageTypeKey(IdBack) then ImageTitle(IdBack)
    else if key == ImageTypeKey(Selfie) then ImageTitle(Selfie)
    else "Image"
  }

  /** The three slot keys are distinct, so every slot gets its own label. */
  lemma LabelsAreDistinct(t: ImageType, u: ImageType)
    ensures ImageTypeKey(t) == ImageTypeKey(u) <==> t == u
    ensures ImageTypeLabel(ImageTypeKey(t)) == ImageTypeLabel(ImageTypeKey(u)) <==> t == u
  {
  }

  /** The three image slots. */
  datatype Images = Images(idFront: Option<File>, idBack: Option<File>, selfie: Option<File>)
  {
    function Get(t: ImageType): Option<File>
    {
      match t
      case IdFront => idFront
      case IdBack => idBack
      case Selfie => selfie
    }

    /** `images[t] = f`: the slot `t` holds `f`, the other two are untouched. */
    function With(t: ImageType, f: File): (r: Images)
      ensures r.Get(t) == Some(f)
      ensures forall u :: u != t ==> r.Get(u) == Get(u)
    {
      match t
      case IdFront => this.(idFront := Some(f))
      case IdBack => this.(idBack := Some(f))
      case Selfie => this.(selfie := Some(f))
    }

    /** Every slot holds a file. */
    predicate Complete()
    {
      idFront.Some? && idBack.Some? && selfie.Some?
    }
  }

  const NoImages := Images(None, None, None)

  /** The set of images is complete exactly when no slot is empty. */
  lemma CompleteIffEverySlot(images: Images)
    ensures images.Complete() <==> forall t :: images.Get(t).Some?
  {
    if !images.Complete() {
      if images.idFront.None? { assert images.Get(IdFront).None?; }
      else if images.idBack.None? { assert images.Get(IdBack).None?; }
      else { assert images.Get(Selfie).None?; }
    }
  }

  /** Filling the three slots, in any order, completes the set. */
  lemma FillingAllSlotsCompletes(images: Images, a: File, b: File, c: File, t: ImageType, u: ImageType, v: ImageType)
    requires t != u && u != v && t != v
    ensures images.With(t, a).With(u, b).With(v, c).Complete()
  {
    var r := images.With(t, a).With(u, b).With(v, c);
    assert r.Get(t).Some? && r.Get(u).Some? && r.Get(v).Some?;
    CompleteIffEverySlot(r);
  }

  /** The largest accepted image: 5 MiB. */
  const MaxImageBytes: nat := 5 * 1024 * 1024

  /** Why `handleImageSelected` refuses a file, if it does: first the size,
      then the MIME type. */
  function ImageRejection(file: File): (r: Option<Notice>)
    ensures r.None? <==> file.size <= MaxImageBytes && StartsWith(file.mimeType, "image/")
    ensures file.size > MaxImageBytes ==> r == Some(Notice("Image size must be less than 5MB", Warning))
    ensures file.size <= MaxImageBytes && !StartsWith(file.mimeType, "image/") ==>
              r == Some(Notice("Invalid image file", Warning))
  {
    if file.size > 5 * 1024 * 1024 then Some(Notice("Image size must be less than 5MB", Warning))
    else if !StartsWith(file.mimeType, "image/") then Some(Notice("Invalid image file", Warning))
    else None
  }

  /** The size bound is inclusive: an image of exactly 5 MiB is accepted,
      one byte more is not. */
  lemma FiveMebibytesIsAccepted(name: string, mimeType: string)
    requires StartsWith(mimeType, "image/")
    ensures ImageRejection(File(name, 5242880, mimeType)).None?
    ensures ImageRejection(File(name, 5242881, mimeType)).Some?
  {
  }

  /** The snackbar shown once an accepted file has been read. */
  function CapturedNotice(t: ImageType): Notice
  {
    Notice(ImageTitle(t) + " captured successfully!", Success)
  }

  /** A camera stream as handed out by `getUserMedia`. */
  datatype MediaStream = MediaStream(id: int)

  /** What `submitVerification` posts: the three files and the bearer header. */
  datatype Upload = Upload(idFront: File, idBack: File, selfie: File, authorization: string)

  /** The guard of `submitVerification`: which notice stops it, if any. */
  function SubmissionRefusal(images: Images, token: Option<string>): (r: Option<Notice>)
    ensures r.None? <==> images.Complete() && token.Some? && token.value != ""
    ensures !images.Complete() ==> r == Some(Notice("Please capture all required images", Warning))
    ensures images.Complete() && (token.None? || token.value == "") ==> r == Some(Notice("Access token missing", Error))
  {
    if images.idFront.None? || images.idBack.None? || images.selfie.None? then
      Some(Notice("Please capture all required images", Warning))
    else if token.None? || token.value == "" then
      Some(Notice("Access token missing", Error))
    else
      None
  }

  /** The `facingMode` asked of the camera: the front camera exactly for the
      selfie slot, the rear one otherwise. */
  function FacingMode(current: Option<ImageType>): (m: string)
    ensures m == "user" <==> current == Some(Selfie)
    ensures m == "user" || m == "environment"
  {
    if current == Some(Selfie) then "user" else "environment"
  }

  class VerificationPage {
    var images: Images
    var isSubmitting: bool
    var uploadProgress: int
    var showSourceDialog: bool
    var showCameraDialog: bool
    var currentImageType: Option<ImageType>
    var stream: Option<MediaStream>
    var isCameraReady: bool

    /** The camera dialog is only open for a chosen slot. */
    ghost predicate Valid()
      reads this
    {
      showCameraDialog ==> currentImageType.Some?
    }

    constructor ()
      ensures Valid()
      ensures images == NoImages && !isSubmitting && uploadProgress == 0
      ensures !showSourceDialog && !showCameraDialog && currentImageType == None
      ensures stream == None && !isCameraReady
    {
      images := NoImages;
      isSubmitting, uploadProgress := false, 0;
      showSourceDialog, showCameraDialog, currentImageType := false, false, None;
      stream, isCameraReady := None, false;
    }

    /** `openImagePicker`: remember the slot and ask for a source. */
    method OpenImagePicker(t: ImageType)
      requires Valid()
      modifies this`currentImageType, this`showSourceDialog
      ensures Valid()
      ensures currentImageType == Some(t) && showSourceDialog
    {
      currentImageType := Some(t);
      showSourceDialog := true;
    }

    /** `closeSourceDialog`: hide the source dialog; the chosen slot is kept. */
    method CloseSourceDialog()
      requires Valid()
      modifies this`showSourceDialog
      ensures Valid()
      ensures !showSourceDialog
    {
      showSourceDialog := false;
    }

    /** `stopCamera`: whatever the state, no stream is left and the camera is
        not ready, so calling it again changes nothing. */
    method StopCamera()
      modifies this`stream, this`isCameraReady
      ensures stream == None && !isCameraReady
    {
      if stream.Some? {
        stream := None;
      }
      isCameraReady := false;
    }

    /** `closeCameraDialog`: hide the camera dialog, stop the camera, and
        forget the chosen slot. */
    method CloseCameraDialog()
      requires Valid()
      modifies this`showCameraDialog, this`stream, this`isCameraReady, this`currentImageType
      ensures Valid()
      ensures !showCameraDialog && stream == None && !isCameraReady && currentImageType == None
    {
      showCameraDialog := false;
      StopCamera();
      currentImageType := None;
    }

    /** `openCamera` up to its 100 ms pause: without a chosen slot only the
        error is reported; otherwise the source dialog gives way to the camera
        dialog, not ready yet. The rest arrives through `RequestCamera` and
        `OnCameraAccess`. */
    method OpenCamera() returns (notice: Option<Notice>)
      requires Valid()
      modifies this`showSourceDialog, this`showCameraDialog, this`isCameraReady
      ensures Valid()
      ensures old(currentImageType).None? ==>
                notice == Some(Notice("No image type selected", Error))
                && showSourceDialog == old(showSourceDialog) && showCameraDialog == old(showCameraDialog)
                && isCameraReady == old(isCameraReady)
      ensures old(currentImageType).Some? ==>
                notice == None && !showSourceDialog && showCameraDialog && !isCameraReady
    {
      if currentImageType.None? {
        return Some(Notice("No image type selected", Error));
      }

      CloseSourceDialog();
      showCameraDialog := true;
      isCameraReady := false;
      notice := None;
    }

    /** After the pause, the camera `openCamera` asks `getUserMedia` for: the
        slot chosen at that moment decides, so a dialog closed during the
        pause asks for the rear camera. */
    method RequestCamera() returns (facingMode: string)
      ensures facingMode == FacingMode(currentImageType)
    {
      facingMode := if currentImageType == Some(Selfie) then "user" else "environment";
    }

    /** The answer of `getUserMedia`: `access` is the granted stream, or
        `None` when it throws. A granted stream is stored whatever happened to
        the dialog meanwhile; a refusal reports the error and closes the
        camera dialog. */
    method OnCameraAccess(access: Option<MediaStream>) returns (notice: Option<Notice>)
      requires Valid()
      modifies this`showCameraDialog, this`stream, this`isCameraReady, this`currentImageType
      ensures Valid()
      ensures access.Some? ==>
                notice == None && stream == access && showCameraDialog == old(showCameraDialog)
                && isCameraReady == old(isCameraReady) && currentImageType == old(currentImageType)
      ensures access.None? ==>
                notice == Some(Notice("Camera access failed", Error))
                && !showCameraDialog && stream == None && !isCameraReady && currentImageType == None
    {
      match access {
        case Some(s) =>
          stream := Some(s);
          notice := None;
        case None =>
          notice := Some(Notice("Camera access failed", Error));
          CloseCameraDialog();
      }
    }

    /** The video element started playing the camera stream. */
    method OnVideoPlaying()
      requires Valid()
      modifies this`isCameraReady
      ensures Valid()
      ensures isCameraReady
    {
      isCameraReady := true;
    }

    /** `handleImageSelected`, the file reader taken as succeeding at once: a
        refused file leaves every slot as it was; an accepted one is stored in
        its own slot only. */
    method HandleImageSelected(file: File, t: ImageType) returns (notice: Notice)
      requires Valid()
      modifies this`images
      ensures Valid()
      ensures ImageRejection(file).Some? ==> images == old(images) && notice == ImageRejection(file).value
      ensures ImageRejection(file).None? ==> images == old(images).With(t, file) && notice == CapturedNotice(t)
    {
      if file.size > 5 * 1024 * 1024 {
        return Notice("Image size must be less than 5MB", Warning);
      }
      if !StartsWith(file.mimeType, "image/") {
        return Notice("Invalid image file", Warning);
      }
      images := images.With(t, file);
      notice := CapturedNotice(t);
    }

    /** `openGallery`, the file input taken as answered at once: `picked` is
        the first chosen file, `None` when the picker is dismissed. */
    method OpenGallery(picked: Option<File>) returns (notice: Option<Notice>)
      requires Valid()
      modifies this`showSourceDialog, this`images
      ensures Valid()
      ensures old(currentImageType).None? ==>
                notice == Some(Notice("No image type selected", Error))
                && showSourceDialog == old(showSourceDialog) && images == old(images)
      ensures old(currentImageType).Some? ==> !showSourceDialog
      ensures old(currentImageType).Some? && picked.None? ==> notice == None && images == old(images)
      ensures old(currentImageType).Some? && picked.Some? && ImageRejection(picked.value).Some? ==>
                notice == ImageRejection(picked.value) && images == old(images)
      ensures old(currentImageType).Some? && picked.Some? && ImageRejection(picked.value).None? ==>
                notice == Some(CapturedNotice(currentImageType.value))
                && images == old(images).With(currentImageType.value, picked.value)
    {
      if currentImageType.None? {
        return Some(Notice("No image type selected", Error));
      }
      CloseSourceDialog();
      notice := None;
      if picked.Some? {
        var n := HandleImageSelected(picked.value, currentImageType.value);
        notice := Some(n);
      }
    }

    /** `submitVerification` up to the upload: `token` is the stored access
        token. When the guard passes, the three files go out with a bearer
        header and the page shows an upload at 0%; otherwise nothing changes. */
    method SubmitVerification(token: Option<string>) returns (upload: Option<Upload>, notice: Option<Notice>)
      requires Valid()
      modifies this`isSubmitting, this`uploadProgress
      ensures Valid()
      ensures upload.Some? <==> SubmissionRefusal(images, token).None?
      ensures upload.Some? ==>
                upload.value == Upload(images.idFront.value, images.idBack.value, images.selfie.value,
                                       "Bearer " + token.value)
                && isSubmitting && uploadProgress == 0 && notice == None
      ensures upload.None? ==>
                notice == SubmissionRefusal(images, token)
                && isSubmitting == old(isSubmitting) && uploadProgress == old(uploadProgress)
    {
      if images.idFront.None? || images.idBack.None? || images.selfie.None? {
        return None, Some(Notice("Please capture all required images", Warning));
      }
      if token.None? || token.value == "" {
        return None, Some(Notice("Access token missing", Error));
      }
      isSubmitting := true;
      uploadProgress := 0;
      upload := Some(Upload(images.idFront.value, images.idBack.value, images.selfie.value, "Bearer " + token.value));
      notice := None;
    }

    /** The upload settled: success or failure, the page ends with no upload
        in progress and the bar at 0; after a success it goes back. */
    method OnUploadFinished(succeeded: bool) returns (notice: Notice, goBack: bool)
      requires Valid()
      modifies this`isSubmitting, this`uploadProgress
      ensures Valid()
      ensures !isSubmitting && uploadProgress == 0
      ensures succeeded ==> notice == Notice("Verification submitted successfully!", Success) && goBack
      ensures !succeeded ==> notice == Notice("Submission failed", Error) && !goBack
    {
      if succeeded {
        uploadProgress := 100;
        notice, goBack := Notice("Verification submitted successfully!", Success), true;
      } else {
        notice, goBack := Notice("Submission failed", Error), false;
      }
      isSubmitting := false;
      uploadProgress := 0;
    }
  }
}
