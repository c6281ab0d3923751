/**
 * The image upload hook: type and size validation of a picked file, the
 * data-URL result of reading it, and the batch upload that keeps the files
 * that passed.  The file reader's outcome is an input.
 */
module ImageUpload {
  import opened Wrappers

  datatype ImageFile = ImageFile(name: string, size: int, fileType: string)

  /** What reading the file as a data URL produced. */
  datatype ReadResult = ReadDone(dataUrl: string) | ReadFailed

  datatype UploadResponse = UploadResponse(
    success: bool,
    message: string,
    url: string,
    fileName: string,
    originalName: string,
    size: int,
    fileType: string)

  /** How one `uploadImage` call settles: a response, `null`, or a rejected
      promise (the reader failed; the rejection escapes the `try` because
      the promise is returned, not awaited). */
  datatype UploadOutcome = Accepted(response: UploadResponse) | Refused | ReadRejected

  const ValidTypes: seq<string> := ["image/jpeg", "image/jpg", "image/png", "image/webp"]
  const MaxSize := 5 * 1024 * 1024
  const TypeError := "Chỉ chấp nhận file ảnh định dạng JPEG, PNG, WEBP"
  const SizeError := "Kích thước ảnh không được vượt quá 5MB"
  const Processed := "File processed successfully"

  /** The validation message for a file, or none when it may be read. */
  function ValidationError(file: ImageFile): (e: Option<string>)
    ensures file.fileType !in ValidTypes ==> e == Some(TypeError)
    ensures file.fileType in ValidTypes && file.size > MaxSize ==> e == Some(SizeError)
    ensures e.None? <==> file.fileType in ValidTypes && file.size <= MaxSize
  {
    if file.fileType !in ValidTypes then Some(TypeError)
    else if file.size > MaxSize then Some(SizeError)
    else None
  }

  /** The settled value of `uploadImage(file)` given the reader's outcome. */
  function UploadResult(file: ImageFile, read: ReadResult): (o: UploadOutcome)
    ensures ValidationError(file).Some? ==> o == Refused
    ensures ValidationError(file).None? && read.ReadFailed? ==> o == ReadRejected
    ensures ValidationError(file).None? && read.ReadDone? ==> o.Accepted?
    ensures o.Accepted? ==>
      ValidationError(file).None? && read.ReadDone? &&
      o.response == UploadResponse(true, Processed, read.dataUrl, file.name, file.name, file.size, file.fileType)
  {
    if ValidationError(file).Some? then Refused
    else match read
      case ReadFailed => ReadRejected
      case ReadDone(url) => Accepted(UploadResponse(true, Processed, url, file.name, file.name, file.size, file.fileType))
  }

  /** Exactly 5 MiB is accepted; "image/gif" is refused whatever its size;
      a file both too big and of the wrong type reports the type. */
  lemma ValidationBoundaries(name: string, size: int)
    ensures ValidationError(ImageFile(name, MaxSize, "image/png")).None?
    ensures ValidationError(ImageFile(name, MaxSize + 1, "image/png")) == Some(SizeError)
    ensures ValidationError(ImageFile(name, size, "image/gif")) == Some(TypeError)
  {
    assert ValidTypes[2] == "image/png";
  }

  /** The responses of the accepted results, in order. */
  function AcceptedResponses(os: seq<UploadOutcome>): (rs: seq<UploadResponse>)
    ensures |rs| <= |os|
    decreases |os|
  {
    if os == [] then []
    else
      var last := os[|os| - 1];
      AcceptedResponses(os[..|os| - 1]) + (if last.Accepted? then [last.response] else [])
  }

  /** A response is kept exactly when some upload was accepted with it. */
  lemma {:induction false} AcceptedMembership(os: seq<UploadOutcome>, r: UploadResponse)
    ensures r in AcceptedResponses(os) <==> Accepted(r) in os
    decreases |os|
  {
    if os != [] {
      var init := os[..|os| - 1];
      AcceptedMembership(init, r);
      assert os == init + [os[|os| - 1]];
    }
  }

  /** One picked file with its reader outcome. */
  datatype Pick = Pick(file: ImageFile, read: ReadResult)

  /** `Promise.all` over the uploads, then the `null` filter; the whole batch
      rejects when any read fails. */
  datatype BatchOutcome = BatchResolved(responses: seq<UploadResponse>) | BatchRejected

  function Outcomes(picks: seq<Pick>): (os: seq<UploadOutcome>)
    ensures |os| == |picks|
    ensures forall i :: 0 <= i < |picks| ==> os[i] == UploadResult(picks[i].file, picks[i].read)
  {
    seq(|picks|, i requires 0 <= i < |picks| => UploadResult(picks[i].file, picks[i].read))
  }

  class ImageUploadHook {
    var isUploading: bool
    var error: Option<string>

    constructor ()
      ensures !isUploading && error == None
    {
      isUploading := false;
      error := None;
    }

    /** `uploadImage(file)`: clears the error, records a validation
        message, and leaves `isUploading` false once the call returns. */
    method UploadImage(file: ImageFile, read: ReadResult) returns (o: UploadOutcome)
      modifies this`isUploading, this`error
      ensures o == UploadResult(file, read)
      ensures error == ValidationError(file)
      ensures !isUploading
    {
      isUploading := true;
      error := None;
      var e := ValidationError(file);
      if e.Some? {
        error := e;
        isUploading := false;
        return Refused;
      }
      isUploading := false;
      match read {
        case ReadFailed => o := ReadRejected;
        case ReadDone(url) =>
          o := Accepted(UploadResponse(true, Processed, url, file.name, file.name, file.size, file.fileType));
      }
    }

    /** `uploadMultiple(files)`: every upload starts (and validates) in file
        order; the batch resolves with exactly the non-null results in input
        order unless some read failed. */
    method UploadMultiple(picks: seq<Pick>) returns (b: BatchOutcome)
      modifies this`isUploading, this`error
      ensures (exists i :: 0 <= i < |picks| && Outcomes(picks)[i] == ReadRejected) ==> b == BatchRejected
      ensures (forall i :: 0 <= i < |picks| ==> Outcomes(picks)[i] != ReadRejected) ==>
        b == BatchResolved(AcceptedResponses(Outcomes(picks)))
      ensures picks != [] ==> error == ValidationError(picks[|picks| - 1].file) && !isUploading
      ensures picks == [] ==> error == old(error) && isUploading == old(isUploading)
    {
      var results: seq<UploadOutcome> := [];
      var rejected := false;
      for i := 0 to |picks|
        invariant results == Outcomes(picks[..i])
        invariant rejected <==> exists j :: 0 <= j < i && Outcomes(picks)[j] == ReadRejected
        invariant i > 0 ==> error == ValidationError(picks[i - 1].file) && !isUploading
        invariant i == 0 ==> error == old(error) && isUploading == old(isUploading)
      {
        var o := UploadImage(picks[i].file, picks[i].read);
        assert o == Outcomes(picks)[i];
        assert Outcomes(picks[..i + 1]) == Outcomes(picks[..i]) + [o];
        results := results + [o];
        rejected := rejected || o == ReadRejected;
      }
      assert picks[..|picks|] == picks;
      if rejected {
        b := BatchRejected;
      } else {
        b := BatchResolved(AcceptedResponses(results));
      }
    }
  }

  /** A batch of files that all pass validation and read resolves with one
      response per file, each naming its own file. */
  lemma {:induction false} AllValidAllKept(picks: seq<Pick>)
    requires forall i :: 0 <= i < |picks| ==> ValidationError(picks[i].file).None? && picks[i].read.ReadDone?
    ensures |AcceptedResponses(Outcomes(picks))| == |picks|
    ensures forall i :: 0 <= i < |picks| ==> AcceptedResponses(Outcomes(picks))[i].fileName == picks[i].file.name
    decreases |picks|
  {
    if picks != [] {
      var init := picks[..|picks| - 1];
      AllValidAllKept(init);
      assert Outcomes(picks)[..|picks| - 1] == Outcomes(init);
    }
  }
}
