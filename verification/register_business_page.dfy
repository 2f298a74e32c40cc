/** The business-registration form: the four upload slots, the guard before
    sending, and the list of schedule rows. */
module RegisterBusinessPage {
  import opened Wrappers
  import opened Js
  import opened Uploads

  /** The formats the registration form takes: documents as well as images. */
  const DocumentExtensions: set<string> := {"pdf", "jpg", "jpeg", "png"}

  /** A file the registration form accepts: a listed extension and at most 2 MiB. */
  predicate Accepted(f: UploadFile) {
    Extension(f.name) in DocumentExtensions && f.size <= MaxSize
  }

  /** The files the page holds for upload. */
  datatype RegisterFiles = RegisterFiles(logo: Option<UploadFile>, signature: Option<UploadFile>,
                                         cedula: Option<UploadFile>, carousel: seq<UploadFile>)

  datatype Slot = LogoSlot | SignatureSlot | CedulaSlot | CarouselSlot

  /** `clearFile` as written: the logo and signature slots clear themselves, and
      every other slot, the carousel included, clears the identity document. */
  function ClearFile(s: RegisterFiles, slot: Slot): (r: RegisterFiles)
    ensures slot == LogoSlot ==> r == s.(logo := None)
    ensures slot == SignatureSlot ==> r == s.(signature := None)
    ensures slot == CedulaSlot || slot == CarouselSlot ==> r == s.(cedula := None)
    ensures r.carousel == s.carousel
  {
    match slot
    case LogoSlot => s.(logo := None)
    case SignatureSlot => s.(signature := None)
    case _ => s.(cedula := None)
  }

  /** `onFileChange`. Nothing chosen changes nothing; nothing acceptable clears the
      slot; otherwise the first accepted file fills a single slot and the carousel is
      replaced by all accepted files. */
  function OnFileChange(s: RegisterFiles, files: seq<UploadFile>, slot: Slot): (r: RegisterFiles)
    ensures files == [] ==> r == s
    ensures files != [] && Keep(files, Accepted) == [] ==> r == ClearFile(s, slot)
    ensures files != [] && Keep(files, Accepted) != [] ==>
      var valid := Keep(files, Accepted);
      match slot
      case LogoSlot => r == s.(logo := Some(valid[0]))
      case SignatureSlot => r == s.(signature := Some(valid[0]))
      case CedulaSlot => r == s.(cedula := Some(valid[0]))
      case CarouselSlot => r == s.(carousel := valid)
  {
    if files == [] then s
    else
      var valid := Keep(files, Accepted);
      if valid == [] then ClearFile(s, slot)
      else match slot
        case LogoSlot => s.(logo := Some(valid[0]))
        case SignatureSlot => s.(signature := Some(valid[0]))
        case CedulaSlot => s.(cedula := Some(valid[0]))
        case CarouselSlot => s.(carousel := valid)
  }

  /** Every file the page holds came through the checks. */
  predicate AllAccepted(s: RegisterFiles) {
    && (s.logo.Some? ==> Accepted(s.logo.value))
    && (s.signature.Some? ==> Accepted(s.signature.value))
    && (s.cedula.Some? ==> Accepted(s.cedula.value))
    && (forall i :: 0 <= i < |s.carousel| ==> Accepted(s.carousel[i]))
  }

  /** Choosing files never lets an unacceptable file in. */
  lemma OnFileChangeKeepsAccepted(s: RegisterFiles, files: seq<UploadFile>, slot: Slot)
    requires AllAccepted(s)
    ensures AllAccepted(OnFileChange(s, files, slot))
  {
  }

  /** A carousel choice with nothing acceptable keeps the carousel and drops the
      identity document, so the form can no longer be sent until it is chosen again. */
  lemma RejectedCarouselDropsCedula(s: RegisterFiles, files: seq<UploadFile>)
    requires files != [] && forall i :: 0 <= i < |files| ==> !Accepted(files[i])
    ensures OnFileChange(s, files, CarouselSlot).carousel == s.carousel
    ensures OnFileChange(s, files, CarouselSlot).cedula.None?
    ensures !CanSubmit(true, OnFileChange(s, files, CarouselSlot))
  {
  }

  /** `validateFiles` with the form check of `onSubmit`: the identity document is required. */
  predicate CanSubmit(formValid: bool, s: RegisterFiles) {
    formValid && s.cedula.Some?
  }

  /** A schedule row of the form, as the text typed into it. */
  type ScheduleRow = string

  /** `addSchedule`: one more, empty, row at the end. */
  function AddSchedule(rows: seq<ScheduleRow>): (r: seq<ScheduleRow>)
    ensures |r| == |rows| + 1 && r[..|rows|] == rows && r[|rows|] == ""
  {
    rows + [""]
  }

  /** `removeSchedule`: removes the row at `index` when there is one, and leaves
      the rows alone for an index past the end. */
  function RemoveSchedule(rows: seq<ScheduleRow>, index: int): (r: seq<ScheduleRow>)
    ensures 0 <= index < |rows| ==> |r| == |rows| - 1 && r == rows[..index] + rows[index + 1..]
    ensures index >= |rows| ==> r == rows
  {
    SpliceOne(rows, index)
  }

  /** Removing the row just added gives the rows back. */
  lemma AddThenRemove(rows: seq<ScheduleRow>)
    ensures RemoveSchedule(AddSchedule(rows), |rows|) == rows
  {
    assert AddSchedule(rows)[..|rows|] == rows;
  }
}
