/** The edit-business form: image uploads for the logo and the carousel, the
    phone numbers composed on submit, and the validation message of a field. */
module EditBusinessPage {
  import opened Wrappers
  import opened Js
  import opened Text
  import opened Uploads

  /** The image formats the edit form takes. */
  const ImageExtensions: set<string> := {"jpg", "jpeg", "png"}

  /** The most photos the carousel may hold. */
  const MaxCarousel: nat := 5

  /** A file the edit form accepts: an image extension, at most 2 MiB, and not
      reported too small; a dimension check that throws lets the file through. */
  predicate Accepted(f: UploadFile) {
    Extension(f.name) in ImageExtensions && f.size <= MaxSize && f.dimensions != TooSmall
  }

  /** The files the page holds for upload. */
  datatype EditUploads = EditUploads(logo: Option<UploadFile>, carousel: seq<UploadFile>)

  datatype Target = LogoTarget | CarouselTarget

  /** `onFileChange`. The accepted files, in order, go to the target: the first one
      becomes the logo; the carousel gets all of them appended, unless that would
      take it past five photos, in which case nothing changes. */
  function OnFileChange(s: EditUploads, files: seq<UploadFile>, target: Target): (r: EditUploads)
    ensures var valid := Keep(files, Accepted);
      && (valid == [] ==> r == s)
      && (valid != [] && target == LogoTarget ==> r == s.(logo := Some(valid[0])))
      && (valid != [] && target == CarouselTarget && |s.carousel| + |valid| > MaxCarousel ==> r == s)
      && (valid != [] && target == CarouselTarget && |s.carousel| + |valid| <= MaxCarousel ==>
            r == s.(carousel := s.carousel + valid))
    ensures r.logo != s.logo ==> r.logo.Some? && Accepted(r.logo.value) && r.logo.value in files
    ensures forall i :: 0 <= i < |r.carousel| ==> r.carousel[i] in s.carousel || (Accepted(r.carousel[i]) && r.carousel[i] in files)
  {
    var valid := Keep(files, Accepted);
    if valid == [] then s
    else match target
      case LogoTarget => s.(logo := Some(valid[0]))
      case CarouselTarget =>
        if |s.carousel| + |valid| > MaxCarousel then s
        else s.(carousel := s.carousel + valid)
  }

  /** A carousel within the limit stays within it, and its earlier photos stay in place. */
  lemma CarouselBounded(s: EditUploads, files: seq<UploadFile>, target: Target)
    requires |s.carousel| <= MaxCarousel
    ensures |OnFileChange(s, files, target).carousel| <= MaxCarousel
    ensures OnFileChange(s, files, target).carousel[..|s.carousel|] == s.carousel
  {
  }

  /** A file with an accepted name, size and picture is accepted whatever the case of its extension. */
  lemma AcceptedPicture(base: string, ext: string, size: nat, dims: DimensionCheck)
    requires '.' !in ext && ToLower(ext) in ImageExtensions
    requires size <= MaxSize && dims != TooSmall
    ensures Accepted(UploadFile(base + "." + ext, size, dims))
  {
    ExtensionOfDotted(base, ext);
  }

  /** `removeCarrouselPhoto`: `splice(index, 1)` on the carousel. */
  function RemoveCarouselPhoto(s: EditUploads, index: int): (r: EditUploads)
    ensures r.logo == s.logo
    ensures 0 <= index < |s.carousel| ==> r.carousel == s.carousel[..index] + s.carousel[index + 1..]
    ensures index >= |s.carousel| ==> r.carousel == s.carousel
  {
    s.(carousel := SpliceOne(s.carousel, index))
  }

  /** Removing a photo never takes the carousel past the limit. */
  lemma RemoveKeepsBound(s: EditUploads, index: int)
    requires |s.carousel| <= MaxCarousel
    ensures |RemoveCarouselPhoto(s, index).carousel| <= |s.carousel|
  {
  }

  /** `removeFile`: only the logo can be removed this way. */
  function RemoveFile(s: EditUploads, target: Target): (r: EditUploads)
    ensures target == LogoTarget ==> r == s.(logo := None)
    ensures target == CarouselTarget ==> r == s
  {
    if target == LogoTarget then s.(logo := None) else s
  }

  /** The phone fields of the form. */
  datatype PhoneFields = PhoneFields(countryCodePhone: string, phone: string,
                                     countryCode: string, whatsappNumber: string, acceptsWhatsappOrders: bool)

  /** The numbers sent with the business. */
  datatype SentNumbers = SentNumbers(phone: string, whatsappNumber: string)

  /** `onSubmit`: an invalid form sends nothing; otherwise the phone carries its
      country code, and WhatsApp does too when orders are accepted and is empty otherwise. */
  function SubmitNumbers(formValid: bool, f: PhoneFields): (r: Option<SentNumbers>)
    ensures r.Some? <==> formValid
    ensures r.Some? ==> r.value.phone == f.countryCodePhone + f.phone
    ensures r.Some? && f.acceptsWhatsappOrders ==> r.value.whatsappNumber == f.countryCode + f.whatsappNumber
    ensures r.Some? && !f.acceptsWhatsappOrders ==> r.value.whatsappNumber == ""
  {
    if !formValid then None
    else Some(SentNumbers(f.countryCodePhone + f.phone,
                          if f.acceptsWhatsappOrders then f.countryCode + f.whatsappNumber else ""))
  }

  /** One entry of a control's `errors` object: its key and, for `maxlength`, `min`
      and `max`, the number the message quotes (None when the entry lacks it). */
  datatype ValidationError = ValidationError(key: string, number: Option<int>)

  /** The quoted number as a template literal prints it. */
  function ShowNumber(n: Option<int>): string {
    if n.Some? then IntToString(n.value) else "undefined"
  }

  /** The generic message of an error key, if it has one. */
  function GenericMessage(e: ValidationError): (r: Option<string>)
    ensures r.Some? <==> e.key in {"required", "maxlength", "email", "pattern", "min", "max"}
    ensures r.Some? ==> r.value != ""
  {
    match e.key
    case "required" => Some("Este campo es obligatorio")
    case "maxlength" => Some("Máximo " + ShowNumber(e.number) + " caracteres")
    case "email" => Some("Formato de correo inválido")
    case "pattern" => Some("Formato inválido")
    case "min" => Some("Valor mínimo: " + ShowNumber(e.number))
    case "max" => Some("Valor máximo: " + ShowNumber(e.number))
    case _ => None
  }

  /** The first error, in key order, that has a generic message. */
  function FirstKnown(errors: seq<ValidationError>): (r: Option<nat>)
    ensures r.Some? ==> (r.value < |errors| && GenericMessage(errors[r.value]).Some?
                         && forall j :: 0 <= j < r.value ==> GenericMessage(errors[j]).None?)
    ensures r.None? ==> forall j :: 0 <= j < |errors| ==> GenericMessage(errors[j]).None?
  {
    if errors == [] then None
    else if GenericMessage(errors[0]).Some? then Some(0)
    else match FirstKnown(errors[1..])
      case Some(k) => Some(k + 1)
      case None => None
  }

  /** `getErrorMessage`: nothing for an unknown control or one without errors; the
      message of the first error key that has one; "Campo inválido" when none has. */
  function GetErrorMessage(control: Option<Option<seq<ValidationError>>>): (r: string)
    ensures control.None? || control.value.None? ==> r == ""
    ensures control.Some? && control.value.Some? ==> r != ""
    ensures control.Some? && control.value.Some? && FirstKnown(control.value.value).None? ==> r == "Campo inválido"
    ensures control.Some? && control.value.Some? && FirstKnown(control.value.value).Some? ==>
      r == GenericMessage(control.value.value[FirstKnown(control.value.value).value]).value
  {
    if control.None? || control.value.None? then ""
    else match FirstKnown(control.value.value)
      case Some(k) => GenericMessage(control.value.value[k]).value
      case None => "Campo inválido"
  }
}
