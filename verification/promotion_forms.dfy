/** The create and edit promotion dialogs: the image check, the validation before
    closing, and the promotion handed back to the list. */
module PromotionForms {
  import opened Wrappers

  /** A chosen image: its size in bytes and its MIME type. */
  datatype PromoFile = PromoFile(size: nat, mimeType: string)

  /** A promotion as the dialogs hold it. `bussinessId` (sic) is the extra key the
      edit dialog adds to its copy. Dates are the text of the date inputs. */
  datatype Promotion = Promotion(
    id: Option<int>,
    businessId: int,
    tipoPromocion: string,
    tituloPromocion: string,
    fechaPromoInicio: string,
    fechaPromoFin: string,
    condiciones: string,
    businessImageUrl: Option<string>,
    bussinessId: Option<int>)

  /** `new Date(text)` read as an instant in milliseconds, None for an invalid date. */
  type DateParser = string -> Option<int>

  const MaxImageSize: nat := 2 * 1024 * 1024
  const ImageTypes: set<string> := {"image/jpeg", "image/png", "image/jpg"}

  const TooLarge := "La imagen no debe superar los 2MB"
  const WrongType := "Solo se permiten imágenes JPG o PNG"
  const ImageRequired := "Debes seleccionar una imagen para la promoción"
  const FieldsRequired := "Todos los campos son obligatorios"
  const DatesOutOfOrder := "La fecha de fin debe ser posterior a la fecha de inicio"

  /** `onFileSelected` of both dialogs: the selected image afterwards and the alert shown.
      The size is checked before the type. */
  function OnFileSelected(selected: Option<PromoFile>, chosen: Option<PromoFile>): (r: (Option<PromoFile>, Option<string>))
    ensures chosen.None? ==> r == (selected, None)
    ensures chosen.Some? && chosen.value.size > MaxImageSize ==> r == (selected, Some(TooLarge))
    ensures chosen.Some? && chosen.value.size <= MaxImageSize && chosen.value.mimeType !in ImageTypes ==>
      r == (selected, Some(WrongType))
    ensures r.0 != selected ==> r.0 == chosen && r.1.None?
    ensures r.0.Some? && r.0 != selected ==> r.0.value.size <= MaxImageSize && r.0.value.mimeType in ImageTypes
  {
    match chosen
    case None => (selected, None)
    case Some(f) =>
      if f.size > MaxImageSize then (selected, Some(TooLarge))
      else if f.mimeType !in ImageTypes then (selected, Some(WrongType))
      else (chosen, None)
  }

  /** An image taken by the dialog passed both checks, and any image passing both is taken. */
  lemma FileSelectedIff(selected: Option<PromoFile>, f: PromoFile)
    ensures OnFileSelected(selected, Some(f)).0 == Some(f) <==>
      (f.size <= MaxImageSize && f.mimeType in ImageTypes) || selected == Some(f)
    ensures OnFileSelected(selected, Some(f)).1.None? <==> f.size <= MaxImageSize && f.mimeType in ImageTypes
  {
  }

  /** Each of the four required texts is filled. */
  predicate FieldsFilled(p: Promotion) {
    p.tituloPromocion != "" && p.fechaPromoInicio != "" && p.fechaPromoFin != "" && p.condiciones != ""
  }

  /** `new Date(fin) <= new Date(inicio)`: false whenever either date is invalid. */
  predicate EndNotAfterStart(parse: DateParser, p: Promotion) {
    var start := parse(p.fechaPromoInicio);
    var end := parse(p.fechaPromoFin);
    start.Some? && end.Some? && end.value <= start.value
  }

  /** What "confirm" leads to: an alert (the dialog stays open), or the dialog
      closing with role `confirm`, the promotion and the image. */
  datatype Confirmed = Alert(message: string) | Dismiss(promocion: Promotion, archivo: Option<PromoFile>)

  /** The checks both dialogs share: required texts first, then the date order. */
  function Validate(parse: DateParser, p: Promotion): (r: Option<string>)
    ensures r.None? <==> FieldsFilled(p) && !EndNotAfterStart(parse, p)
    ensures !FieldsFilled(p) ==> r == Some(FieldsRequired)
    ensures FieldsFilled(p) && EndNotAfterStart(parse, p) ==> r == Some(DatesOutOfOrder)
  {
    if !FieldsFilled(p) then Some(FieldsRequired)
    else if EndNotAfterStart(parse, p) then Some(DatesOutOfOrder)
    else None
  }

  /** The promotion the create dialog starts with: a percentage discount, starting on `today`. */
  function NewPromotion(businessId: int, today: string): Promotion {
    Promotion(None, businessId, "DESCUENTO_PORCENTAJE", "", today, "", "", None, None)
  }

  /** `confirm` of the create dialog: an image is required before anything else. */
  function ConfirmCreate(parse: DateParser, form: Promotion, businessId: int, file: Option<PromoFile>): (r: Confirmed)
    ensures file.None? ==> r == Alert(ImageRequired)
    ensures file.Some? && !FieldsFilled(form) ==> r == Alert(FieldsRequired)
    ensures file.Some? && FieldsFilled(form) && EndNotAfterStart(parse, form) ==> r == Alert(DatesOutOfOrder)
    ensures r.Dismiss? <==> file.Some? && FieldsFilled(form) && !EndNotAfterStart(parse, form)
    ensures r.Dismiss? ==> r.promocion == form.(businessId := businessId) && r.archivo == file
  {
    if file.None? then Alert(ImageRequired)
    else match Validate(parse, form)
      case Some(m) => Alert(m)
      case None => Dismiss(form.(businessId := businessId), file)
  }

  /** `ngOnInit` of the edit dialog: the copy carries the misspelled `bussinessId`
      key beside `businessId`; the preview shows the current image or nothing. */
  function StartEdit(p: Promotion): (r: (Promotion, string))
    ensures r.0.bussinessId == Some(p.businessId)
    ensures r.0.(bussinessId := p.bussinessId) == p
    ensures p.businessImageUrl.Some? ==> r.1 == p.businessImageUrl.value
    ensures p.businessImageUrl.None? ==> r.1 == ""
  {
    (p.(bussinessId := Some(p.businessId)), p.businessImageUrl.GetOr(""))
  }

  /** `confirm` of the edit dialog: no image is required, and the business id comes
      from the promotion being edited. */
  function ConfirmEdit(parse: DateParser, original: Promotion, edited: Promotion, file: Option<PromoFile>): (r: Confirmed)
    ensures !FieldsFilled(edited) ==> r == Alert(FieldsRequired)
    ensures FieldsFilled(edited) && EndNotAfterStart(parse, edited) ==> r == Alert(DatesOutOfOrder)
    ensures r.Dismiss? <==> FieldsFilled(edited) && !EndNotAfterStart(parse, edited)
    ensures r.Dismiss? ==> r.promocion == edited.(businessId := original.businessId) && r.archivo == file
  {
    match Validate(parse, edited)
    case Some(m) => Alert(m)
    case None => Dismiss(edited.(businessId := original.businessId), file)
  }

  /** With an image chosen, both dialogs accept and reject the same promotions, and
      hand back the same record for the same business. */
  lemma DialogsAgree(parse: DateParser, original: Promotion, form: Promotion, file: PromoFile)
    ensures ConfirmCreate(parse, form, original.businessId, Some(file)) == ConfirmEdit(parse, original, form, Some(file))
  {
  }

  /** A freshly opened create dialog cannot be confirmed: the title, end date and
      conditions are still empty (and no image is chosen). */
  lemma NewPromotionNeedsInput(parse: DateParser, businessId: int, today: string, file: Option<PromoFile>)
    ensures ConfirmCreate(parse, NewPromotion(businessId, today), businessId, file).Alert?
  {
  }
}
