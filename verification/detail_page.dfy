/** The owner's business detail page: the photo carousel, the edit payload and
    its optimistic merge, the outbound links, and the edit permission. */
module DetailPage {
  import opened Wrappers
  import opened Js
  import opened Text
  import opened Http
  import opened PrivateDetailService

  // -------------------------------------------------------------- carousel

  /** `nextImage`: one step forward, wrapping around; nothing happens without photos. */
  function NextImage(i: int, n: nat): (r: int)
    ensures n == 0 ==> r == i
    ensures n > 0 && 0 <= i < n ==> 0 <= r < n
    ensures n > 0 && 0 <= i < n - 1 ==> r == i + 1
    ensures n > 0 && i == n - 1 ==> r == 0
  {
    if n > 0 then Rem(i + 1, n) else i
  }

  /** `prevImage`: one step back, from the first photo to the last; nothing happens without photos. */
  function PrevImage(i: int, n: nat): (r: int)
    ensures n == 0 ==> r == i
    ensures n > 0 && 0 <= i < n ==> 0 <= r < n
  {
    if n > 0 then (if i == 0 then n - 1 else i - 1) else i
  }

  /** On a valid index, going back undoes going forward and vice versa. */
  lemma PrevUndoesNext(i: int, n: nat)
    requires 0 <= i < n
    ensures PrevImage(NextImage(i, n), n) == i
    ensures NextImage(PrevImage(i, n), n) == i
  {
  }

  /** `selectImage`: jumps to `index` only when it names an existing photo. */
  function SelectImage(i: int, index: int, n: nat): (r: int)
    ensures 0 <= index < n ==> r == index
    ensures !(0 <= index < n) ==> r == i
  {
    if 0 <= index < n then index else i
  }

  const FallbackImage := "assets/icon/ibarra.jpg"

  /** `currentImage`: the photo at the index when it exists and is not empty, otherwise the fallback. */
  function CurrentImage(urls: seq<string>, i: int): (r: string)
    ensures 0 <= i < |urls| && urls[i] != "" ==> r == urls[i]
    ensures !(0 <= i < |urls| && urls[i] != "") ==> r == FallbackImage
    ensures r != ""
  {
    if 0 <= i < |urls| && urls[i] != "" then urls[i] else FallbackImage
  }

  /** With the URLs the service extracts, a valid index always shows a real photo. */
  lemma CurrentImageOfExtracted(photos: Option<seq<Photo>>, i: int)
    requires 0 <= i < |GetPhotoUrls(photos)|
    ensures CurrentImage(GetPhotoUrls(photos), i) == GetPhotoUrls(photos)[i]
  {
    var urls := GetPhotoUrls(photos);
    assert Trim(urls[i]) != "";
  }

  // ---------------------------------------------------------- edit payload

  /** `UpdateBusinessRequest`: None is a key left out of the payload. The
      coordinates key can also carry `null`, so it is a Field. */
  datatype UpdateRequest = UpdateRequest(
    commercialName: Option<string>,
    description: Option<string>,
    facebook: Option<string>,
    instagram: Option<string>,
    tiktok: Option<string>,
    website: Option<string>,
    email: Option<string>,
    whatsappNumber: Option<string>,
    address: Option<string>,
    acceptsWhatsappOrders: Option<bool>,
    googleMapsCoordinates: Field<string>)

  /** A text is truthy when present and not empty. */
  predicate Filled(f: Field<string>) {
    f.Present? && f.value != ""
  }

  /** The commercial name check: present, not empty, and not only whitespace. */
  predicate NameGiven(editable: Business) {
    Filled(editable.commercialName) && Trim(editable.commercialName.value) != ""
  }

  /** A key that is neither `undefined` nor `null` is sent trimmed. */
  function TrimmedKey(f: Field<string>): (r: Option<string>)
    ensures r.Some? <==> f.Present?
    ensures r.Some? ==> r.value == Trim(f.value) && Trimmed(r.value)
  {
    if f.Present? then Some(Trim(f.value)) else None
  }

  /** `Boolean(x)` for a defined key. */
  function BooleanKey(f: Field<bool>): (r: Option<bool>)
    ensures r.Some? <==> !f.Absent?
    ensures r == Some(true) <==> f == Present(true)
  {
    match f
    case Absent => None
    case Null => Some(false)
    case Present(b) => Some(b)
  }

  /** The payload built from the edited copy against the loaded record: the name
      and description whenever defined, each other text trimmed when it is neither
      `undefined` nor `null`, the flag as a boolean whenever defined, and the
      coordinates only when they changed. */
  function BuildPayload(editable: Business, loaded: Business): (p: UpdateRequest)
    ensures p.commercialName.Some? <==> !editable.commercialName.Absent?
    ensures editable.commercialName.Present? ==> p.commercialName == Some(Trim(editable.commercialName.value))
    ensures p.description.Some? <==> !editable.description.Absent?
    ensures Filled(editable.description) ==> p.description == Some(Trim(editable.description.value))
    ensures !editable.description.Absent? && !Filled(editable.description) ==> p.description == Some("")
    ensures p.facebook == TrimmedKey(editable.facebook) && p.instagram == TrimmedKey(editable.instagram)
    ensures p.tiktok == TrimmedKey(editable.tiktok) && p.website == TrimmedKey(editable.website)
    ensures p.email == TrimmedKey(editable.email) && p.whatsappNumber == TrimmedKey(editable.whatsappNumber)
    ensures p.address == TrimmedKey(editable.address)
    ensures p.acceptsWhatsappOrders == BooleanKey(editable.acceptsWhatsappOrders)
    ensures p.googleMapsCoordinates.Absent? <==>
      (editable.googleMapsCoordinates.Absent? || editable.googleMapsCoordinates == loaded.googleMapsCoordinates)
    ensures !p.googleMapsCoordinates.Absent? ==> p.googleMapsCoordinates == editable.googleMapsCoordinates
  {
    UpdateRequest(
      commercialName := match editable.commercialName
        case Absent => None
        case Null => Some("")  // unreachable: a null name is refused first
        case Present(s) => Some(Trim(s)),
      description := if editable.description.Absent? then None
        else if Filled(editable.description) then Some(Trim(editable.description.value))
        else Some(""),
      facebook := TrimmedKey(editable.facebook),
      instagram := TrimmedKey(editable.instagram),
      tiktok := TrimmedKey(editable.tiktok),
      website := TrimmedKey(editable.website),
      email := TrimmedKey(editable.email),
      whatsappNumber := TrimmedKey(editable.whatsappNumber),
      address := TrimmedKey(editable.address),
      acceptsWhatsappOrders := BooleanKey(editable.acceptsWhatsappOrders),
      googleMapsCoordinates :=
        if !editable.googleMapsCoordinates.Absent? && editable.googleMapsCoordinates != loaded.googleMapsCoordinates
        then editable.googleMapsCoordinates else Absent)
  }

  /** `Object.keys(updateData).length === 0`. */
  predicate IsEmptyPayload(p: UpdateRequest) {
    && p.commercialName.None? && p.description.None? && p.facebook.None? && p.instagram.None?
    && p.tiktok.None? && p.website.None? && p.email.None? && p.whatsappNumber.None?
    && p.address.None? && p.acceptsWhatsappOrders.None? && p.googleMapsCoordinates.Absent?
  }

  /** Once the name check passes the payload carries the trimmed, non-blank name,
      so the "no changes" branch can never be taken. */
  lemma PayloadCarriesName(editable: Business, loaded: Business)
    requires NameGiven(editable)
    ensures BuildPayload(editable, loaded).commercialName == Some(Trim(editable.commercialName.value))
    ensures BuildPayload(editable, loaded).commercialName.value != ""
    ensures !IsEmptyPayload(BuildPayload(editable, loaded))
  {
  }

  /** Every text sent is free of surrounding whitespace. */
  lemma PayloadTextsTrimmed(editable: Business, loaded: Business)
    ensures var p := BuildPayload(editable, loaded);
      && (p.commercialName.Some? ==> Trimmed(p.commercialName.value))
      && (p.description.Some? ==> Trimmed(p.description.value))
      && (p.facebook.Some? ==> Trimmed(p.facebook.value))
      && (p.instagram.Some? ==> Trimmed(p.instagram.value))
      && (p.tiktok.Some? ==> Trimmed(p.tiktok.value))
      && (p.website.Some? ==> Trimmed(p.website.value))
      && (p.email.Some? ==> Trimmed(p.email.value))
      && (p.whatsappNumber.Some? ==> Trimmed(p.whatsappNumber.value))
      && (p.address.Some? ==> Trimmed(p.address.value))
  {
  }

  /** One key of `Object.assign`: a key the payload carries replaces the record's
      value, and a key it leaves out keeps it. */
  function Overwrite<T>(current: Field<T>, key: Option<T>): (r: Field<T>)
    ensures key.Some? ==> r == Present(key.value)
    ensures key.None? ==> r == current
  {
    if key.Some? then Present(key.value) else current
  }

  /** `Object.assign(business, updateData)`: every key of the payload replaces the
      record's value, and nothing else changes. */
  function Merge(b: Business, p: UpdateRequest): (r: Business)
    ensures r.id == b.id && r.validationStatus == b.validationStatus
    ensures r.photos == b.photos && r.schedules == b.schedules
    ensures r.phone == b.phone && r.deliveryService == b.deliveryService && r.salePlace == b.salePlace
    ensures p.commercialName.Some? ==> r.commercialName == Present(p.commercialName.value)
    ensures p.commercialName.None? ==> r.commercialName == b.commercialName
    ensures r.description == Overwrite(b.description, p.description)
    ensures r.facebook == Overwrite(b.facebook, p.facebook) && r.instagram == Overwrite(b.instagram, p.instagram)
    ensures r.tiktok == Overwrite(b.tiktok, p.tiktok) && r.website == Overwrite(b.website, p.website)
    ensures r.email == Overwrite(b.email, p.email) && r.whatsappNumber == Overwrite(b.whatsappNumber, p.whatsappNumber)
    ensures r.address == Overwrite(b.address, p.address)
    ensures r.acceptsWhatsappOrders == Overwrite(b.acceptsWhatsappOrders, p.acceptsWhatsappOrders)
    ensures p.googleMapsCoordinates.Absent? ==> r.googleMapsCoordinates == b.googleMapsCoordinates
    ensures !p.googleMapsCoordinates.Absent? ==> r.googleMapsCoordinates == p.googleMapsCoordinates
  {
    b.(commercialName := Overwrite(b.commercialName, p.commercialName),
       description := Overwrite(b.description, p.description),
       facebook := Overwrite(b.facebook, p.facebook),
       instagram := Overwrite(b.instagram, p.instagram),
       tiktok := Overwrite(b.tiktok, p.tiktok),
       website := Overwrite(b.website, p.website),
       email := Overwrite(b.email, p.email),
       whatsappNumber := Overwrite(b.whatsappNumber, p.whatsappNumber),
       address := Overwrite(b.address, p.address),
       acceptsWhatsappOrders := Overwrite(b.acceptsWhatsappOrders, p.acceptsWhatsappOrders),
       googleMapsCoordinates := if p.googleMapsCoordinates.Absent? then b.googleMapsCoordinates
                                else p.googleMapsCoordinates)
  }

  /** Applying the same payload twice is applying it once. */
  lemma MergeIdempotent(b: Business, p: UpdateRequest)
    ensures Merge(Merge(b, p), p) == Merge(b, p)
  {
  }

  /** A trimmed key written into a record is sent back unchanged by the next edit. */
  lemma RebuildKey(current: Field<string>, f: Field<string>)
    ensures TrimmedKey(f).Some? ==> TrimmedKey(Overwrite(current, TrimmedKey(f))) == TrimmedKey(f)
  {
    if f.Present? {
      TrimIdempotent(f.value);
    }
  }

  /** The three social handles survive a merge and a rebuild unchanged. */
  lemma RebuildSocial(editable: Business, loaded: Business)
    ensures var p := BuildPayload(editable, loaded);
      var m := Merge(loaded, p);
      var q := BuildPayload(m, m);
      && (p.facebook.Some? ==> q.facebook == p.facebook)
      && (p.instagram.Some? ==> q.instagram == p.instagram)
      && (p.tiktok.Some? ==> q.tiktok == p.tiktok)
  {
    RebuildKey(loaded.facebook, editable.facebook);
    RebuildKey(loaded.instagram, editable.instagram);
    RebuildKey(loaded.tiktok, editable.tiktok);
  }

  /** The website and contact texts survive a merge and a rebuild unchanged. */
  lemma RebuildContact(editable: Business, loaded: Business)
    ensures var p := BuildPayload(editable, loaded);
      var m := Merge(loaded, p);
      var q := BuildPayload(m, m);
      && (p.website.Some? ==> q.website == p.website)
      && (p.email.Some? ==> q.email == p.email)
      && (p.whatsappNumber.Some? ==> q.whatsappNumber == p.whatsappNumber)
      && (p.address.Some? ==> q.address == p.address)
  {
    RebuildKey(loaded.website, editable.website);
    RebuildKey(loaded.email, editable.email);
    RebuildKey(loaded.whatsappNumber, editable.whatsappNumber);
    RebuildKey(loaded.address, editable.address);
  }

  /** After the merge, the record is a fixed point of the edit: editing the merged
      record without touching it sends every key of the first payload back with
      the same value, and no coordinates. */
  lemma MergeThenRebuild(editable: Business, loaded: Business)
    requires NameGiven(editable)
    ensures var p := BuildPayload(editable, loaded);
      var m := Merge(loaded, p);
      var q := BuildPayload(m, m);
      && q.googleMapsCoordinates.Absent?
      && q.commercialName == p.commercialName == Some(Trim(editable.commercialName.value))
      && (p.description.Some? ==> q.description == p.description)
      && (p.acceptsWhatsappOrders.Some? ==> q.acceptsWhatsappOrders == p.acceptsWhatsappOrders)
    ensures var p := BuildPayload(editable, loaded);
      var q := BuildPayload(Merge(loaded, p), Merge(loaded, p));
      && (p.facebook.Some? ==> q.facebook == p.facebook)
      && (p.instagram.Some? ==> q.instagram == p.instagram)
      && (p.tiktok.Some? ==> q.tiktok == p.tiktok)
      && (p.website.Some? ==> q.website == p.website)
      && (p.email.Some? ==> q.email == p.email)
      && (p.whatsappNumber.Some? ==> q.whatsappNumber == p.whatsappNumber)
      && (p.address.Some? ==> q.address == p.address)
  {
    TrimIdempotent(editable.commercialName.value);
    if Filled(editable.description) {
      TrimIdempotent(editable.description.value);
    }
    RebuildSocial(editable, loaded);
    RebuildContact(editable, loaded);
  }

  // ------------------------------------------------------------ save flow

  /** How the write ended: accepted, refused by the server, or thrown before any
      request because no token was stored. */
  datatype WriteOutcome = Written | WriteRejected(error: HttpError) | NoTokenThrown

  /** A failed save as the page reports it: the toast text and whether it logs out. */
  datatype SaveFailure = SaveFailure(message: string, logsOut: bool)

  /** The page's own error mapping, over the `status` and `message` of whatever it caught. */
  function PageSaveError(status: Option<int>, message: string): (r: SaveFailure)
    ensures r.logsOut <==> status == Some(401)
    ensures status == Some(400) ==> r.message == "Datos inválidos. Verifica que todos los campos estén correctos."
    ensures status == Some(401) ==> r.message == "No tienes autorización. Por favor, inicia sesión nuevamente."
    ensures status == Some(403) ==> r.message == "No tienes permisos para editar este negocio."
    ensures status == Some(404) ==> r.message == "El negocio no fue encontrado."
    ensures status.None? && message != "" ==> r.message == message
    ensures status.None? && message == "" ==> r.message == "Error al actualizar el negocio"
  {
    if status == Some(400) then SaveFailure("Datos inválidos. Verifica que todos los campos estén correctos.", false)
    else if status == Some(401) then SaveFailure("No tienes autorización. Por favor, inicia sesión nuevamente.", true)
    else if status == Some(403) then SaveFailure("No tienes permisos para editar este negocio.", false)
    else if status == Some(404) then SaveFailure("El negocio no fue encontrado.", false)
    else if message != "" then SaveFailure(message, false)
    else SaveFailure("Error al actualizar el negocio", false)
  }

  /** The save error as the code computes it: the service has already replaced the
      response by a plain error that has only a message, so no status reaches the
      page's mapping. */
  function SaveErrorAsWritten(e: HttpError): (r: SaveFailure)
    ensures r == SaveFailure(HandleError(e).message, false)
  {
    PageSaveError(None, HandleError(e).message)
  }

  /** As written, a 401 on save never logs the user out and never shows the page's own texts. */
  lemma SaveErrorAsWrittenIgnoresStatus(e: HttpError)
    ensures !SaveErrorAsWritten(e).logsOut
    ensures e.status == 401 && !e.body.ClientEvent? ==>
      SaveErrorAsWritten(e).message == "No autorizado. Por favor, inicia sesión nuevamente."
  {
  }

  /** The save error the page's mapping was written for: it sees the response's status. */
  function SaveErrorIntended(e: HttpError): (r: SaveFailure)
    ensures r.logsOut <==> e.status == 401
    ensures e.status == 400 ==> r.message == "Datos inválidos. Verifica que todos los campos estén correctos."
    ensures e.status == 401 ==> r.message == "No tienes autorización. Por favor, inicia sesión nuevamente."
    ensures e.status == 403 ==> r.message == "No tienes permisos para editar este negocio."
    ensures e.status == 404 ==> r.message == "El negocio no fue encontrado."
    ensures e.status !in {400, 401, 403, 404} && e.message != "" ==> r.message == e.message
    ensures e.status !in {400, 401, 403, 404} && e.message == "" ==> r.message == "Error al actualizar el negocio"
  {
    PageSaveError(Some(e.status), e.message)
  }

  /** A concrete 401 that shows the two disagree. */
  lemma SaveErrorCounterexample()
    ensures var e := HttpError(401, "Unauthorized", NoBody);
      !SaveErrorAsWritten(e).logsOut && SaveErrorIntended(e).logsOut
  {
    var e := HttpError(401, "Unauthorized", NoBody);
    SaveErrorAsWrittenIgnoresStatus(e);
  }

  /** What pressing "save" leads to. */
  datatype SaveOutcome =
    | Refused(message: string)
    | NothingToSave
    | Saved(payload: UpdateRequest, business: Business)
    | SaveFailed(payload: UpdateRequest, failure: SaveFailure)

  /** `saveBusinessChanges`. Without a loaded record or with id 0 nothing is sent;
      a blank name is refused; otherwise the payload is written, and on success
      merged into the loaded record. A refused write reaches the page as the
      service's plain error, so its message is shown and nobody is logged out. */
  function SaveBusinessChanges(business: Option<Business>, businessId: int, editable: Business, write: WriteOutcome)
    : (r: SaveOutcome)
    ensures business.None? || businessId == 0 ==> r == Refused("Error: Información del negocio no disponible")
    ensures business.Some? && businessId != 0 && !NameGiven(editable) ==> r == Refused("El nombre comercial es obligatorio")
    ensures !r.NothingToSave?
    ensures r.Saved? ==> write == Written && r.business == Merge(business.value, r.payload)
    ensures r.Saved? || r.SaveFailed? ==>
      business.Some? && NameGiven(editable) && r.payload == BuildPayload(editable, business.value)
      && r.payload.commercialName == Some(Trim(editable.commercialName.value))
    ensures business.Some? && businessId != 0 && NameGiven(editable) ==>
      (r.Saved? <==> write.Written?) && (r.SaveFailed? <==> !write.Written?)
    ensures r.SaveFailed? ==> !r.failure.logsOut
    ensures r.SaveFailed? && write.WriteRejected? ==> r.failure == SaveErrorAsWritten(write.error)
    ensures r.SaveFailed? && write.WriteRejected? ==> r.failure.message == HandleError(write.error).message
    ensures r.SaveFailed? && write.NoTokenThrown? ==> r.failure.message == NoToken
  {
    if business.None? || businessId == 0 then Refused("Error: Información del negocio no disponible")
    else if !NameGiven(editable) then Refused("El nombre comercial es obligatorio")
    else
      var p := BuildPayload(editable, business.value);
      PayloadCarriesName(editable, business.value);
      if IsEmptyPayload(p) then NothingToSave
      else match write
        case Written => Saved(p, Merge(business.value, p))
        case WriteRejected(e) => SaveFailed(p, SaveErrorAsWritten(e))
        case NoTokenThrown => SaveFailed(p, PageSaveError(None, NoToken))
  }

  // -------------------------------------------------------------- links

  /** Whether `s` starts with "http". */
  predicate IsHttp(s: string) {
    StartsWith(s, "http")
  }

  /** The link for a handle: kept when it already is a URL, otherwise prefixed. */
  function Linked(handle: string, prefix: string): (r: string)
    ensures IsHttp(handle) ==> r == handle
    ensures !IsHttp(handle) ==> r == prefix + handle
  {
    if IsHttp(handle) then handle else prefix + handle
  }

  /** `openSocialMedia`: the URL opened, if any. A known platform with a non-empty
      handle yields a link; only links longer than ten characters are opened. */
  function OpenSocialMedia(business: Option<Business>, platform: string): (r: Option<string>)
    ensures r.Some? ==> |r.value| > 10 && business.Some?
    ensures platform !in {"facebook", "instagram", "tiktok", "website"} ==> r.None?
    ensures (business.Some? && platform == "facebook" && Filled(business.value.facebook)
             && !IsHttp(business.value.facebook.value)) ==>
      r == Some("https://facebook.com/" + business.value.facebook.value)
    ensures (business.Some? && platform == "instagram" && Filled(business.value.instagram)
             && !IsHttp(business.value.instagram.value)) ==>
      r == Some("https://instagram.com/" + business.value.instagram.value)
    ensures (business.Some? && platform == "tiktok" && Filled(business.value.tiktok)
             && !IsHttp(business.value.tiktok.value)) ==>
      r == Some("https://tiktok.com/@" + business.value.tiktok.value)
    ensures business.Some? && platform == "facebook" && !Filled(business.value.facebook) ==> r.None?
    ensures business.Some? && platform == "instagram" && !Filled(business.value.instagram) ==> r.None?
    ensures business.Some? && platform == "tiktok" && !Filled(business.value.tiktok) ==> r.None?
    ensures (business.Some? && platform == "facebook" && Filled(business.value.facebook)
             && IsHttp(business.value.facebook.value)) ==>
      r == if |business.value.facebook.value| > 10 then Some(business.value.facebook.value) else None
    ensures (business.Some? && platform == "instagram" && Filled(business.value.instagram)
             && IsHttp(business.value.instagram.value)) ==>
      r == if |business.value.instagram.value| > 10 then Some(business.value.instagram.value) else None
    ensures (business.Some? && platform == "tiktok" && Filled(business.value.tiktok)
             && IsHttp(business.value.tiktok.value)) ==>
      r == if |business.value.tiktok.value| > 10 then Some(business.value.tiktok.value) else None
    ensures r.Some? && platform == "website" ==>
      Filled(business.value.website) && r.value == business.value.website.value
    ensures business.Some? && platform == "website" ==>
      (r.Some? <==> Filled(business.value.website) && |business.value.website.value| > 10)
  {
    if business.None? || platform == "" then None
    else
      var b := business.value;
      var url :=
        if platform == "facebook" && Filled(b.facebook) then Linked(b.facebook.value, "https://facebook.com/")
        else if platform == "instagram" && Filled(b.instagram) then Linked(b.instagram.value, "https://instagram.com/")
        else if platform == "tiktok" && Filled(b.tiktok) then Linked(b.tiktok.value, "https://tiktok.com/@")
        else if platform == "website" && Filled(b.website) then b.website.value
        else "";
      if url != "" && |url| > 10 then Some(url) else None
  }

  /** `openWhatsApp`: the digits of the number, opened only when more than five remain. */
  function OpenWhatsApp(business: Option<Business>): (r: Option<string>)
    ensures r.Some? <==> (business.Some? && Filled(business.value.whatsappNumber)
                          && |Digits(business.value.whatsappNumber.value)| > 5)
    ensures r.Some? ==> r.value == "https://wa.me/" + Digits(business.value.whatsappNumber.value)
  {
    if business.Some? && Filled(business.value.whatsappNumber) then
      var clean := Digits(business.value.whatsappNumber.value);
      if |clean| > 5 then Some("https://wa.me/" + clean) else None
    else None
  }

  /** Removing non-digits twice removes nothing more: the link's number is already clean. */
  lemma DigitsIdempotent(s: string)
    ensures Digits(Digits(s)) == Digits(s)
  {
  }

  /** `openMaps`: a map link from the coordinates, with `show` printing a number;
      nothing is opened when either parsed number is zero, and a link is opened
      whenever the coordinates are there and both numbers are not. */
  function OpenMaps(business: Option<Business>, parse: string -> Num, show: Num -> string): (r: Option<string>)
    ensures !(business.Some? && Filled(business.value.googleMapsCoordinates)) ==> r.None?
    ensures business.Some? && Filled(business.value.googleMapsCoordinates) ==>
      var c := CoordinatesArray(Some(business.value.googleMapsCoordinates.value), parse);
      (r.Some? <==> c[0] != Num(0.0) && c[1] != Num(0.0))
    ensures r.Some? ==> (business.Some? && Filled(business.value.googleMapsCoordinates)
                         && Count(business.value.googleMapsCoordinates.value, ',') == 1)
    ensures r.Some? ==>
      var c := CoordinatesArray(Some(business.value.googleMapsCoordinates.value), parse);
      c[0] != Num(0.0) && c[1] != Num(0.0)
      && r.value == "https://www.google.com/maps?q=" + show(c[0]) + "," + show(c[1])
  {
    if business.Some? && Filled(business.value.googleMapsCoordinates) then
      var c := CoordinatesArray(Some(business.value.googleMapsCoordinates.value), parse);
      if c[0] != Num(0.0) && c[1] != Num(0.0)
      then Some("https://www.google.com/maps?q=" + show(c[0]) + "," + show(c[1]))
      else None
    else None
  }

  // ---------------------------------------------------------- permissions

  const EditableStatuses: set<string> := {"VALIDATED", "REJECTED", "PENDING"}

  /** `canEditBusiness`: only a loaded business in one of the three editable states. */
  function CanEditBusiness(business: Option<Business>): (r: bool)
    ensures r <==> business.Some? && business.value.validationStatus in EditableStatuses
    ensures business.Some? && business.value.validationStatus == "APPROVED" ==> !r
  {
    business.Some? && business.value.validationStatus in EditableStatuses
  }

  /** `deliveryText`: delivery is announced only for the exact value "SI". */
  function DeliveryText(business: Option<Business>): (r: string)
    ensures r == "Servicio de delivery disponible" <==>
      business.Some? && business.value.deliveryService == Present("SI")
    ensures r != "Servicio de delivery disponible" ==> r == "Sin servicio de delivery"
  {
    if business.None? || !Filled(business.value.deliveryService) then "Sin servicio de delivery"
    else if business.value.deliveryService.value == "SI" then "Servicio de delivery disponible"
    else "Sin servicio de delivery"
  }

  const SalePlaces: map<string, string> := map[
    "LOCAL_FIJO" := "Local físico",
    "DELIVERY" := "Solo delivery",
    "AMBOS" := "Local físico y delivery"]

  /** `salePlaceText`: the label of a known code, the raw code otherwise, and
      "No especificado" when there is none. */
  function SalePlaceText(business: Option<Business>): (r: string)
    ensures business.None? || !Filled(business.value.salePlace) ==> r == "No especificado"
    ensures business.Some? && Filled(business.value.salePlace) ==>
      var code := business.value.salePlace.value;
      (code in SalePlaces ==> r == SalePlaces[code]) && (code !in SalePlaces ==> r == code)
  {
    if business.None? || !Filled(business.value.salePlace) then "No especificado"
    else
      var code := business.value.salePlace.value;
      if code in SalePlaces then SalePlaces[code] else code
  }
}
