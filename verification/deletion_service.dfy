/** The business-deletion service: the logo chosen for a listed business, the
    derived `active` flag, the flattening of deletion requests and the mapping
    of failed requests to messages. */
module DeletionService {
  import opened Wrappers
  import opened Js
  import opened Http

  const DefaultLogo := "assets/icon/ibarra.jpg"

  /** A photo of a listed business. */
  datatype TypedPhoto = TypedPhoto(photoType: Option<string>, url: Option<string>)

  /** The first photo typed LOGO, if any. */
  function FirstLogo(photos: seq<TypedPhoto>): (r: Option<nat>)
    ensures r.Some? ==> (r.value < |photos| && photos[r.value].photoType == Some("LOGO")
                         && forall j :: 0 <= j < r.value ==> photos[j].photoType != Some("LOGO"))
    ensures r.None? ==> forall j :: 0 <= j < |photos| ==> photos[j].photoType != Some("LOGO")
  {
    if photos == [] then None
    else if photos[0].photoType == Some("LOGO") then Some(0)
    else match FirstLogo(photos[1..])
      case Some(k) => Some(k + 1)
      case None => None
  }

  /** `extractLogoUrl`: the first LOGO photo's URL, else the first photo's URL,
      else the default asset. */
  function ExtractLogoUrl(photos: Option<seq<TypedPhoto>>): (r: string)
    ensures photos.None? || photos.value == [] ==> r == DefaultLogo
    ensures photos.Some? && photos.value != [] ==>
      var k := FirstLogo(photos.value);
      && (k.Some? && Truthy(photos.value[k.value].url) ==> r == photos.value[k.value].url.value)
      && (!(k.Some? && Truthy(photos.value[k.value].url)) && Truthy(photos.value[0].url) ==> r == photos.value[0].url.value)
      && (!(k.Some? && Truthy(photos.value[k.value].url)) && !Truthy(photos.value[0].url) ==> r == DefaultLogo)
  {
    if photos.None? || photos.value == [] then DefaultLogo
    else
      var ps := photos.value;
      var logoUrl := match FirstLogo(ps) case Some(k) => ps[k].url case None => None;
      Or(logoUrl, Or(ps[0].url, DefaultLogo))
  }

  /** The chosen logo is never empty, and is either the default or the URL of one of the photos. */
  lemma LogoComesFromPhotos(photos: Option<seq<TypedPhoto>>)
    ensures ExtractLogoUrl(photos) != ""
    ensures ExtractLogoUrl(photos) == DefaultLogo
      || exists j :: 0 <= j < |photos.value| && photos.value[j].url == Some(ExtractLogoUrl(photos))
  {
    if photos.Some? && photos.value != [] {
      var ps := photos.value;
      var k := FirstLogo(ps);
      if k.Some? && Truthy(ps[k.value].url) {
        assert ps[k.value].url == Some(ExtractLogoUrl(photos));
      } else if Truthy(ps[0].url) {
        assert ps[0].url == Some(ExtractLogoUrl(photos));
      }
    }
  }

  // ------------------------------------------------------- listed business

  /** A business of a listing, as the server sends it. */
  datatype RawListed = RawListed(id: int, photos: Option<seq<TypedPhoto>>, validationStatus: Option<string>,
                                 userName: Option<string>, userEmail: Option<string>)

  /** The fields the service adds to a listed business. */
  datatype Listed = Listed(id: int, logoUrl: string, active: bool, representativeName: string, email: string)

  /** The mapping applied to each business of the general and per-owner listings. */
  function ListedOf(b: RawListed): (r: Listed)
    ensures r.id == b.id
    ensures r.active <==> b.validationStatus == Some("VALIDATED")
    ensures r.logoUrl == ExtractLogoUrl(b.photos)
    ensures Truthy(b.userName) ==> r.representativeName == b.userName.value
    ensures !Truthy(b.userName) ==> r.representativeName == "No especificado"
    ensures Truthy(b.userEmail) ==> r.email == b.userEmail.value
    ensures !Truthy(b.userEmail) ==> r.email == "No especificado"
  {
    Listed(b.id, ExtractLogoUrl(b.photos), b.validationStatus == Some("VALIDATED"),
           Or(b.userName, "No especificado"), Or(b.userEmail, "No especificado"))
  }

  // ---------------------------------------------------- deletion requests

  /** A deletion request as the server sends it, with the nested business and user names.
      A missing or `null` justification is None: unlike the names, it is copied without a fallback. */
  datatype RawDeletion = RawDeletion(
    id: int,
    businessName: Option<string>,
    nestedBusinessName: Option<string>,
    motivo: string,
    justificacion: Option<string>,
    status: string,
    requestedBy: Option<string>,
    nestedUserName: Option<string>,
    createdAt: Option<string>,
    requestDate: Option<string>)

  /** A deletion request as the pages see it. */
  datatype DeletionRequest = DeletionRequest(
    id: int,
    businessName: string,
    motivo: string,
    justificacion: Option<string>,
    status: string,
    requestedBy: string,
    createdAt: Option<string>)

  /** The flattening of one request: each display field falls back in order. */
  function Flatten(d: RawDeletion): (r: DeletionRequest)
    ensures r.id == d.id && r.motivo == d.motivo && r.justificacion == d.justificacion && r.status == d.status
    ensures Truthy(d.businessName) ==> r.businessName == d.businessName.value
    ensures !Truthy(d.businessName) && Truthy(d.nestedBusinessName) ==> r.businessName == d.nestedBusinessName.value
    ensures !Truthy(d.businessName) && !Truthy(d.nestedBusinessName) ==> r.businessName == "Sin nombre"
    ensures Truthy(d.requestedBy) ==> r.requestedBy == d.requestedBy.value
    ensures !Truthy(d.requestedBy) && Truthy(d.nestedUserName) ==> r.requestedBy == d.nestedUserName.value
    ensures !Truthy(d.requestedBy) && !Truthy(d.nestedUserName) ==> r.requestedBy == "Usuario desconocido"
    ensures Truthy(d.createdAt) ==> r.createdAt == d.createdAt
    ensures !Truthy(d.createdAt) ==> r.createdAt == d.requestDate
    ensures r.businessName != "" && r.requestedBy != ""
  {
    DeletionRequest(d.id, Or(d.businessName, Or(d.nestedBusinessName, "Sin nombre")), d.motivo, d.justificacion, d.status,
                    Or(d.requestedBy, Or(d.nestedUserName, "Usuario desconocido")), OrOpt(d.createdAt, d.requestDate))
  }

  /** The shapes of the deletion-list response: a bare array, `data` holding an
      array, `data` holding `content` (None when missing or falsy), or anything else. */
  datatype DeletionListResponse =
    | BareArray(items: seq<RawDeletion>)
    | DataArray(items: seq<RawDeletion>)
    | DataContent(content: Option<seq<RawDeletion>>)
    | OtherShape

  /** The raw requests a response carries. */
  function RawItems(resp: DeletionListResponse): seq<RawDeletion> {
    match resp
    case BareArray(xs) => xs
    case DataArray(xs) => xs
    case DataContent(c) => c.GetOr([])
    case OtherShape => []
  }

  /** `getDeletionRequests`: the requests, each flattened, in order; none for any other shape. */
  function GetDeletionRequests(resp: DeletionListResponse): (r: seq<DeletionRequest>)
    ensures resp.OtherShape? || resp == DataContent(None) ==> r == []
    ensures (resp.BareArray? || resp.DataArray?) ==> |r| == |resp.items|
    ensures resp.DataContent? && resp.content.Some? ==> |r| == |resp.content.value|
    ensures forall i :: 0 <= i < |r| ==> r[i] == Flatten(RawItems(resp)[i])
  {
    var xs := RawItems(resp);
    seq(|xs|, i requires 0 <= i < |xs| => Flatten(xs[i]))
  }

  /** `getDeletionRequestById`: the one request, flattened alike. */
  function GetDeletionRequestById(d: RawDeletion): (r: DeletionRequest)
    ensures GetDeletionRequests(BareArray([d])) == [r]
  {
    Flatten(d)
  }

  // ------------------------------------------------------------- errors

  const ErrorTable: map<int, string> := map[
    0 := "No hay conexión con el servidor",
    400 := "Datos inválidos en la solicitud",
    401 := "Tu sesión ha expirado. Inicia sesión nuevamente",
    403 := "No tienes permisos para realizar esta acción",
    404 := "No se encontraron registros",
    409 := "Ya existe una solicitud pendiente para este negocio",
    422 := "Error en los datos proporcionados",
    500 := "Error interno del servidor"]

  const PendingRequestExists := "Ya existe una solicitud pendiente para este negocio"

  /** `getErrorMessage`: the table text for a known status, regardless of the body;
      otherwise the body's message, then the response message, then a generic text. */
  function GetErrorMessage(e: HttpError): (r: string)
    ensures e.status in ErrorTable ==> r == ErrorTable[e.status]
    ensures e.status !in ErrorTable && Truthy(BodyMessage(e.body)) ==> r == BodyMessage(e.body).value
    ensures e.status !in ErrorTable && !Truthy(BodyMessage(e.body)) && e.message != "" ==> r == e.message
    ensures e.status !in ErrorTable && !Truthy(BodyMessage(e.body)) && e.message == "" ==>
      r == "Error al procesar la solicitud"
  {
    if e.status in ErrorTable then ErrorTable[e.status]
    else Or(BodyMessage(e.body), Or(Some(e.message), "Error al procesar la solicitud"))
  }

  /** Every error yields a message to show. */
  lemma ErrorMessageNeverEmpty(e: HttpError)
    ensures GetErrorMessage(e) != ""
  {
    if e.status in ErrorTable {
      assert ErrorTable[e.status] != "" by {
        assert forall k :: k in ErrorTable ==> ErrorTable[k] != "";
      }
    }
  }

  /** A failure as the service rethrows it, and whether it logged the user out. */
  datatype DeletionError = DeletionError(message: string, logsOut: bool)

  /** `handleError`: a 401 logs out; the message comes from the table. */
  function HandleError(e: HttpError): (r: DeletionError)
    ensures r.logsOut <==> e.status == 401
    ensures r.message == GetErrorMessage(e)
  {
    DeletionError(GetErrorMessage(e), e.status == 401)
  }

  /** `getAuthHeaders`: the bearer header for a stored token. Without a truthy
      token the user is logged out and the request fails before it is sent. */
  function AuthHeader(token: Option<string>): (r: Result<string, DeletionError>)
    ensures r.Failure? <==> !Truthy(token)
    ensures r.Failure? ==> r.error == DeletionError("No authentication token available", true)
    ensures r.Success? ==> r.value == "Bearer " + token.value
  {
    if Truthy(token) then Success("Bearer " + token.value)
    else Failure(DeletionError("No authentication token available", true))
  }

  /** A missing token ends the session just as a server 401 does, though with its own message. */
  lemma MissingTokenLikeUnauthorized(token: Option<string>, e: HttpError)
    requires !Truthy(token) && e.status == 401
    ensures AuthHeader(token).error.logsOut && HandleError(e).logsOut
    ensures AuthHeader(token).error.message != HandleError(e).message
  {
  }

  /** `requestBusinessDeletion`'s failure: a 409 is the "pending request exists" error. */
  function RequestDeletionError(e: HttpError): (r: DeletionError)
    ensures e.status == 409 ==> r == DeletionError(PendingRequestExists, false)
    ensures e.status != 409 ==> r == HandleError(e)
  {
    if e.status == 409 then DeletionError(PendingRequestExists, false) else HandleError(e)
  }

  /** The special 409 case says what the general mapping would have said anyway. */
  lemma ConflictCaseAgrees(e: HttpError)
    ensures RequestDeletionError(e) == HandleError(e)
  {
  }
}
