/** The owner-side business service: normalisers for photos, coordinates and
    structured schedules, the lookup of one business by id, and the mapping of
    failed requests to messages. */
module PrivateDetailService {
  import opened Wrappers
  import opened Js
  import opened Text
  import opened Http

  /** A photo descriptor. A `null` entry behaves as one with neither key. */
  datatype Photo = Photo(url: Option<string>, photoUrl: Option<string>)

  /** A structured schedule entry; `isClosed` is the truthiness of the server's flag. */
  datatype Schedule = Schedule(dayOfWeek: Option<int>, isClosed: bool, openTime: Option<string>, closeTime: Option<string>)

  datatype DisplaySchedule = DisplaySchedule(day: string, hours: string)

  /** A number as `parseFloat` produces it. */
  datatype Num = Num(value: real) | NaN

  /** A business as the server returns it. Every text key may be missing or `null`;
      `photos` and `schedules` are None when missing or not arrays. */
  datatype Business = Business(
    id: int,
    commercialName: Field<string>,
    description: Field<string>,
    facebook: Field<string>,
    instagram: Field<string>,
    tiktok: Field<string>,
    website: Field<string>,
    email: Field<string>,
    whatsappNumber: Field<string>,
    address: Field<string>,
    acceptsWhatsappOrders: Field<bool>,
    googleMapsCoordinates: Field<string>,
    phone: Field<string>,
    deliveryService: Field<string>,
    salePlace: Field<string>,
    validationStatus: string,
    photos: Option<seq<Photo>>,
    schedules: Option<seq<Schedule>>)

  // ---------------------------------------------------------------- photos

  /** `photo?.url || photo?.photoUrl || ''`. */
  function PhotoUrl(p: Photo): (u: string)
    ensures Truthy(p.url) ==> u == p.url.value
    ensures !Truthy(p.url) && Truthy(p.photoUrl) ==> u == p.photoUrl.value
    ensures !Truthy(p.url) && !Truthy(p.photoUrl) ==> u == ""
  {
    Or(p.url, Or(p.photoUrl, ""))
  }

  /** A photo whose extracted URL is not blank. */
  predicate HasUrl(p: Photo) {
    Trim(PhotoUrl(p)) != ""
  }

  /** The extracted URLs of the photos that have one, in order. */
  function UrlsOf(photos: seq<Photo>): (r: seq<string>)
    ensures |r| <= |photos|
    ensures forall i :: 0 <= i < |r| ==> Trim(r[i]) != ""
  {
    if photos == [] then []
    else (if HasUrl(photos[0]) then [PhotoUrl(photos[0])] else []) + UrlsOf(photos[1..])
  }

  /** `getPhotoUrls`: no URLs for a missing or non-array list; otherwise no
      blank URL, and never more URLs than photos. */
  function GetPhotoUrls(photos: Option<seq<Photo>>): (r: seq<string>)
    ensures photos.None? ==> r == []
    ensures photos.Some? ==> r == UrlsOf(photos.value)
    ensures photos.Some? ==> |r| <= |photos.value|
    ensures forall i :: 0 <= i < |r| ==> Trim(r[i]) != ""
  {
    if photos.None? then [] else UrlsOf(photos.value)
  }

  /** Some photo of the list yields the URL. */
  predicate Yields(photos: seq<Photo>, u: string) {
    exists j :: 0 <= j < |photos| && PhotoUrl(photos[j]) == u
  }

  /** A list yields a URL when its first photo or one of the others does. */
  lemma YieldsSplit(photos: seq<Photo>, u: string)
    requires photos != []
    ensures Yields(photos, u) <==> PhotoUrl(photos[0]) == u || Yields(photos[1..], u)
  {
    if Yields(photos[1..], u) {
      var j :| 0 <= j < |photos[1..]| && PhotoUrl(photos[1..][j]) == u;
      assert PhotoUrl(photos[j + 1]) == u;
    }
    if Yields(photos, u) && PhotoUrl(photos[0]) != u {
      var j :| 0 <= j < |photos| && PhotoUrl(photos[j]) == u;
      assert PhotoUrl(photos[1..][j - 1]) == u;
    }
  }

  /** A URL is extracted exactly when it is not blank and some photo yields it. */
  lemma {:induction false} UrlsOfMembership(photos: seq<Photo>, u: string)
    ensures u in UrlsOf(photos) <==> Trim(u) != "" && exists j :: 0 <= j < |photos| && PhotoUrl(photos[j]) == u
  {
    if photos == [] {
      assert !Yields(photos, u);
    } else {
      var head := if HasUrl(photos[0]) then [PhotoUrl(photos[0])] else [];
      UrlsOfMembership(photos[1..], u);
      assert UrlsOf(photos) == head + UrlsOf(photos[1..]);
      assert u in UrlsOf(photos) <==> u in head || u in UrlsOf(photos[1..]);
      YieldsSplit(photos, u);
      assert Yields(photos, u) <==> exists j :: 0 <= j < |photos| && PhotoUrl(photos[j]) == u;
    }
  }

  /** When every photo has a URL nothing is dropped: same length, order and duplicates. */
  lemma {:induction false} UrlsOfKeepsAll(photos: seq<Photo>)
    requires forall j :: 0 <= j < |photos| ==> HasUrl(photos[j])
    ensures |UrlsOf(photos)| == |photos|
    ensures forall j :: 0 <= j < |photos| ==> UrlsOf(photos)[j] == PhotoUrl(photos[j])
  {
    if photos != [] {
      UrlsOfKeepsAll(photos[1..]);
    }
  }

  /** The URLs extracted from one photo: its URL when it has one, nothing otherwise. */
  function UrlOf(p: Photo): (r: seq<string>)
    ensures |r| <= 1
    ensures r == [] <==> !HasUrl(p)
  {
    if HasUrl(p) then [PhotoUrl(p)] else []
  }

  /** The URLs of a photo placed before a list: its own URL, then the list's. */
  lemma UrlsOfCons(x: Photo, rest: seq<Photo>)
    ensures UrlsOf([x] + rest) == UrlOf(x) + UrlsOf(rest)
  {
    assert ([x] + rest)[0] == x && ([x] + rest)[1..] == rest;
  }

  /** Extraction keeps order and duplicates: the URLs of two joined lists are the
      URLs of the first followed by those of the second. */
  lemma {:induction false} UrlsOfAppend(a: seq<Photo>, b: seq<Photo>)
    ensures UrlsOf(a + b) == UrlsOf(a) + UrlsOf(b)
  {
    if a == [] {
      assert a + b == b;
    } else {
      var x, rest := a[0], a[1..];
      assert a == [x] + rest;
      AppendAssoc([x], rest, b);
      UrlsOfCons(x, rest + b);
      UrlsOfAppend(rest, b);
      UrlsOfCons(x, rest);
      AppendAssoc(UrlOf(x), UrlsOf(rest), UrlsOf(b));
    }
  }

  // ----------------------------------------------------------- coordinates

  /** The `[0, 0]` sentinel meaning "no location". */
  const Origin: seq<Num> := [Num(0.0), Num(0.0)]

  /** `getCoordinatesArray`, with `parseFloat` as the parameter `parse`: two
      numbers, parsed from the trimmed halves when the text has exactly one
      comma, the sentinel otherwise. */
  function CoordinatesArray(coordinates: Option<string>, parse: string -> Num): (r: seq<Num>)
    ensures |r| == 2
    ensures !Truthy(coordinates) ==> r == Origin
    ensures Truthy(coordinates) && Count(coordinates.value, ',') != 1 ==> r == Origin
    ensures Truthy(coordinates) && Count(coordinates.value, ',') == 1 ==>
      var parts := Split(coordinates.value, ',');
      r == [parse(Trim(parts[0])), parse(Trim(parts[1]))]
  {
    if !Truthy(coordinates) then Origin
    else
      var parts := Split(coordinates.value, ',');
      var coords := seq(|parts|, i requires 0 <= i < |parts| => parse(Trim(parts[i])));
      if |coords| == 2 then coords else Origin
  }

  /** "lat,lng" parses back to its two trimmed halves. */
  lemma CoordinatesOfPair(lat: string, lng: string, parse: string -> Num)
    requires ',' !in lat && ',' !in lng
    ensures CoordinatesArray(Some(lat + "," + lng), parse) == [parse(Trim(lat)), parse(Trim(lng))]
  {
    SplitJoin([lat, lng], ',');
    assert Join([lat, lng], [',']) == lat + "," + lng;
  }

  // ------------------------------------------------------------- schedules

  const DayNames: seq<string> := ["Domingo", "Lunes", "Martes", "Miércoles", "Jueves", "Viernes", "Sábado"]

  const UnknownDay := "Día desconocido"

  function DayName(dayOfWeek: Option<int>): string {
    if dayOfWeek.Some? && 0 <= dayOfWeek.value < 7 then DayNames[dayOfWeek.value] else UnknownDay
  }

  /** The hours of one entry: "Cerrado" for a closed one, otherwise the two times
      around " - ", a missing or empty time reading as nothing. */
  function HoursText(s: Schedule): (r: string)
    ensures s.isClosed ==> r == "Cerrado"
    ensures !s.isClosed ==> r == Or(s.openTime, "") + " - " + Or(s.closeTime, "")
    ensures !s.isClosed && !Truthy(s.openTime) && !Truthy(s.closeTime) ==> r == " - "
  {
    if s.isClosed then "Cerrado" else Or(s.openTime, "") + " - " + Or(s.closeTime, "")
  }

  /** `formatSchedules`: one display row per entry, in order. A day index in 0..6
      names the day starting from Sunday; anything else is the unknown-day label.
      The hours read "Cerrado" exactly for the closed entries. */
  function FormatSchedules(schedules: Option<seq<Schedule>>): (r: seq<DisplaySchedule>)
    ensures schedules.None? ==> r == []
    ensures schedules.Some? ==> |r| == |schedules.value|
    ensures forall i :: 0 <= i < |r| ==>
      var d := schedules.value[i].dayOfWeek;
      (d.Some? && 0 <= d.value < 7 ==> r[i].day == DayNames[d.value])
      && (r[i].day == UnknownDay <==> !(d.Some? && 0 <= d.value < 7))
    ensures forall i :: 0 <= i < |r| ==> (r[i].hours == "Cerrado" <==> schedules.value[i].isClosed)
    ensures forall i :: 0 <= i < |r| && !schedules.value[i].isClosed ==>
      r[i].hours == Or(schedules.value[i].openTime, "") + " - " + Or(schedules.value[i].closeTime, "")
  {
    if schedules.None? then []
    else
      var xs := schedules.value;
      var r := seq(|xs|, i requires 0 <= i < |xs| => DisplaySchedule(DayName(xs[i].dayOfWeek), HoursText(xs[i])));
      HoursCerradoOnlyWhenClosed(xs);
      r
  }

  lemma HoursCerradoOnlyWhenClosed(xs: seq<Schedule>)
    ensures forall i :: 0 <= i < |xs| ==> (HoursText(xs[i]) == "Cerrado" <==> xs[i].isClosed)
  {
    forall i | 0 <= i < |xs| && !xs[i].isClosed
      ensures HoursText(xs[i]) != "Cerrado"
    {
      var h := HoursText(xs[i]);
      var a := Or(xs[i].openTime, "");
      assert h[|a| + 1] == '-';
      assert '-' in h && '-' !in "Cerrado";
    }
  }

  // ---------------------------------------------------------- error mapping

  /** A failure after `handleError`: the message, and whether the stored token was removed. */
  datatype ServiceError = ServiceError(message: string, dropsToken: bool)

  /** `handleError`: a client-side event gives "Error: " and its message; otherwise
      401, 403, 404 and 500 have fixed texts and any other status is spelled out.
      Only a server 401 removes the stored token. */
  function HandleError(e: HttpError): (r: ServiceError)
    ensures r.dropsToken <==> e.status == 401 && !e.body.ClientEvent?
    ensures e.body.ClientEvent? ==> r.message == "Error: " + e.body.eventMessage
    ensures !e.body.ClientEvent? && e.status == 401 ==> r.message == Unauthorized
    ensures !e.body.ClientEvent? && e.status == 403 ==> r.message == "No tienes permisos para acceder a este recurso."
    ensures !e.body.ClientEvent? && e.status == 404 ==> r.message == "El recurso solicitado no fue encontrado."
    ensures !e.body.ClientEvent? && e.status == 500 ==> r.message == "Error interno del servidor. Inténtalo más tarde."
    ensures !e.body.ClientEvent? && e.status !in {401, 403, 404, 500} ==>
      r.message == "Error " + IntToString(e.status) + ": " + e.message
  {
    if e.body.ClientEvent? then ServiceError("Error: " + e.body.eventMessage, false)
    else if e.status == 401 then ServiceError(Unauthorized, true)
    else if e.status == 403 then ServiceError("No tienes permisos para acceder a este recurso.", false)
    else if e.status == 404 then ServiceError("El recurso solicitado no fue encontrado.", false)
    else if e.status == 500 then ServiceError("Error interno del servidor. Inténtalo más tarde.", false)
    else ServiceError("Error " + IntToString(e.status) + ": " + e.message, false)
  }

  const Unauthorized := "No autorizado. Por favor, inicia sesión nuevamente."

  // --------------------------------------------------------- lookup by id

  /** The outcome of one request. */
  datatype Fetch<T> = Fetched(value: T) | FetchFailed(error: HttpError)

  /** The private list response; `content` is None when `data`, `data.content`
      is missing or not an array. */
  datatype ListResponse = ListResponse(success: bool, content: Option<seq<Business>>)

  const InvalidId := "Invalid business ID"
  const NoToken := "No authentication token available"
  const NotFoundInList := "Negocio no encontrado en tu lista de negocios"
  const BadListShape := "No se pudieron cargar tus negocios privados"

  /** The first business with the given id. */
  function FindById(bs: seq<Business>, id: int): (r: Option<Business>)
    ensures r.None? <==> forall k :: 0 <= k < |bs| ==> bs[k].id != id
    ensures r.Some? ==> exists k :: (0 <= k < |bs| && bs[k] == r.value && r.value.id == id
      && forall j :: 0 <= j < k ==> bs[j].id != id)
  {
    if bs == [] then None
    else if bs[0].id == id then Some(bs[0])
    else
      FindById(bs[1..], id)
  }

  /** `getBusinessDetailsAlternative`: the public-details request, with its own messages. */
  function Alternative(alt: Fetch<Business>): (r: Result<Business, string>)
    ensures alt.Fetched? ==> r == Success(alt.value)
    ensures alt.FetchFailed? && alt.error.status == 403 ==> r == Failure("No tienes permisos para ver este negocio")
    ensures alt.FetchFailed? && alt.error.status == 404 ==> r == Failure("El negocio no existe o ha sido eliminado")
    ensures alt.FetchFailed? && alt.error.status == 401 ==>
      r == Failure("Tu sesión ha expirado. Por favor, inicia sesión nuevamente")
    ensures alt.FetchFailed? && alt.error.status !in {401, 403, 404} ==>
      r == Failure("No se pudieron cargar los detalles del negocio")
  {
    match alt
    case Fetched(b) => Success(b)
    case FetchFailed(e) =>
      if e.status == 403 then Failure("No tienes permisos para ver este negocio")
      else if e.status == 404 then Failure("El negocio no existe o ha sido eliminado")
      else if e.status == 401 then Failure("Tu sesión ha expirado. Por favor, inicia sesión nuevamente")
      else Failure("No se pudieron cargar los detalles del negocio")
  }

  /** `getBusinessDetails`. An id at or below zero fails before any request, as does
      a missing token. A well-formed list yields its first business with that id, or
      the not-found error, which is re-thrown rather than retried. Any other failure
      of the list request whose message does not mention "no encontrado" falls back
      to the alternative request; after a server 401 that request fails at once,
      because the error handler has removed the token it asks for. */
  function GetBusinessDetails(businessId: int, hasToken: bool, list: Fetch<ListResponse>, alt: Fetch<Business>)
    : (r: Result<Business, string>)
    ensures businessId <= 0 ==> r == Failure(InvalidId)
    ensures businessId > 0 && !hasToken ==> r == Failure(NoToken)
    ensures businessId > 0 && hasToken && list.Fetched? && list.value.success && list.value.content.Some? ==>
      var bs := list.value.content.value;
      && (r.Success? <==> exists k :: 0 <= k < |bs| && bs[k].id == businessId)
      && (r.Success? ==> Some(r.value) == FindById(bs, businessId))
      && (r.Failure? ==> r == Failure(NotFoundInList))
    ensures businessId > 0 && hasToken && list.Fetched? && !(list.value.success && list.value.content.Some?) ==>
      r == Alternative(alt)
    ensures businessId > 0 && hasToken && list.FetchFailed? && list.error.status == 401
            && !list.error.body.ClientEvent? ==>
      r == if Contains(Unauthorized, "no encontrado") then Failure(Unauthorized) else Failure(NoToken)
    ensures businessId > 0 && hasToken && list.FetchFailed? && !HandleError(list.error).dropsToken ==>
      var m := HandleError(list.error).message;
      r == if Contains(m, "no encontrado") then Failure(m) else Alternative(alt)
  {
    if businessId <= 0 then Failure(InvalidId)
    else if !hasToken then Failure(NoToken)
    else match list
      case FetchFailed(e) =>
        var err := HandleError(e);
        if Contains(err.message, "no encontrado") then Failure(err.message)
        // The fallback asks for the token again, and a 401 has just removed it.
        else if err.dropsToken then Failure(NoToken)
        else Alternative(alt)
      case Fetched(resp) =>
        if resp.success && resp.content.Some? then
          match FindById(resp.content.value, businessId)
          case Some(b) => Success(b)
          case None => Failure(NotFoundInList)
        else
          // The shape error's message does not mention "no encontrado".
          Alternative(alt)
  }
}
