/** The owner's promotion list: loading and creating with their messages, the
    "active" badge, and the chip tables. */
module PromotionsPage {
  import opened Wrappers
  import opened Js
  import opened PromotionForms

  /** Milliseconds in a day. */
  const MsPerDay: int := 86_400_000

  /** The calendar day (UTC) of an instant. */
  function DayOf(t: int): int {
    t / MsPerDay
  }

  /** The badge as the inclusive date range means it: today's date between the two dates. */
  predicate IsPromotionActive(parse: DateParser, now: int, p: Promotion) {
    var start := parse(p.fechaPromoInicio);
    var end := parse(p.fechaPromoFin);
    start.Some? && end.Some? && DayOf(start.value) <= DayOf(now) <= DayOf(end.value)
  }

  /** `isPromocionActive` as written: the current instant between the two parsed
      dates. A date-only text parses to midnight UTC, so the end date's own day
      is left out after its first millisecond. Whatever it shows as active, the
      date check shows as active too; only the converse fails. */
  function ActiveAsWritten(parse: DateParser, now: int, p: Promotion): (r: bool)
    ensures r ==> parse(p.fechaPromoInicio).Some? && parse(p.fechaPromoFin).Some?
    ensures r ==> IsPromotionActive(parse, now, p)
  {
    var start := parse(p.fechaPromoInicio);
    var end := parse(p.fechaPromoFin);
    if start.Some? && end.Some? && start.value <= now <= end.value then
      DivMonotone(start.value, now);
      DivMonotone(now, end.value);
      true
    else false
  }

  /** A parser that reads the given dates as the midnights of the given days. */
  predicate DateOnly(parse: DateParser, p: Promotion, startDay: int, endDay: int) {
    parse(p.fechaPromoInicio) == Some(startDay * MsPerDay) && parse(p.fechaPromoFin) == Some(endDay * MsPerDay)
  }

  /** For date-only dates the badge is on for every instant of every day from the
      first to the last, both included. */
  lemma ActiveOnEveryDayOfRange(parse: DateParser, now: int, p: Promotion, startDay: int, endDay: int)
    requires DateOnly(parse, p, startDay, endDay)
    ensures IsPromotionActive(parse, now, p) <==> startDay <= DayOf(now) <= endDay
  {
    DayOfMidnight(startDay);
    DayOfMidnight(endDay);
  }

  /** The day of a midnight is that day. */
  lemma DayOfMidnight(d: int)
    ensures DayOf(d * MsPerDay) == d
  {
  }

  /** The badge as written turns off one millisecond into the promotion's last day. */
  lemma ActiveAsWrittenMissesLastDay(parse: DateParser, p: Promotion, d: int)
    requires DateOnly(parse, p, d, d)
    ensures !ActiveAsWritten(parse, d * MsPerDay + 1, p)
    ensures IsPromotionActive(parse, d * MsPerDay + 1, p)
  {
    DayOfMidnight(d);
    assert DayOf(d * MsPerDay + 1) == d;
  }

  /** Where the written check says active, the date check agrees. */
  lemma ActiveAsWrittenIsActive(parse: DateParser, now: int, p: Promotion)
    requires ActiveAsWritten(parse, now, p)
    ensures IsPromotionActive(parse, now, p)
  {
  }

  /** Whole-day division keeps the order of instants. */
  lemma DivMonotone(a: int, b: int)
    requires a <= b
    ensures DayOf(a) <= DayOf(b)
  {
  }

  // ------------------------------------------------------------- tables

  const ChipColors: map<string, string> := map[
    "DESCUENTO_PORCENTAJE" := "success",
    "DESCUENTO_FIJO" := "primary",
    "COMPRA_LLEVAS" := "warning",
    "ENVIO_GRATIS" := "tertiary"]

  const TypeTexts: map<string, string> := map[
    "DESCUENTO_PORCENTAJE" := "Descuento %",
    "DESCUENTO_FIJO" := "Descuento Fijo",
    "COMPRA_LLEVAS" := "Compra y Llevas",
    "ENVIO_GRATIS" := "Envío Gratis"]

  /** `getChipColor`: the table's color, 'medium' for any other type. */
  function ChipColor(tipo: string): (r: string)
    ensures tipo in ChipColors ==> r == ChipColors[tipo]
    ensures tipo !in ChipColors ==> r == "medium"
  {
    if tipo in ChipColors then ChipColors[tipo] else "medium"
  }

  /** `getTipoPromocionText`: the table's text, the code itself for any other type. */
  function TypeText(tipo: string): (r: string)
    ensures tipo in TypeTexts ==> r == TypeTexts[tipo]
    ensures tipo !in TypeTexts ==> r == tipo
  {
    if tipo in TypeTexts then TypeTexts[tipo] else tipo
  }

  /** The two tables know the same types; a type gets the default color exactly
      when it is shown by its raw code. Two of the types the dialogs offer,
      2x1 and combo, are among those. */
  lemma TablesAgree(tipo: string)
    ensures ChipColor(tipo) == "medium" <==> TypeText(tipo) == tipo
    ensures ChipColor("DOSXUNO") == "medium" && TypeText("COMBO") == "COMBO"
  {
  }

  // ------------------------------------------------------------ loading

  /** The answer to the list request: the `success` flag with data or message, or a failed request. */
  datatype LoadReply = Loaded(data: seq<Promotion>) | NotLoaded(message: Option<string>) | LoadFailed(status: int)

  /** After a load: the list, the alert shown (if any), and whether the user was logged out. */
  datatype LoadResult = LoadResult(promociones: seq<Promotion>, alert: Option<(string, string)>, logsOut: bool)

  /** `cargarPromociones` once the answer arrives. */
  function OnLoad(current: seq<Promotion>, reply: LoadReply): (r: LoadResult)
    ensures reply.Loaded? ==> r == LoadResult(reply.data, None, false)
    ensures !reply.Loaded? ==> r.promociones == current && r.alert.Some?
    ensures r.logsOut <==> reply.LoadFailed? && reply.status == 401
    ensures reply.NotLoaded? ==> r.alert == Some(("Error", Or(reply.message, "Error al cargar promociones")))
  {
    match reply
    case Loaded(data) => LoadResult(data, None, false)
    case NotLoaded(m) => LoadResult(current, Some(("Error", Or(m, "Error al cargar promociones"))), false)
    case LoadFailed(status) =>
      if status == 401 then LoadResult(current, Some(("Sesión expirada", "Por favor inicia sesión nuevamente")), true)
      else LoadResult(current, Some(("Error", "No se pudieron cargar las promociones")), false)
  }

  /** The answer to the create request. */
  datatype CreateReply = Created | NotCreated(message: Option<string>) | CreateFailed(status: int)

  /** After a create: the alert, whether the list is loaded again, whether the user was logged out. */
  datatype CreateResult = CreateResult(alert: (string, string), reload: bool, logsOut: bool)

  /** `crearPromocion` once the answer arrives. */
  function OnCreate(reply: CreateReply): (r: CreateResult)
    ensures r.reload <==> reply.Created?
    ensures r.logsOut <==> reply.CreateFailed? && reply.status == 401
    ensures reply.CreateFailed? && reply.status == 400 ==> r.alert == ("Error", "Datos inválidos. Verifica la información.")
    ensures reply.NotCreated? ==> r.alert == ("Error", Or(reply.message, "Error al crear la promoción"))
  {
    match reply
    case Created => CreateResult(("Éxito", "Promoción creada correctamente"), true, false)
    case NotCreated(m) => CreateResult(("Error", Or(m, "Error al crear la promoción")), false, false)
    case CreateFailed(status) =>
      if status == 401 then CreateResult(("Sesión expirada", "Por favor inicia sesión nuevamente"), false, true)
      else if status == 400 then CreateResult(("Error", "Datos inválidos. Verifica la información."), false, false)
      else CreateResult(("Error", "Error al crear la promoción"), false, false)
  }

  /** Both answers log the user out for exactly the same failure. */
  lemma LogoutAgrees(status: int)
    ensures OnLoad([], LoadFailed(status)).logsOut == OnCreate(CreateFailed(status)).logsOut
  {
  }
}
