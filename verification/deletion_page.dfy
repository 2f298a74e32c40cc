/** The deletion-request page: the request form, the list of requests with its
    counters and search, and the label tables. */
module DeletionPage {
  import opened Wrappers
  import opened Text
  import opened Http
  import opened DeletionService

  /** `isFormValid`: a business, a reason, and a justification that is not blank. */
  function IsFormValid(businessId: int, motivo: string, justificacion: string): (r: bool)
    ensures r <==> businessId != 0 && motivo != "" && !AllSpace(justificacion)
  {
    businessId != 0 && motivo != "" && Trim(justificacion) != ""
  }

  /** How many requests carry the given status. */
  function CountStatus(requests: seq<DeletionRequest>, status: string): (n: nat)
    ensures n <= |requests|
  {
    if requests == [] then 0
    else (if requests[0].status == status then 1 else 0) + CountStatus(requests[1..], status)
  }

  /** `statusCounts`: one pass over the list, bumping the counter of each request's status. */
  method StatusCounts(requests: seq<DeletionRequest>) returns (pending: nat, approved: nat, rejected: nat)
    ensures pending == CountStatus(requests, "PENDING")
    ensures approved == CountStatus(requests, "APPROVED")
    ensures rejected == CountStatus(requests, "REJECTED")
    ensures pending + approved + rejected <= |requests|
  {
    pending, approved, rejected := 0, 0, 0;
    var i := |requests|;
    while i > 0
      invariant 0 <= i <= |requests|
      invariant pending == CountStatus(requests[i..], "PENDING")
      invariant approved == CountStatus(requests[i..], "APPROVED")
      invariant rejected == CountStatus(requests[i..], "REJECTED")
      invariant pending + approved + rejected <= |requests| - i
    {
      i := i - 1;
      assert requests[i..][1..] == requests[i + 1..];
      var s := requests[i].status;
      if s == "PENDING" {
        pending := pending + 1;
      } else if s == "APPROVED" {
        approved := approved + 1;
      } else if s == "REJECTED" {
        rejected := rejected + 1;
      }
    }
    assert requests[0..] == requests;
  }

  predicate KnownStatus(s: string) {
    s == "PENDING" || s == "APPROVED" || s == "REJECTED"
  }

  /** When every request has one of the three statuses, the counters add up to the list length. */
  lemma {:induction false} CountsCoverList(requests: seq<DeletionRequest>)
    requires forall i :: 0 <= i < |requests| ==> KnownStatus(requests[i].status)
    ensures CountStatus(requests, "PENDING") + CountStatus(requests, "APPROVED")
          + CountStatus(requests, "REJECTED") == |requests|
  {
    if requests != [] {
      CountsCoverList(requests[1..]);
    }
  }

  /** The search: a request matches when one of its three texts contains the term, ignoring case. */
  predicate Matches(request: DeletionRequest, term: string) {
    var t := ToLower(term);
    || Contains(ToLower(request.businessName), t)
    || Contains(ToLower(request.requestedBy), t)
    || (request.justificacion.Some? && Contains(ToLower(request.justificacion.value), t))
  }

  /** The search test reaches `justificacion.toLowerCase()` on a request without one:
      neither name matched, and the `||` chain goes on to the missing text, which throws. */
  predicate SearchThrows(request: DeletionRequest, term: string) {
    var t := ToLower(term);
    && !Contains(ToLower(request.businessName), t)
    && !Contains(ToLower(request.requestedBy), t)
    && request.justificacion.None?
  }

  /** `applyFilters`: every request for an empty term; otherwise the matching ones, in order. */
  function ApplyFilters(requests: seq<DeletionRequest>, term: string): (r: seq<DeletionRequest>)
    ensures term == "" ==> r == requests
    ensures |r| <= |requests|
    ensures term != "" ==> forall i :: 0 <= i < |r| ==> r[i] in requests && Matches(r[i], term)
  {
    if term == "" then requests
    else if requests == [] then []
    else (if Matches(requests[0], term) then [requests[0]] else []) + ApplyFilters(requests[1..], term)
  }

  /** `applyFilters` as it runs: for a non-empty term, `filter` tests the requests in
      order and the first one that throws aborts the search with a TypeError, leaving
      the shown list as it was (None). Otherwise the shown list is the filtered one. */
  function Search(requests: seq<DeletionRequest>, term: string): (r: Option<seq<DeletionRequest>>)
    ensures term == "" ==> r == Some(requests)
    ensures r.None? <==> term != "" && exists i :: 0 <= i < |requests| && SearchThrows(requests[i], term)
    ensures r.Some? ==> r.value == ApplyFilters(requests, term)
  {
    if term == "" then Some(requests)
    else if requests == [] then Some([])
    else if SearchThrows(requests[0], term) then None
    else
      match Search(requests[1..], term)
      case None =>
        ThrowShifts(requests, term);
        None
      case Some(rest) =>
        ThrowShifts(requests, term);
        Some((if Matches(requests[0], term) then [requests[0]] else []) + rest)
  }

  /** A request of a list other than its first one throws exactly when one of the tail's does. */
  lemma ThrowShifts(requests: seq<DeletionRequest>, term: string)
    requires requests != [] && !SearchThrows(requests[0], term)
    ensures (exists i :: 0 <= i < |requests| && SearchThrows(requests[i], term))
        <==> (exists i :: 0 <= i < |requests[1..]| && SearchThrows(requests[1..][i], term))
  {
    if exists i :: 0 <= i < |requests| && SearchThrows(requests[i], term) {
      var i :| 0 <= i < |requests| && SearchThrows(requests[i], term);
      assert SearchThrows(requests[1..][i - 1], term);
    }
    if exists i :: 0 <= i < |requests[1..]| && SearchThrows(requests[1..][i], term) {
      var i :| 0 <= i < |requests[1..]| && SearchThrows(requests[1..][i], term);
      assert SearchThrows(requests[i + 1], term);
    }
  }

  /** When every request carries a justification, the search never throws. */
  lemma JustifiedNeverThrows(requests: seq<DeletionRequest>, term: string)
    requires forall i :: 0 <= i < |requests| ==> requests[i].justificacion.Some?
    ensures Search(requests, term) == Some(ApplyFilters(requests, term))
  {
  }

  /** Nothing that matches is lost, and nothing that does not is kept. */
  lemma {:induction false} FilterMembership(requests: seq<DeletionRequest>, term: string, x: DeletionRequest)
    ensures x in ApplyFilters(requests, term) <==> x in requests && (term == "" || Matches(x, term))
  {
    if term != "" && requests != [] {
      FilterMembership(requests[1..], term, x);
      var head := if Matches(requests[0], term) then [requests[0]] else [];
      assert ApplyFilters(requests, term) == head + ApplyFilters(requests[1..], term);
      assert requests == [requests[0]] + requests[1..];
      assert x in requests <==> x == requests[0] || x in requests[1..];
    }
  }

  /** Filtering keeps order and duplicates: filtering two joined lists is filtering
      each and joining the results. */
  lemma {:induction false} ApplyFiltersAppend(a: seq<DeletionRequest>, b: seq<DeletionRequest>, term: string)
    ensures ApplyFilters(a + b, term) == ApplyFilters(a, term) + ApplyFilters(b, term)
  {
    if term != "" {
      if a == [] {
        assert a + b == b;
      } else {
        var x, rest := a[0], a[1..];
        var head := if Matches(x, term) then [x] else [];
        assert a == [x] + rest;
        AppendAssoc([x], rest, b);
        assert ([x] + (rest + b))[0] == x && ([x] + (rest + b))[1..] == rest + b;
        assert ApplyFilters(a + b, term) == head + ApplyFilters(rest + b, term);
        ApplyFiltersAppend(rest, b, term);
        assert ApplyFilters(a, term) == head + ApplyFilters(rest, term);
        AppendAssoc(head, ApplyFilters(rest, term), ApplyFilters(b, term));
      }
    }
  }

  /** Searching for a request's own business name finds it, whatever the case. */
  lemma MatchesOwnName(request: DeletionRequest)
    requires request.businessName != ""
    ensures Matches(request, request.businessName)
  {
    var b := ToLower(request.businessName);
    assert StartsWith(b, b);
  }

  /** `getStatusColor`. */
  function StatusColor(status: string): (r: string)
    ensures status == "PENDING" ==> r == "warning"
    ensures status == "APPROVED" ==> r == "success"
    ensures status == "REJECTED" ==> r == "danger"
    ensures !KnownStatus(status) ==> r == "medium"
  {
    match status
    case "PENDING" => "warning"
    case "APPROVED" => "success"
    case "REJECTED" => "danger"
    case _ => "medium"
  }

  /** `getStatusLabel`: Spanish for the three statuses, the raw status otherwise. */
  function StatusLabel(status: string): (r: string)
    ensures status == "PENDING" ==> r == "Pendiente"
    ensures status == "APPROVED" ==> r == "Aprobado"
    ensures status == "REJECTED" ==> r == "Rechazado"
    ensures !KnownStatus(status) ==> r == status
  {
    match status
    case "PENDING" => "Pendiente"
    case "APPROVED" => "Aprobado"
    case "REJECTED" => "Rechazado"
    case _ => status
  }

  /** Each known status has its own color and its own label. */
  lemma StatusTablesDistinguish(a: string, b: string)
    requires KnownStatus(a) && KnownStatus(b) && a != b
    ensures StatusColor(a) != StatusColor(b) && StatusLabel(a) != StatusLabel(b)
  {
  }

  /** A reason code with its label. */
  datatype Motivo = Motivo(value: string, text: string)

  const Motivos: seq<Motivo> := [
    Motivo("REPORTED_INACTIVE", "Negocio reportado como inactivo"),
    Motivo("VIOLATION_TERMS", "Violación de términos"),
    Motivo("DUPLICATE_RECORD", "Registro duplicado"),
    Motivo("OWNER_REQUEST", "Solicitud del propietario"),
    Motivo("QUALITY_ISSUE", "No cumple estándares"),
    Motivo("OTHER", "Otro motivo")]

  /** `motivos.find(m => m.value === v)`. */
  function FindMotivo(ms: seq<Motivo>, v: string): (r: Option<Motivo>)
    ensures r.Some? ==> r.value in ms && r.value.value == v
    ensures r.Some? ==> exists k :: (0 <= k < |ms| && ms[k] == r.value
      && forall j :: 0 <= j < k ==> ms[j].value != v)
    ensures r.None? ==> forall i :: 0 <= i < |ms| ==> ms[i].value != v
  {
    if ms == [] then None
    else if ms[0].value == v then Some(ms[0])
    else FindMotivo(ms[1..], v)
  }

  /** `getMotivoLabel`: the label of a known reason, the raw value otherwise. */
  function MotivoLabel(v: string): (r: string)
    ensures (exists i :: 0 <= i < |Motivos| && Motivos[i].value == v) ==>
      exists i :: 0 <= i < |Motivos| && Motivos[i].value == v && r == Motivos[i].text
    ensures (forall i :: 0 <= i < |Motivos| ==> Motivos[i].value != v) ==> r == v
  {
    match FindMotivo(Motivos, v)
    case Some(m) => m.text
    case None => v
  }

  /** Distinct known reasons read differently. */
  lemma MotivoLabelsDistinct(i: nat, j: nat)
    requires i < j < |Motivos|
    ensures MotivoLabel(Motivos[i].value) != MotivoLabel(Motivos[j].value)
  {
    assert forall a, b :: 0 <= a < b < |Motivos| ==> Motivos[a].value != Motivos[b].value && Motivos[a].text != Motivos[b].text;
  }

  /** What pressing "confirm" leads to: an error toast, or the confirmation alert naming the business. */
  datatype ConfirmOutcome = ConfirmError(message: string) | AskConfirmation(businessName: string)

  /** `confirmDeletion`: without a business id or name nothing is asked and nothing is sent. */
  function ConfirmDeletion(businessId: int, businessName: string): (r: ConfirmOutcome)
    ensures businessId == 0 ==> r == ConfirmError("Error: No se ha seleccionado un negocio válido")
    ensures businessId != 0 && businessName == "" ==> r == ConfirmError("Error: Nombre del negocio no disponible")
    ensures r.AskConfirmation? <==> businessId != 0 && businessName != ""
    ensures r.AskConfirmation? ==> r.businessName == businessName
  {
    if businessId == 0 then ConfirmError("Error: No se ha seleccionado un negocio válido")
    else if businessName == "" then ConfirmError("Error: Nombre del negocio no disponible")
    else AskConfirmation(businessName)
  }

  /** `sendDeletionRequest`: the toast shown and whether the modal closes. */
  function SendDeletionRequest(outcome: Option<HttpError>): (r: (string, bool))
    ensures outcome.None? ==> r == ("Solicitud enviada correctamente", true)
    ensures outcome.Some? ==> !r.1 && r.0 == RequestDeletionError(outcome.value).message
    ensures outcome.Some? && outcome.value.status == 409 ==> r.0 == PendingRequestExists
  {
    match outcome
    case None => ("Solicitud enviada correctamente", true)
    case Some(e) =>
      var m := RequestDeletionError(e).message;
      ErrorMessageNeverEmpty(e);
      (if m != "" then m else "Error al enviar solicitud", false)
  }
}
