/** The user-registration page: the empty-field check, the choice of endpoint,
    the message for a failed request, and the field labels. */
module RegisterUserPage {
  import opened Wrappers
  import opened Js
  import opened Text
  import opened Http
  import opened RegistrationService

  /** The keys whose value is empty, in the order of `keys`. */
  function EmptyKeys(keys: seq<string>, values: seq<string>): (r: seq<string>)
    requires |keys| == |values|
    ensures |r| <= |keys|
    ensures forall k :: k in r ==> k in keys
    decreases |keys|
  {
    if keys == [] then []
    else (if values[0] == "" then [keys[0]] else []) + EmptyKeys(keys[1..], values[1..])
  }

  /** A key is listed exactly when one of its positions holds an empty value. */
  lemma {:induction false} EmptyKeysMembership(keys: seq<string>, values: seq<string>, k: string)
    requires |keys| == |values|
    ensures k in EmptyKeys(keys, values) <==> exists i :: 0 <= i < |keys| && keys[i] == k && values[i] == ""
    decreases |keys|
  {
    if keys != [] {
      EmptyKeysMembership(keys[1..], values[1..], k);
      if k in EmptyKeys(keys[1..], values[1..]) {
        var i :| 0 <= i < |keys[1..]| && keys[1..][i] == k && values[1..][i] == "";
        assert keys[i + 1] == k && values[i + 1] == "";
      }
      if exists i :: 0 <= i < |keys| && keys[i] == k && values[i] == "" {
        var i :| 0 <= i < |keys| && keys[i] == k && values[i] == "";
        if i > 0 {
          assert keys[1..][i - 1] == k && values[1..][i - 1] == "";
        }
      }
    }
  }

  /** The message of the error raised for empty fields. */
  function EmptyFieldsMessage(empty: seq<string>): string {
    "Los siguientes campos están vacíos: " + Join(empty, ", ")
  }

  /** The page state the operations below touch. */
  datatype PageState = PageState(registroTipo: string, showPassword: bool, form: UserInput)

  const EmptyForm := UserInput(None, None, None, None, None, None, None, None)

  /** `togglePasswordVisibility`. */
  function TogglePassword(s: PageState): (r: PageState)
    ensures r.showPassword != s.showPassword
    ensures r.registroTipo == s.registroTipo && r.form == s.form
  {
    s.(showPassword := !s.showPassword)
  }

  /** Toggling twice shows the password as before. */
  lemma ToggleInvolution(s: PageState)
    ensures TogglePassword(TogglePassword(s)) == s
  {
  }

  /** `limpiarFormulario`: an emptied form, user registration, the password hidden. */
  function ClearForm(s: PageState): (r: PageState)
    ensures r.registroTipo == "usuario" && !r.showPassword && r.form == EmptyForm
  {
    PageState("usuario", false, EmptyForm)
  }

  /** What the form would send after clearing: eight empty fields, so nothing is sent. */
  lemma ClearedFormIsEmpty(s: PageState)
    ensures EmptyKeys(Keys, Values(TrimRequest(ClearForm(s).form))) == Keys
  {
  }

  // ------------------------------------------------------------- errors

  const DefaultError := "Ocurrió un error durante el registro."
  const Unreachable := "No se puede conectar con el servidor. Verifique su conexión a internet."
  const BadRequestDefault := "Datos inválidos. Verifique que todos los campos cumplan con los requisitos."
  const AlreadyRegistered := "Ya existe un usuario con esa identificación, email o nombre de usuario."
  const Unprocessable := "Los datos enviados no son válidos. Verifique el formato de los campos."
  const ServerFailure := "Error interno del servidor. Intente nuevamente más tarde."

  /** The statuses with a message of their own. */
  predicate HandledStatus(status: int) {
    status == 0 || status == 400 || status == 409 || status == 422 || status == 500
  }

  /** The message a 400 shows: a non-empty text body, else the body's message, else the fixed text. */
  function BadRequestMessage(b: ErrorBody): (r: string)
    ensures b.TextBody? && b.text != "" ==> r == b.text
    ensures !(b.TextBody? && b.text != "") && Truthy(BodyMessage(b)) ==> r == BodyMessage(b).value
    ensures !(b.TextBody? && b.text != "") && !Truthy(BodyMessage(b)) ==> r == BadRequestDefault
  {
    if b.TextBody? && b.text != "" then b.text else Or(BodyMessage(b), BadRequestDefault)
  }

  /** The message for a failed request: fixed texts for 0, 409, 422 and 500; for 400
      a text body or the body's message overrides the fixed text; any other status
      falls back to the body's message, then the response message, then a generic text. */
  function RegistrationErrorMessage(e: HttpError): (r: string)
    ensures e.status == 0 ==> r == Unreachable
    ensures e.status == 400 ==> r == BadRequestMessage(e.body)
    ensures e.status == 409 ==> r == AlreadyRegistered
    ensures e.status == 422 ==> r == Unprocessable
    ensures e.status == 500 ==> r == ServerFailure
    ensures !HandledStatus(e.status) && Truthy(BodyMessage(e.body)) ==> r == BodyMessage(e.body).value
    ensures !HandledStatus(e.status) && !Truthy(BodyMessage(e.body)) && e.message != "" ==> r == e.message
    ensures !HandledStatus(e.status) && !Truthy(BodyMessage(e.body)) && e.message == "" ==> r == DefaultError
  {
    if e.status == 0 then Unreachable
    else if e.status == 400 then BadRequestMessage(e.body)
    else if e.status == 409 then AlreadyRegistered
    else if e.status == 422 then Unprocessable
    else if e.status == 500 then ServerFailure
    else Or(BodyMessage(e.body), Or(Some(e.message), DefaultError))
  }

  /** A failed request always leaves something to show. */
  lemma RegistrationErrorNeverEmpty(e: HttpError)
    ensures RegistrationErrorMessage(e) != ""
  {
  }

  // ------------------------------------------------------------- submit

  /** What submitting leads to: nothing (invalid form), an error shown before any
      request, or a request with its success header or error message. */
  datatype SubmitOutcome =
    | FormInvalid
    | EmptyFields(message: string)
    | Registered(request: Post, header: string)
    | RequestFailed(request: Post, message: string)

  /** `onSubmit`. `formValid` is the verdict of the form's validators, and `reply`
      the server's answer (None for success). */
  function Submit(s: PageState, formValid: bool, reply: Option<HttpError>): (r: (PageState, SubmitOutcome))
    ensures !formValid ==> r == (s, FormInvalid)
    ensures formValid && EmptyKeys(Keys, Values(TrimRequest(s.form))) != [] ==>
      r == (s, EmptyFields(EmptyFieldsMessage(EmptyKeys(Keys, Values(TrimRequest(s.form))))))
    ensures (r.1.Registered? || r.1.RequestFailed?) ==>
      && formValid
      && (forall i :: 0 <= i < |Keys| ==> Values(r.1.request.body)[i] != "")
      && r.1.request.body == TrimRequest(s.form)
      && (r.1.request.path == "/users/create-new-admin" <==> s.registroTipo == "admin")
    ensures r.1.Registered? <==> formValid && EmptyKeys(Keys, Values(TrimRequest(s.form))) == [] && reply.None?
    ensures r.1.RequestFailed? <==> formValid && EmptyKeys(Keys, Values(TrimRequest(s.form))) == [] && reply.Some?
    ensures r.1.Registered? ==> r.0 == ClearForm(s)
    ensures r.1.RequestFailed? ==> r.0 == s && r.1.message == RegistrationErrorMessage(reply.value)
  {
    if !formValid then (s, FormInvalid)
    else
      var data := TrimRequest(s.form);
      var empty := EmptyKeys(Keys, Values(data));
      if empty != [] then (s, EmptyFields(EmptyFieldsMessage(empty)))
      else
        NoEmptyValues(data);
        var input := AsInput(data);
        TrimRequestIdempotent(s.form);
        var request := if s.registroTipo == "admin" then CreateNewAdmin(input) else RegisterUser(input);
        match reply
        case None =>
          var header := if s.registroTipo == "admin" then "Administrador Registrado" else "Usuario Registrado";
          (ClearForm(s), Registered(request, header))
        case Some(e) => (s, RequestFailed(request, RegistrationErrorMessage(e)))
  }

  /** No key listed as empty means every value is filled. */
  lemma NoEmptyValues(data: UserRequest)
    requires EmptyKeys(Keys, Values(data)) == []
    ensures forall i :: 0 <= i < |Keys| ==> Values(data)[i] != ""
  {
    forall i | 0 <= i < |Keys|
      ensures Values(data)[i] != ""
    {
      EmptyKeysMembership(Keys, Values(data), Keys[i]);
    }
  }

  /** A whitespace-only username is listed among the empty fields. */
  lemma BlankUsernameListed(form: UserInput)
    requires form.username.Some? && AllSpace(form.username.value)
    ensures "username" in EmptyKeys(Keys, Values(TrimRequest(form)))
  {
    var values := Values(TrimRequest(form));
    BlankUsernameSentEmpty(form);
    UsernameKey();
    EmptyKeysMembership(Keys, values, "username");
  }

  /** A whitespace-only field never reaches the server: it is named in the error instead. */
  lemma BlankFieldIsReported(s: PageState)
    requires s.form.username.Some? && AllSpace(s.form.username.value)
    ensures "username" in EmptyKeys(Keys, Values(TrimRequest(s.form)))
    ensures Submit(s, true, None).1 == EmptyFields(EmptyFieldsMessage(EmptyKeys(Keys, Values(TrimRequest(s.form)))))
  {
    BlankUsernameListed(s.form);
  }

  // ------------------------------------------------------------- labels

  const FieldLabels: map<string, string> := map[
    "identification" := "Identificación",
    "name" := "Nombres",
    "lastname" := "Apellidos",
    "address" := "Dirección",
    "username" := "Usuario",
    "password" := "Contraseña",
    "email" := "Correo Electrónico",
    "phone" := "Teléfono"]

  /** `getFieldLabel`: the Spanish label of a known field, the name itself otherwise. */
  function FieldLabel(fieldName: string): (r: string)
    ensures fieldName in FieldLabels ==> r == FieldLabels[fieldName]
    ensures fieldName !in FieldLabels ==> r == fieldName
  {
    if fieldName in FieldLabels then FieldLabels[fieldName] else fieldName
  }

  /** The labelled fields are exactly the keys of the body, and each is relabelled. */
  lemma LabelsCoverKeys(fieldName: string)
    ensures FieldLabel(fieldName) != fieldName <==> fieldName in Keys
  {
  }
}
