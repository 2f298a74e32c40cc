/** The user-registration request: eight text fields, each trimmed, sent to the
    user or the administrator endpoint. */
module RegistrationService {
  import opened Wrappers
  import opened Text

  /** The fields as the form holds them; a field can be missing (`null` after a reset). */
  datatype UserInput = UserInput(
    email: Option<string>, name: Option<string>, lastname: Option<string>, identification: Option<string>,
    phone: Option<string>, address: Option<string>, username: Option<string>, password: Option<string>)

  /** The request body: exactly the eight keys, each a string. */
  datatype UserRequest = UserRequest(
    email: string, name: string, lastname: string, identification: string,
    phone: string, address: string, username: string, password: string)

  /** The keys of the body, in the order the record lists them. */
  const Keys: seq<string> := ["email", "name", "lastname", "identification", "phone", "address", "username", "password"]

  /** The body's values in the order of `Keys`. */
  function Values(r: UserRequest): (v: seq<string>)
    ensures |v| == |Keys|
  {
    [r.email, r.name, r.lastname, r.identification, r.phone, r.address, r.username, r.password]
  }

  /** `value?.trim() || ''`: the trimmed text, and the empty string for a missing value. */
  function Clean(v: Option<string>): (r: string)
    ensures Trimmed(r)
    ensures v.None? ==> r == ""
    ensures v.Some? ==> r == Trim(v.value)
    ensures r == "" <==> v.None? || AllSpace(v.value)
    ensures v.Some? && Trimmed(v.value) ==> r == v.value
  {
    match v
    case None => ""
    case Some(s) => if Trimmed(s) then TrimOfTrimmed(s); Trim(s) else Trim(s)
  }

  /** Every value of the body is free of surrounding whitespace. */
  predicate AllTrimmed(r: UserRequest) {
    && Trimmed(r.email) && Trimmed(r.name) && Trimmed(r.lastname) && Trimmed(r.identification)
    && Trimmed(r.phone) && Trimmed(r.address) && Trimmed(r.username) && Trimmed(r.password)
  }

  /** The body both endpoints build from the fields. */
  function TrimRequest(u: UserInput): (r: UserRequest)
    ensures r.email == Clean(u.email) && r.name == Clean(u.name) && r.lastname == Clean(u.lastname)
    ensures r.identification == Clean(u.identification) && r.phone == Clean(u.phone)
    ensures r.address == Clean(u.address) && r.username == Clean(u.username) && r.password == Clean(u.password)
    ensures AllTrimmed(r)
  {
    UserRequest(Clean(u.email), Clean(u.name), Clean(u.lastname), Clean(u.identification),
                Clean(u.phone), Clean(u.address), Clean(u.username), Clean(u.password))
  }

  /** A whitespace-only username is sent, at its position among the keys, as empty. */
  lemma BlankUsernameSentEmpty(form: UserInput)
    requires form.username.Some? && AllSpace(form.username.value)
    ensures Values(TrimRequest(form))[6] == ""
  {
    var r := TrimRequest(form);
    assert r.username == "";
  }

  /** The username is the seventh key. */
  lemma UsernameKey()
    ensures Keys[6] == "username"
  {
  }

  /** A body seen again as form input. */
  function AsInput(r: UserRequest): UserInput {
    UserInput(Some(r.email), Some(r.name), Some(r.lastname), Some(r.identification),
              Some(r.phone), Some(r.address), Some(r.username), Some(r.password))
  }

  /** Trimming a body a second time changes nothing. */
  lemma TrimRequestIdempotent(u: UserInput)
    ensures TrimRequest(AsInput(TrimRequest(u))) == TrimRequest(u)
  {
    CleanIdempotent(u.email);
    CleanIdempotent(u.name);
    CleanIdempotent(u.lastname);
    CleanIdempotent(u.identification);
    CleanIdempotent(u.phone);
    CleanIdempotent(u.address);
    CleanIdempotent(u.username);
    CleanIdempotent(u.password);
  }

  /** Cleaning a cleaned value changes nothing. */
  lemma CleanIdempotent(v: Option<string>)
    ensures Clean(Some(Clean(v))) == Clean(v)
  {
  }

  /** A request to one of the two endpoints. */
  datatype Post = Post(path: string, body: UserRequest)

  /** `registerUser`. */
  function RegisterUser(u: UserInput): (p: Post)
    ensures p.path == "/users/register"
    ensures p.body == TrimRequest(u)
    ensures AllTrimmed(p.body)
  {
    Post("/users/register", TrimRequest(u))
  }

  /** `createNewAdmin`. */
  function CreateNewAdmin(u: UserInput): (p: Post)
    ensures p.path == "/users/create-new-admin"
    ensures p.body == TrimRequest(u)
    ensures AllTrimmed(p.body)
  {
    Post("/users/create-new-admin", TrimRequest(u))
  }

  /** Both endpoints receive the same body for the same fields, at different paths. */
  lemma BodiesAgree(u: UserInput)
    ensures RegisterUser(u).body == CreateNewAdmin(u).body
    ensures RegisterUser(u).path != CreateNewAdmin(u).path
  {
  }
}
