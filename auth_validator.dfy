/**
 * The zod schemas of server/validators/auth-validator.js. Each field is a
 * required string that is trimmed and then checked (email shape, minimum and
 * maximum length in UTF-16 code units); zod runs every check and collects all
 * issues, field by field in the schema's key order. Unknown keys are stripped.
 * zod's email regular expression is the parameter `isEmail`.
 */
module AuthValidator {
  import opened Wrappers
  import opened Text
  import opened Json

  /** The four string fields of the two schemas. */
  datatype Field = Email | Password | Username | Phone

  function Key(f: Field): string {
    match f
    case Email => "email"
    case Password => "password"
    case Username => "username"
    case Phone => "phone"
  }

  /** `required_error`: the message when the key is absent. */
  function RequiredMessage(f: Field): string {
    match f
    case Email => "Email is required"
    case Password => "Password is required"
    case Username => "Name is required"
    case Phone => "Phone is required"
  }

  /** Only the email field carries the `.email()` check. */
  predicate ChecksEmail(f: Field) {
    f == Email
  }

  /** `.min(n)`, counted on the trimmed string. */
  function Min(f: Field): nat {
    match f
    case Email => 3
    case Password => 6
    case Username => 3
    case Phone => 10
  }

  /** `.max(n)`, counted on the trimmed string. */
  function Max(f: Field): nat {
    match f
    case Email => 255
    case Password => 255
    case Username => 255
    case Phone => 20
  }

  function MinMessage(f: Field): string {
    match f
    case Email => "Email must be at least 3 characters."
    case Password => "Password must be at least 6 characters."
    case Username => "Name must be at least 3 characters."
    case Phone => "Phone must be at least 10 characters."
  }

  function MaxMessage(f: Field): string {
    match f
    case Email => "Email must not be more than 255 characters"
    case Password => "Password must not be more than 255 characters"
    case Username => "Name must not be more than 255 characters"
    case Phone => "Phone must not be more than 20 characters"
  }

  /** One zod issue; `IssueMessage` renders the text the client receives. */
  datatype Issue =
    | Missing(field: Field)
    | NotAString(field: Field, received: Json)
    | NotAnEmail
    | TooShort(field: Field)
    | TooLong(field: Field)
    | NotAnObject(received: Json)

  function IssueMessage(i: Issue): string {
    match i
    case Missing(f) => RequiredMessage(f)
    case NotAString(_, v) => "Expected string, received " + TypeName(v)
    case NotAnEmail => "Invalid email address"
    case TooShort(f) => MinMessage(f)
    case TooLong(f) => MaxMessage(f)
    case NotAnObject(v) => "Expected object, received " + TypeName(v)
  }

  datatype Schema = LoginSchema | SignupSchema

  /** The schema's keys in order: `signupSchema = loginSchema.extend({ username, phone })` appends its two. */
  function Fields(schema: Schema): seq<Field> {
    match schema
    case LoginSchema => [Email, Password]
    case SignupSchema => [Email, Password, Username, Phone]
  }

  function Keys(schema: Schema): set<string> {
    match schema
    case LoginSchema => {"email", "password"}
    case SignupSchema => {"email", "password", "username", "phone"}
  }

  /** The issues zod raises for one field, in check order: type, then email shape, min and max on the trim. */
  function FieldIssues(f: Field, v: Option<Json>, isEmail: string -> bool): seq<Issue> {
    match v
    case None => [Missing(f)]
    case Some(JStr(s)) =>
      var t := Trim(s);
      (if ChecksEmail(f) && !isEmail(t) then [NotAnEmail] else [])
      + (if Utf16Length(t) < Min(f) then [TooShort(f)] else [])
      + (if Utf16Length(t) > Max(f) then [TooLong(f)] else [])
    case Some(other) => [NotAString(f, other)]
  }

  /** One field passes: present, a string, and its trim meets every check. */
  predicate FieldAccepts(f: Field, body: Json, isEmail: string -> bool) {
    && GetString(body, Key(f)).Some?
    && (ChecksEmail(f) ==> isEmail(Trim(GetString(body, Key(f)).value)))
    && Min(f) <= Utf16Length(Trim(GetString(body, Key(f)).value)) <= Max(f)
  }

  lemma FieldIssuesEmptyIff(f: Field, body: Json, isEmail: string -> bool)
    ensures FieldIssues(f, Get(body, Key(f)), isEmail) == [] <==> FieldAccepts(f, body, isEmail)
  {
  }

  /** Every issue of every field, field by field in key order. */
  function Issues(schema: Schema, body: Json, isEmail: string -> bool): seq<Issue> {
    var login := FieldIssues(Email, Get(body, "email"), isEmail) + FieldIssues(Password, Get(body, "password"), isEmail);
    match schema
    case LoginSchema => login
    case SignupSchema =>
      login + FieldIssues(Username, Get(body, "username"), isEmail) + FieldIssues(Phone, Get(body, "phone"), isEmail)
  }

  /** Every field of the schema passes. */
  predicate AllAccept(schema: Schema, body: Json, isEmail: string -> bool) {
    && FieldAccepts(Email, body, isEmail) && FieldAccepts(Password, body, isEmail)
    && (schema == SignupSchema ==> FieldAccepts(Username, body, isEmail) && FieldAccepts(Phone, body, isEmail))
  }

  /** The parsed object: each schema key with its trimmed string; unknown keys are stripped. */
  function Output(schema: Schema, body: Json): Json {
    JObj(map k | k in Keys(schema) && GetString(body, k).Some? :: JStr(Trim(GetString(body, k).value)))
  }

  /** `Schema.parseAsync(body)`: the cleaned object, or every issue in order. */
  function Parse(schema: Schema, body: Json, isEmail: string -> bool): Result<Json, seq<Issue>> {
    if !body.JObj? then Err([NotAnObject(body)])
    else
      var issues := Issues(schema, body, isEmail);
      if issues == [] then Ok(Output(schema, body)) else Err(issues)
  }

  /** `parseAsync` succeeds exactly when the body is an object whose every schema field passes. */
  lemma ParseOkIff(schema: Schema, body: Json, isEmail: string -> bool)
    ensures Parse(schema, body, isEmail).Ok? <==> body.JObj? && AllAccept(schema, body, isEmail)
  {
    FieldIssuesEmptyIff(Email, body, isEmail);
    FieldIssuesEmptyIff(Password, body, isEmail);
    FieldIssuesEmptyIff(Username, body, isEmail);
    FieldIssuesEmptyIff(Phone, body, isEmail);
  }

  /** A failed parse always carries at least one issue, so `errors[0]` exists. */
  lemma FailureHasIssue(schema: Schema, body: Json, isEmail: string -> bool)
    requires Parse(schema, body, isEmail).Err?
    ensures |Parse(schema, body, isEmail).error| > 0
  {
  }

  /**
   * Login email: required, a string, email-shaped after trimming and 3 to 255
   * characters after trimming; password: required, a string, 6 to 255
   * characters after trimming.
   */
  lemma LoginAccepts(body: Json, isEmail: string -> bool)
    ensures Parse(LoginSchema, body, isEmail).Ok? <==>
      && GetString(body, "email").Some?
      && isEmail(Trim(GetString(body, "email").value))
      && 3 <= Utf16Length(Trim(GetString(body, "email").value)) <= 255
      && GetString(body, "password").Some?
      && 6 <= Utf16Length(Trim(GetString(body, "password").value)) <= 255
  {
    ParseOkIff(LoginSchema, body, isEmail);
  }

  /**
   * Signup accepts exactly what login accepts plus a username of 3 to 255
   * characters and a phone of 10 to 20 characters, both trimmed strings; the
   * phone is never checked for digits.
   */
  lemma SignupAccepts(body: Json, isEmail: string -> bool)
    ensures Parse(SignupSchema, body, isEmail).Ok? <==>
      && Parse(LoginSchema, body, isEmail).Ok?
      && GetString(body, "username").Some?
      && 3 <= Utf16Length(Trim(GetString(body, "username").value)) <= 255
      && GetString(body, "phone").Some?
      && 10 <= Utf16Length(Trim(GetString(body, "phone").value)) <= 20
  {
    ParseOkIff(LoginSchema, body, isEmail);
    ParseOkIff(SignupSchema, body, isEmail);
  }

  /**
   * An accepted body parses to an object holding exactly the schema's keys,
   * each mapped to the trimmed input string; other keys are stripped.
   */
  lemma ParsedIsTrimmedInput(schema: Schema, body: Json, isEmail: string -> bool)
    requires Parse(schema, body, isEmail).Ok?
    ensures var out := Parse(schema, body, isEmail).value;
      && out.JObj? && out.fields.Keys == Keys(schema)
      && forall k :: k in out.fields ==>
           GetString(body, k).Some? && out.fields[k] == JStr(Trim(GetString(body, k).value))
  {
    ParseOkIff(schema, body, isEmail);
    var out := Parse(schema, body, isEmail).value;
    assert out == Output(schema, body);
    assert Key(Email) == "email" && Key(Password) == "password" && Key(Username) == "username" && Key(Phone) == "phone";
    forall k | k in Keys(schema) ensures k in out.fields {
    }
  }

  /** A field that passes still passes once replaced by its trim: the checks already ran on the trim. */
  lemma FieldAcceptsTrimmed(f: Field, body: Json, out: Json, isEmail: string -> bool)
    requires FieldAccepts(f, body, isEmail)
    requires GetString(out, Key(f)) == Some(Trim(GetString(body, Key(f)).value))
    ensures FieldAccepts(f, out, isEmail)
  {
    TrimIdempotent(GetString(body, Key(f)).value);
  }

  /** An accepted body parses to `Output`. */
  lemma ParsedIsOutput(schema: Schema, body: Json, isEmail: string -> bool)
    requires Parse(schema, body, isEmail).Ok?
    ensures Parse(schema, body, isEmail).value == Output(schema, body)
  {
  }

  /** Each schema key holding a string reads back from the output as its trim. */
  lemma OutputField(schema: Schema, body: Json, f: Field)
    requires f in Fields(schema) && GetString(body, Key(f)).Some?
    ensures GetString(Output(schema, body), Key(f)) == Some(Trim(GetString(body, Key(f)).value))
  {
  }

  /** The output of an accepted body is accepted again. */
  lemma OutputAccepted(schema: Schema, body: Json, isEmail: string -> bool)
    requires AllAccept(schema, body, isEmail)
    ensures AllAccept(schema, Output(schema, body), isEmail)
  {
    var out := Output(schema, body);
    OutputField(schema, body, Email);
    FieldAcceptsTrimmed(Email, body, out, isEmail);
    OutputField(schema, body, Password);
    FieldAcceptsTrimmed(Password, body, out, isEmail);
    if schema == SignupSchema {
      OutputField(schema, body, Username);
      FieldAcceptsTrimmed(Username, body, out, isEmail);
      OutputField(schema, body, Phone);
      FieldAcceptsTrimmed(Phone, body, out, isEmail);
    }
  }

  /** The output is its own output: its values are already trimmed strings. */
  lemma OutputIdempotent(schema: Schema, body: Json)
    ensures Output(schema, Output(schema, body)) == Output(schema, body)
  {
    var out := Output(schema, body);
    var again := Output(schema, out);
    forall k | k in again.fields ensures again.fields[k] == out.fields[k] {
      TrimIdempotent(GetString(body, k).value);
    }
    assert again.fields == out.fields;
  }

  /** Every field of the schema holds a string. */
  predicate HasFields(body: Json, schema: Schema) {
    forall f :: f in Fields(schema) ==> GetString(body, Key(f)).Some?
  }

  /** A parsed body holds every field of its schema as a string, so handlers may read them. */
  lemma ParsedHasFields(schema: Schema, body: Json, isEmail: string -> bool)
    requires Parse(schema, body, isEmail).Ok?
    ensures HasFields(Parse(schema, body, isEmail).value, schema)
  {
    ParseOkIff(schema, body, isEmail);
    ParsedIsOutput(schema, body, isEmail);
    forall f | f in Fields(schema) ensures GetString(Output(schema, body), Key(f)).Some? {
      OutputField(schema, body, f);
    }
  }

  /** Parsing an accepted output again yields the same output: the schemas are idempotent. */
  lemma ParseIdempotent(schema: Schema, body: Json, isEmail: string -> bool)
    requires Parse(schema, body, isEmail).Ok?
    ensures Parse(schema, Parse(schema, body, isEmail).value, isEmail) == Parse(schema, body, isEmail)
  {
    ParseOkIff(schema, body, isEmail);
    ParsedIsOutput(schema, body, isEmail);
    var out := Output(schema, body);
    OutputAccepted(schema, body, isEmail);
    OutputIdempotent(schema, body);
    ParseOkIff(schema, out, isEmail);
    ParsedIsOutput(schema, out, isEmail);
  }

  /** Login's output is signup's restricted to email and password. */
  lemma OutputRestricts(body: Json)
    ensures Output(LoginSchema, body).fields ==
      map k | k in Output(SignupSchema, body).fields && k in {"email", "password"} :: Output(SignupSchema, body).fields[k]
  {
  }

  /** Whatever signup accepts, login accepts too, and its output is signup's restricted to email and password. */
  lemma SignupOutputExtendsLogin(body: Json, isEmail: string -> bool)
    requires Parse(SignupSchema, body, isEmail).Ok?
    ensures Parse(LoginSchema, body, isEmail).Ok?
    ensures var s := Parse(SignupSchema, body, isEmail).value;
            var l := Parse(LoginSchema, body, isEmail).value;
            l.fields == map k | k in s.fields && k in {"email", "password"} :: s.fields[k]
  {
    ParseOkIff(LoginSchema, body, isEmail);
    ParseOkIff(SignupSchema, body, isEmail);
    ParsedIsOutput(SignupSchema, body, isEmail);
    ParsedIsOutput(LoginSchema, body, isEmail);
    OutputRestricts(body);
  }

  /** When the email field fails, the first issue reported is the email's own first issue, whatever the schema. */
  lemma EmailIssueComesFirst(schema: Schema, body: Json, isEmail: string -> bool)
    requires body.JObj? && !FieldAccepts(Email, body, isEmail)
    ensures Parse(schema, body, isEmail).Err?
    ensures Parse(schema, body, isEmail).error[0] == FieldIssues(Email, Get(body, "email"), isEmail)[0]
  {
    FieldIssuesEmptyIff(Email, body, isEmail);
  }
}
