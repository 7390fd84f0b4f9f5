/**
 * The registration and login schemas. Each string check reports its own
 * message and all of them run; the password-confirmation rule runs once
 * every field is a string and reports under `confirmPassword`.
 */
module AuthSchemas {
  import opened Json
  import opened Zod

  const UsernameMin := "Minimum 3 caractères"
  const UsernameMax := "Maximum 20 caractères"
  const UsernamePattern := "Lettres, chiffres, _ et - uniquement"
  const PasswordMin := "Minimum 8 caractères"
  const PasswordMax := "Maximum 72 caractères (limite bcrypt)"
  const PasswordUpper := "Au moins une majuscule"
  const PasswordDigit := "Au moins un chiffre"
  const PasswordMismatch := "Les mots de passe ne correspondent pas"
  const LoginUsernameRequired := "Pseudo requis"
  const LoginPasswordRequired := "Mot de passe requis"

  /** A character of the class `[a-zA-Z0-9_-]`. */
  predicate IsUsernameChar(c: char)
  {
    ('a' <= c <= 'z') || ('A' <= c <= 'Z') || ('0' <= c <= '9') || c == '_' || c == '-'
  }

  predicate IsUpper(c: char) { 'A' <= c <= 'Z' }
  predicate IsDigit(c: char) { '0' <= c <= '9' }

  /** `^[a-zA-Z0-9_-]+$` */
  predicate MatchesUsernamePattern(u: string)
  {
    |u| >= 1 && forall i :: 0 <= i < |u| ==> IsUsernameChar(u[i])
  }

  /** `[A-Z]` somewhere in the string. */
  predicate HasUpper(p: string) { exists i :: 0 <= i < |p| && IsUpper(p[i]) }

  /** `[0-9]` somewhere in the string. */
  predicate HasDigit(p: string) { exists i :: 0 <= i < |p| && IsDigit(p[i]) }

  /** A valid username: 3 to 20 characters, each a letter, digit, `_` or `-`. */
  predicate ValidUsername(u: string)
  {
    3 <= |u| <= 20 && forall i :: 0 <= i < |u| ==> IsUsernameChar(u[i])
  }

  /** A valid password: 8 to 72 characters with an upper-case letter and a digit. */
  predicate ValidPassword(p: string)
  {
    8 <= |p| <= 72 && HasUpper(p) && HasDigit(p)
  }

  /** The messages of the username checks, in declaration order. */
  function UsernameIssues(u: string): (msgs: seq<string>)
    ensures msgs == [] <==> ValidUsername(u)
    ensures |u| < 3 ==> UsernameMin in msgs
    ensures |u| > 20 ==> UsernameMax in msgs
    ensures !MatchesUsernamePattern(u) ==> UsernamePattern in msgs
  {
    (if |u| < 3 then [UsernameMin] else [])
    + (if |u| > 20 then [UsernameMax] else [])
    + (if !MatchesUsernamePattern(u) then [UsernamePattern] else [])
  }

  /** The messages of the password checks, in declaration order. */
  function PasswordIssues(p: string): (msgs: seq<string>)
    ensures msgs == [] <==> ValidPassword(p)
    ensures !HasUpper(p) ==> PasswordUpper in msgs
    ensures !HasDigit(p) ==> PasswordDigit in msgs
  {
    (if |p| < 8 then [PasswordMin] else [])
    + (if |p| > 72 then [PasswordMax] else [])
    + (if !HasUpper(p) then [PasswordUpper] else [])
    + (if !HasDigit(p) then [PasswordDigit] else [])
  }

  /** A registration body the schema accepts, stated field by field. */
  predicate RegisterAccepts(v: Value)
  {
    && v.Obj?
    && Get(v, "username").Str? && ValidUsername(Get(v, "username").s)
    && Get(v, "password").Str? && ValidPassword(Get(v, "password").s)
    && Get(v, "confirmPassword").Str? && Get(v, "confirmPassword").s == Get(v, "password").s
  }

  /** The messages reported under `confirmPassword`: its type, then the refinement. */
  function ConfirmIssues(v: Value): (msgs: seq<string>)
  {
    var u, p, c := Get(v, "username"), Get(v, "password"), Get(v, "confirmPassword");
    StringField(c, _ => []) + (if u.Str? && p.Str? && c.Str? && p.s != c.s then [PasswordMismatch] else [])
  }

  /** The flattened issues of a registration body. */
  function RegisterIssues(v: Value): (i: Issues)
  {
    if !v.Obj? then Issues([TypeIssue("object", v)], map[])
    else
      Issues([], AddField(AddField(AddField(map[],
        "username", StringField(Get(v, "username"), UsernameIssues)),
        "password", StringField(Get(v, "password"), PasswordIssues)),
        "confirmPassword", ConfirmIssues(v)))
  }

  /** Each field of an object body is reported exactly when its checks produce messages. */
  lemma RegisterIssuesByField(v: Value)
    requires v.Obj?
    ensures RegisterIssues(v).formErrors == []
    ensures var fe := RegisterIssues(v).fieldErrors;
      && fe.Keys <= {"username", "password", "confirmPassword"}
      && ("username" in fe <==> StringField(Get(v, "username"), UsernameIssues) != [])
      && ("username" in fe ==> fe["username"] == StringField(Get(v, "username"), UsernameIssues))
      && ("password" in fe <==> StringField(Get(v, "password"), PasswordIssues) != [])
      && ("password" in fe ==> fe["password"] == StringField(Get(v, "password"), PasswordIssues))
      && ("confirmPassword" in fe <==> ConfirmIssues(v) != [])
      && ("confirmPassword" in fe ==> fe["confirmPassword"] == ConfirmIssues(v))
  {
  }

  /** `RegisterSchema.safeParse`: the three fields, unknown keys dropped. */
  function ParseRegister(v: Value): (r: SchemaResult)
  {
    var i := RegisterIssues(v);
    if i == Issues([], map[]) then
      Valid(Obj(map["username" := Get(v, "username"), "password" := Get(v, "password"), "confirmPassword" := Get(v, "confirmPassword")]))
    else Invalid(i)
  }

  /** The schema accepts exactly the bodies `RegisterAccepts` describes, and keeps the three fields. */
  lemma ParseRegisterAccepts(v: Value)
    ensures ParseRegister(v).Valid? <==> RegisterAccepts(v)
    ensures ParseRegister(v).Valid? ==>
      var d := ParseRegister(v).data;
      d.Obj? && d.fields.Keys == {"username", "password", "confirmPassword"} &&
      Get(d, "username") == Get(v, "username") && Get(d, "password") == Get(v, "password")
  {
    if v.Obj? {
      RegisterIssuesByField(v);
    }
  }

  /** A body with a well-typed but invalid username is reported under `username`. */
  lemma BadUsernameReported(v: Value)
    requires v.Obj? && Get(v, "username").Str? && !ValidUsername(Get(v, "username").s)
    ensures ParseRegister(v).Invalid? && "username" in ParseRegister(v).issues.fieldErrors
  {
    RegisterIssuesByField(v);
  }

  /** A body with a well-typed but invalid password is reported under `password`. */
  lemma BadPasswordReported(v: Value)
    requires v.Obj? && Get(v, "password").Str? && !ValidPassword(Get(v, "password").s)
    ensures ParseRegister(v).Invalid? && "password" in ParseRegister(v).issues.fieldErrors
  {
    RegisterIssuesByField(v);
  }

  /**
   * Differing passwords are reported under `confirmPassword`, and when the
   * rest of the body is valid that is the only field reported.
   */
  lemma MismatchReportedOnConfirm(v: Value)
    requires v.Obj? && Get(v, "username").Str? && Get(v, "password").Str? && Get(v, "confirmPassword").Str?
    requires Get(v, "password").s != Get(v, "confirmPassword").s
    ensures ParseRegister(v).Invalid?
    ensures PasswordMismatch in ParseRegister(v).issues.fieldErrors["confirmPassword"]
    ensures ValidUsername(Get(v, "username").s) && ValidPassword(Get(v, "password").s) ==>
      ParseRegister(v).issues == Issues([], map["confirmPassword" := [PasswordMismatch]])
  {
    RegisterIssuesByField(v);
    assert ConfirmIssues(v) == [PasswordMismatch];
  }

  /** A body that is not an object is reported as a form error only. */
  lemma NonObjectIsFormError(v: Value)
    requires !v.Obj?
    ensures ParseRegister(v).Invalid? && ParseRegister(v).issues.fieldErrors == map[]
    ensures |ParseRegister(v).issues.formErrors| == 1
  {
  }

  /** The documented sample registration is accepted. */
  lemma SampleRegistrationAccepted()
    ensures ParseRegister(Obj(map["username" := Str("ThorinHero"), "password" := Str("Password1"), "confirmPassword" := Str("Password1")])).Valid?
  {
    var v := Obj(map["username" := Str("ThorinHero"), "password" := Str("Password1"), "confirmPassword" := Str("Password1")]);
    assert IsUpper("Password1"[0]) && IsDigit("Password1"[8]);
    ParseRegisterAccepts(v);
  }

  /** Underscores and dashes are allowed, `@` is not. */
  lemma UsernameCharacterClass()
    ensures ValidUsername("the_Dark-Hero")
    ensures !ValidUsername("hero@world")
  {
    assert "hero@world"[4] == '@';
  }

  /** A login body the schema accepts: a non-empty username and a non-empty password. */
  predicate LoginAccepts(v: Value)
  {
    v.Obj? && Get(v, "username").Str? && Get(v, "username").s != "" && Get(v, "password").Str? && Get(v, "password").s != ""
  }

  function LoginIssues(v: Value): (i: Issues)
  {
    if !v.Obj? then Issues([TypeIssue("object", v)], map[])
    else
      Issues([], AddField(AddField(map[],
        "username", StringField(Get(v, "username"), s => if |s| < 1 then [LoginUsernameRequired] else [])),
        "password", StringField(Get(v, "password"), s => if |s| < 1 then [LoginPasswordRequired] else [])))
  }

  /** `LoginSchema.safeParse`: the two fields, unknown keys dropped. */
  function ParseLogin(v: Value): (r: SchemaResult)
  {
    var i := LoginIssues(v);
    if i == Issues([], map[]) then Valid(Obj(map["username" := Get(v, "username"), "password" := Get(v, "password")]))
    else Invalid(i)
  }

  lemma ParseLoginAccepts(v: Value)
    ensures ParseLogin(v).Valid? <==> LoginAccepts(v)
    ensures ParseLogin(v).Valid? ==> Get(ParseLogin(v).data, "username") == Get(v, "username")
  {
    if v.Obj? {
      var mu := StringField(Get(v, "username"), s => if |s| < 1 then [LoginUsernameRequired] else []);
      var mp := StringField(Get(v, "password"), s => if |s| < 1 then [LoginPasswordRequired] else []);
      var m := AddField(AddField(map[], "username", mu), "password", mp);
      if mu != [] { assert "username" in m; }
      if mp != [] { assert "password" in m; }
    }
  }
}
