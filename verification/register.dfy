/**
 * The registration form: its validation schema, its initial values and what
 * its submit handler does with the server's answer.
 *
 * The email and URL formats yup checks are the parameters `isEmail` and
 * `isUrl`; both checks let the empty string through.
 */
module Register {
  import opened Js
  import opened Storage
  import opened ApiHelper

  datatype RegisterValues = RegisterValues(name: string, email: string, password: string, avatar: string, venueManager: bool)

  /** The form starts empty, and not as a venue manager. */
  const InitialValues := RegisterValues("", "", "", "", false)

  const MinPasswordLength := 8
  const StaffDomain := "noroff.no"
  const StudentDomain := "stud.noroff.no"

  function EndsWith(s: string, suffix: string): bool {
    |suffix| <= |s| && s[|s| - |suffix|..] == suffix
  }

  /** The pattern `@(noroff\.no|stud\.noroff\.no)$` matches at position i. */
  predicate DomainAt(e: string, i: int) {
    0 <= i < |e| && e[i] == '@' && (e[i + 1..] == StaffDomain || e[i + 1..] == StudentDomain)
  }

  /** The pattern matches somewhere in the address. */
  predicate MatchesDomainPattern(e: string) {
    exists i :: 0 <= i < |e| && DomainAt(e, i)
  }

  /** The pattern accepts exactly the addresses ending in "@noroff.no" or
      "@stud.noroff.no". */
  lemma DomainPatternIsSuffix(e: string)
    ensures MatchesDomainPattern(e) <==> EndsWith(e, "@" + StaffDomain) || EndsWith(e, "@" + StudentDomain)
  {
    if MatchesDomainPattern(e) {
      var i :| 0 <= i < |e| && DomainAt(e, i);
      assert e[i..] == "@" + e[i + 1..];
    }
    if EndsWith(e, "@" + StaffDomain) {
      var i := |e| - |"@" + StaffDomain|;
      assert e[i] == '@' && e[i + 1..] == StaffDomain;
      assert DomainAt(e, i);
    } else if EndsWith(e, "@" + StudentDomain) {
      var i := |e| - |"@" + StudentDomain|;
      assert e[i] == '@' && e[i + 1..] == StudentDomain;
      assert DomainAt(e, i);
    }
  }

  /** A sub-domain of noroff.no is not accepted: the "@" must come right
      before one of the two domains. */
  lemma SubdomainRejected()
    ensures !MatchesDomainPattern("a@x.noroff.no")
  {
    var e := "a@x.noroff.no";
    DomainPatternIsSuffix(e);
    assert |e| == 13 && e[3] == '.';
    assert !EndsWith(e, "@" + StaffDomain) by {
      assert e[13 - 10] != ("@" + StaffDomain)[0];
    }
  }

  /** A student address is accepted. */
  lemma StudentAddressAccepted()
    ensures MatchesDomainPattern("a@stud.noroff.no")
  {
    var e := "a@stud.noroff.no";
    assert e[1] == '@' && e[2..] == StudentDomain;
    assert DomainAt(e, 1);
  }

  /** The fields that fail `validationSchema`. */
  function RegisterErrors(v: RegisterValues, isEmail: string -> bool, isUrl: string -> bool): (errors: set<string>)
    ensures errors <= {"name", "email", "password", "avatar"}
    ensures "name" in errors <==> v.name == ""
    ensures "email" in errors <==> v.email == "" || !isEmail(v.email) || !MatchesDomainPattern(v.email)
    ensures "password" in errors <==> Utf16Length(v.password) < MinPasswordLength
    ensures "avatar" in errors <==> v.avatar != "" && !isUrl(v.avatar)
  {
    (if v.name == "" then {"name"} else {})
    + (if v.email == "" || !isEmail(v.email) || !MatchesDomainPattern(v.email) then {"email"} else {})
    + (if Utf16Length(v.password) < MinPasswordLength then {"password"} else {})
    + (if v.avatar != "" && !isUrl(v.avatar) then {"avatar"} else {})
  }

  /** The empty form reports name, email and password, and not the optional
      avatar. */
  lemma InitialValuesRejected(isEmail: string -> bool, isUrl: string -> bool)
    ensures RegisterErrors(InitialValues, isEmail, isUrl) == {"name", "email", "password"}
  {
  }

  /** A registration that passes the schema has a name, a noroff address, a
      password of at least eight characters and, if any, a URL avatar. */
  lemma AcceptedRegistration(v: RegisterValues, isEmail: string -> bool, isUrl: string -> bool)
    requires RegisterErrors(v, isEmail, isUrl) == {}
    ensures v.name != "" && isEmail(v.email)
    ensures EndsWith(v.email, "@" + StaffDomain) || EndsWith(v.email, "@" + StudentDomain)
    ensures Utf16Length(v.password) >= MinPasswordLength
    ensures v.avatar == "" || isUrl(v.avatar)
  {
    var errors := RegisterErrors(v, isEmail, isUrl);
    assert "name" !in errors && "email" !in errors;
    assert "password" !in errors && "avatar" !in errors;
    DomainPatternIsSuffix(v.email);
  }

  /** The length rule counts UTF-16 code units, as `.length` does: four
      characters above U+FFFF make a password of length 8, which passes. */
  lemma AstralPasswordAccepted(v: RegisterValues, isEmail: string -> bool, isUrl: string -> bool)
    requires v.password == "\U{1F600}\U{1F600}\U{1F600}\U{1F600}"
    ensures |v.password| == 4 && Utf16Length(v.password) == 8
    ensures "password" !in RegisterErrors(v, isEmail, isUrl)
  {
    var p := v.password;
    assert p[3..][1..] == [];
    assert Utf16Length(p[3..]) == 2;
    assert p[2..][1..] == p[3..];
    assert p[1..][1..] == p[2..];
    assert Utf16Length(p[2..]) == 4;
    assert Utf16Length(p[1..]) == 6;
  }

  /** The values as the JSON object the request body carries. */
  function ValuesObject(v: RegisterValues): (o: Value)
    ensures o.Obj? && o.props.Keys == {"name", "email", "password", "avatar", "venueManager"}
    ensures IsJson(o)
  {
    Obj(map["name" := Str(v.name), "email" := Str(v.email), "password" := Str(v.password),
            "avatar" := Str(v.avatar), "venueManager" := Bool(v.venueManager)])
  }

  /** What the submit handler saves from the result of its request: for a
      truthy response, its `userData` and `authToken` properties; nothing for
      a falsy response or a thrown error. */
  function RegisterOutcome(result: ApiResult): (saved: Option<(Value, Value)>)
    ensures saved.Some? <==> result.Returned? && Truthy(result.value)
    ensures saved.Some? ==>
      && Prop(result.value, "userData") == Some(saved.value.0)
      && Prop(result.value, "authToken") == Some(saved.value.1)
  {
    match result
    case Threw(_) => None
    case Returned(v) =>
      if Truthy(v) then Some((Prop(v, "userData").value, Prop(v, "authToken").value)) else None
  }

  /** The handler as written: `apiRequest` comes from `useApiHelper()`, which
      does not return one, so the call throws and nothing is ever saved. */
  function RegisterOutcomeAsWritten(reply: Reply): Option<(Value, Value)> {
    RegisterOutcome(HookApiRequest(reply))
  }

  lemma RegistrationNeverSavesAsWritten(reply: Reply)
    ensures RegisterOutcomeAsWritten(reply) == None
  {
    HookApiRequestAlwaysThrows(reply);
  }

  /** The handler as evidently intended, with the module's `apiRequest`: a
      successful reply carrying `userData` and `authToken` is saved, while
      the same reply through the hook is not. */
  function RegisterOutcomeFixed(reply: Reply): Option<(Value, Value)> {
    RegisterOutcome(ApiRequest(reply))
  }

  lemma SuccessfulRegistrationSaved(reply: Reply, userData: Value, authToken: Value)
    requires reply.Response? && reply.ok
    requires reply.body == Encoded(Obj(map["userData" := userData, "authToken" := authToken]))
    ensures RegisterOutcomeFixed(reply) == Some((userData, authToken))
    ensures RegisterOutcomeAsWritten(reply) != RegisterOutcomeFixed(reply)
  {
    RegistrationNeverSavesAsWritten(reply);
  }

  /** A failed or empty reply saves nothing. */
  lemma FailedRegistrationNotSaved(reply: Reply)
    requires !(reply.Response? && reply.ok) || reply.body == Unparseable("") || reply.body == Encoded(Null)
    ensures RegisterOutcomeFixed(reply) == None
  {
  }

  /** `onSubmit`: the request (its init object apart from the body, and the
      body) carries the values as JSON and no bearer header, and a truthy
      response's `userData` and `authToken` become the session. */
  method OnSubmit(session: SessionHook, values: RegisterValues, reply: Reply)
    returns (init: map<string, Value>, body: Text)
    modifies session, session.store
    ensures init == RequestInit(map["method" := Str("post")], Null)
    ensures "Authorization" !in init["headers"].props
    ensures body == Stringify(ValuesObject(values)) && body == Encoded(ValuesObject(values))
    ensures match RegisterOutcomeFixed(reply)
      case Some((u, t)) =>
        && session.store.items == SavedSession(old(session.store.items), u, t)
        && session.user == u && session.token == t
      case None =>
        && session.store.items == old(session.store.items)
        && session.user == old(session.user) && session.token == old(session.token)
  {
    init := RequestInit(map["method" := Str("post")], Null);
    body := Stringify(ValuesObject(values));
    JsonImageOfJson(ValuesObject(values));
    var saved := RegisterOutcome(ApiRequest(reply));
    if saved.Some? {
      session.SaveUserAndToken(saved.value.0, saved.value.1);
    }
  }
}
