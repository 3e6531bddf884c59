/**
 * The "become a venue manager" panel: the upgraded user it posts, what it
 * does with the outcome of that request, and when it offers the upgrade.
 */
module UpdateProfile {
  import opened Js
  import opened Storage
  import opened ApiHelper

  /** `{...user, venueManager: true}`: every own field of an object user,
      with `venueManager` set; spreading null or undefined adds nothing. */
  function UpgradedUser(user: Value): (u: Value)
    ensures u.Obj? && "venueManager" in u.props && u.props["venueManager"] == Bool(true)
    ensures user.Obj? ==> u.props.Keys == user.props.Keys + {"venueManager"}
    ensures user.Obj? ==> forall k :: k in user.props && k != "venueManager" ==> u.props[k] == user.props[k]
    ensures !user.Obj? ==> u.props.Keys == {"venueManager"}
  {
    match user
    case Obj(m) => Obj(m["venueManager" := Bool(true)])
    case _ => Obj(map["venueManager" := Bool(true)])
  }

  /** Upgrading twice is upgrading once. */
  lemma UpgradeIdempotent(user: Value)
    ensures UpgradedUser(UpgradedUser(user)) == UpgradedUser(user)
  {
    var u := UpgradedUser(user);
    assert u.props["venueManager" := Bool(true)] == u.props;
  }

  /** What `becomeManager` does once the request has settled. */
  datatype UpgradeEffect =
    | Saved(userData: Value, authToken: Value)   // the response's userData and authToken become the session
    | NothingSaved                               // a falsy response is only logged
    | ErrorShown(error: Error)                   // a thrown error becomes the error state

  function UpgradeOutcome(result: ApiResult): (e: UpgradeEffect)
    ensures e.ErrorShown? <==> result.Threw?
    ensures e.ErrorShown? ==> e.error == result.error
    ensures e.NothingSaved? <==> result.Returned? && !Truthy(result.value)
    ensures e.Saved? ==>
      && Prop(result.value, "userData") == Some(e.userData)
      && Prop(result.value, "authToken") == Some(e.authToken)
  {
    match result
    case Threw(err) => ErrorShown(err)
    case Returned(v) =>
      if Truthy(v) then Saved(Prop(v, "userData").value, Prop(v, "authToken").value) else NothingSaved
  }

  /** As written, `apiRequest` comes from `useApiHelper()`, which has none,
      so every click shows the TypeError and nothing is saved. */
  function UpgradeOutcomeAsWritten(reply: Reply): UpgradeEffect {
    UpgradeOutcome(HookApiRequest(reply))
  }

  lemma UpgradeAlwaysFailsAsWritten(reply: Reply)
    ensures UpgradeOutcomeAsWritten(reply) == ErrorShown(NotAFunction)
  {
    HookApiRequestAlwaysThrows(reply);
  }

  /** With the module's `apiRequest`, an accepted upgrade is saved, a
      rejected one shows the request error, and neither shows the TypeError. */
  function UpgradeOutcomeFixed(reply: Reply): UpgradeEffect {
    UpgradeOutcome(ApiRequest(reply))
  }

  lemma UpgradeOutcomeFixedCases(reply: Reply, userData: Value, authToken: Value)
    ensures reply.Response? && reply.ok
      && reply.body == Encoded(Obj(map["userData" := userData, "authToken" := authToken]))
      ==> UpgradeOutcomeFixed(reply) == Saved(userData, authToken)
    ensures reply.Response? && !reply.ok ==> UpgradeOutcomeFixed(reply) == ErrorShown(RequestFailed)
    ensures reply.Response? && reply.ok && reply.body == Unparseable("") ==> UpgradeOutcomeFixed(reply) == NothingSaved
    ensures reply.Response? ==> UpgradeOutcomeFixed(reply) != UpgradeOutcomeAsWritten(reply)
  {
    UpgradeAlwaysFailsAsWritten(reply);
    assert RequestFailed.message[0] != NotAFunction.message[0];
    assert SyntaxError.message[0] != NotAFunction.message[0];
  }

  /** The panel's choice as written: the text "already a venue manager" when
      `user.venueManager` is truthy, the upgrade button otherwise; None when
      reading it throws, which it does while `user` is still null. */
  function OffersUpgradeAsWritten(user: Value): (r: Option<bool>)
    ensures r.None? <==> user.Null? || user.Undefined?
    ensures r.Some? ==> r.value == !Truthy(Prop(user, "venueManager").value)
  {
    match Prop(user, "venueManager")
    case None => None
    case Some(flag) => Some(!Truthy(flag))
  }

  /** The hook's user state is null until its mount effect has run, so the
      panel's first render throws. */
  lemma FirstRenderThrows()
    ensures OffersUpgradeAsWritten(Null).None?
  {
  }

  /** The choice with a guarded read (`user?.venueManager`): it never throws,
      agrees with the written one whenever that one renders, and offers the
      upgrade exactly when the user is not known to be a venue manager. */
  function OffersUpgrade(user: Value): (offered: bool)
    ensures OffersUpgradeAsWritten(user).Some? ==> offered == OffersUpgradeAsWritten(user).value
    ensures offered <==> !(Prop(user, "venueManager").Some? && Truthy(Prop(user, "venueManager").value))
  {
    match Prop(user, "venueManager")
    case None => true
    case Some(flag) => !Truthy(flag)
  }

  /** Once the upgrade is accepted, a user whose returned profile says so is
      no longer offered it. */
  lemma UpgradedUserNotOffered(user: Value)
    ensures !OffersUpgrade(UpgradedUser(user))
  {
  }

  /** The panel: the shared session and its own error state. */
  class ProfileUpdates {
    const session: SessionHook
    var error: Option<Error>

    constructor (session: SessionHook)
      ensures this.session == session && error.None?
    {
      this.session := session;
      error := None;
    }

    /** `becomeManager`: posts the upgraded user (with no bearer header) and
        applies the outcome: a save replaces the session, a thrown error is
        kept for display, a falsy response changes nothing. */
    method BecomeManager(reply: Reply) returns (init: map<string, Value>, body: Text, effect: UpgradeEffect)
      modifies this, session, session.store
      ensures init == RequestInit(map["method" := Str("post")], Null)
      ensures body == Stringify(UpgradedUser(old(session.user)))
      ensures effect == UpgradeOutcomeFixed(reply)
      ensures effect.Saved? ==>
        && session.store.items == SavedSession(old(session.store.items), effect.userData, effect.authToken)
        && session.user == effect.userData && session.token == effect.authToken
        && error == old(error)
      ensures effect.ErrorShown? ==>
        && error == Some(effect.error)
        && session.store.items == old(session.store.items)
        && session.user == old(session.user) && session.token == old(session.token)
      ensures effect.NothingSaved? ==>
        && error == old(error)
        && session.store.items == old(session.store.items)
        && session.user == old(session.user) && session.token == old(session.token)
    {
      init := RequestInit(map["method" := Str("post")], Null);
      body := Stringify(UpgradedUser(session.user));
      effect := UpgradeOutcome(ApiRequest(reply));
      match effect
      case Saved(u, t) => session.SaveUserAndToken(u, t);
      case ErrorShown(err) => error := Some(err);
      case NothingSaved =>
    }
  }
}
