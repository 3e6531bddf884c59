/**
 * The login form: its two fields, and a submit that posts them and keeps
 * the returned profile and access token as the session.
 */
module Login {
  import opened Js
  import opened Storage
  import opened ApiHelper

  /** The profile fields kept from the login reply. */
  const ProfileFields: set<string> := {"name", "email", "avatar", "venueManager"}

  /** The form data as the JSON object the request body carries. */
  function FormObject(formData: map<string, string>): (o: Value)
    ensures o.Obj? && o.props.Keys == formData.Keys
    ensures forall k :: k in formData ==> o.props[k] == Str(formData[k])
    ensures IsJson(o)
  {
    Obj(map k | k in formData :: Str(formData[k]))
  }

  /** What a reply to the login request saves: for an ok reply whose body
      parses to something other than null, the four profile fields and the
      `accessToken`; nothing otherwise (a failed status is only logged, and a
      body that does not parse or is null throws and is caught). */
  function LoginOutcome(reply: Reply): (saved: Option<(Value, Value)>)
    ensures saved.Some? <==>
      reply.Response? && reply.ok && reply.body.Encoded?
      && !reply.body.value.Null? && !reply.body.value.Undefined?
    ensures saved.Some? ==>
      var data := reply.body.value;
      && saved.value.0.Obj? && saved.value.0.props.Keys == ProfileFields
      && (forall k :: k in ProfileFields ==> Prop(data, k) == Some(saved.value.0.props[k]))
      && Prop(data, "accessToken") == Some(saved.value.1)
  {
    match reply
    case NetworkFailure(_) => None
    case Response(ok, _, body) =>
      if !ok then None
      else match Parse(body)
        case None => None
        case Some(data) =>
          if data.Null? || data.Undefined? then None
          else Some((Obj(map k | k in ProfileFields :: Prop(data, k).value), Prop(data, "accessToken").value))
  }

  /** After a successful login the session reads back exactly the profile
      fields the server sent (a field it left out stays absent) and its
      access token; a reply without a token leaves a token that reads as
      undefined, which the next mount ignores. */
  lemma {:induction false} LoginSessionReloads(items: map<string, Text>, reply: Reply)
    requires LoginOutcome(reply).Some?
    requires reply.body.value.Obj? && IsJson(reply.body.value)
    ensures var data := reply.body.value.props;
      var (u, t) := LoginOutcome(reply).value;
      var session := SavedSession(items, u, t);
      var profile := LoadFrom(session, ProfileKey);
      && profile.Obj?
      && (forall k :: k in profile.props <==> k in ProfileFields && k in data)
      && (forall k :: k in profile.props ==> profile.props[k] == data[k])
      && ("accessToken" in data ==> LoadFrom(session, TokenKey) == data["accessToken"])
      && ("accessToken" !in data ==> MountedState(Null, LoadFrom(session, TokenKey)) == Null)
  {
    var data := reply.body.value.props;
    var (u, t) := LoginOutcome(reply).value;
    var mid := items[ProfileKey := Stringify(u)];
    LoadAfterSave(items, ProfileKey, u);
    OtherKeysUnchanged(mid, TokenKey, ProfileKey, Stringify(t));
    LoadAfterSave(mid, TokenKey, t);
    var profile := LoadFrom(SavedSession(items, u, t), ProfileKey);
    assert profile == JsonImage(u);
    forall k | k in profile.props
      ensures k in ProfileFields && k in data && profile.props[k] == data[k]
    {
      assert k in u.props && !u.props[k].Undefined?;
      assert u.props[k] == Field(data, k);
      JsonImageOfJson(data[k]);
    }
    forall k | k in ProfileFields && k in data
      ensures k in profile.props
    {
      assert u.props[k] == data[k] && !data[k].Undefined?;
    }
    if "accessToken" in data {
      assert IsJson(data["accessToken"]);
      JsonImageOfJson(data["accessToken"]);
    }
  }

  /** A reply that is not ok, or whose body is not JSON, saves nothing. */
  lemma FailedLoginSavesNothing(reply: Reply)
    requires !(reply.Response? && reply.ok) || reply.body.Unparseable?
    ensures LoginOutcome(reply).None?
  {
  }

  /** The login component: the controlled form data over the session. */
  class LoginForm {
    const session: SessionHook
    var formData: map<string, string>

    /** The form starts with an empty email and an empty password. */
    constructor (session: SessionHook)
      ensures this.session == session
      ensures formData == map["email" := "", "password" := ""]
    {
      this.session := session;
      formData := map["email" := "", "password" := ""];
    }

    /** `handleChange`: the named field takes the typed value; every other
        field keeps its value. */
    method HandleChange(name: string, value: string)
      modifies this
      ensures formData == old(formData)[name := value]
      ensures formData.Keys == old(formData.Keys) + {name}
      ensures forall k :: k in old(formData) && k != name ==> formData[k] == old(formData[k])
    {
      formData := formData[name := value];
    }

    /** `handleSubmit`: posts the whole form data as JSON, and on success
        saves the profile fields and the token as the session; otherwise the
        session is left as it was. */
    method HandleSubmit(reply: Reply) returns (body: Text)
      modifies session, session.store
      ensures body == Encoded(FormObject(formData))
      ensures match LoginOutcome(reply)
        case Some((u, t)) =>
          && session.store.items == SavedSession(old(session.store.items), u, t)
          && session.user == u && session.token == t
        case None =>
          && session.store.items == old(session.store.items)
          && session.user == old(session.user) && session.token == old(session.token)
    {
      body := Stringify(FormObject(formData));
      JsonImageOfJson(FormObject(formData));
      var saved := LoginOutcome(reply);
      if saved.Some? {
        session.SaveUserAndToken(saved.value.0, saved.value.1);
      }
    }
  }
}
