/**
 * The profile page: fetching the logged-in user's profile by the name kept
 * in localStorage, and choosing between the error, the loading text and the
 * profile card.
 */
module Profile {
  import opened Js
  import opened Storage
  import opened ApiHelper
  import opened VenueFormik

  const NoNameMessage := "User name is not found in localStorage."
  const ServerTroubleMessage := "We're having trouble " + "processing your request. Please try again later."
  const StatusMessagePrefix := "Server responded with a status: "
  const BlankAvatar := "/src/img/blank-profile-picture-gca82a1260_640.png"

  /** `JSON.parse(localStorage.getItem("profile"))` and its `name`: the name
      when it is truthy; the "not found" error when there is no stored
      profile or it has no truthy name; a SyntaxError when the stored text
      does not parse. */
  function StoredName(items: map<string, Text>): (r: ApiResult)
    ensures ProfileKey !in items ==> r == Threw(Error(NoNameMessage))
    ensures ProfileKey in items && items[ProfileKey].Unparseable? ==> r == Threw(SyntaxError)
    ensures r.Returned? <==>
      && ProfileKey in items && items[ProfileKey].Encoded?
      && Truthy(items[ProfileKey].value) && Truthy(Prop(items[ProfileKey].value, "name").value)
    ensures r.Returned? ==> r.value == Prop(items[ProfileKey].value, "name").value && Truthy(r.value)
  {
    var stored := if ProfileKey in items then Parse(items[ProfileKey]) else Some(Null);
    match stored
    case None => Threw(SyntaxError)
    case Some(profile) =>
      var name := if Truthy(profile) then Prop(profile, "name").value else Null;
      if !Truthy(name) then Threw(Error(NoNameMessage)) else Returned(name)
  }

  /** The error thrown for a response that is not ok. */
  function StatusError(status: nat): Error {
    if status == 500 then Error(ServerTroubleMessage)
    else Error(StatusMessagePrefix + NatToString(status))
  }

  /** The status can be read back from the message of every status but 500,
      and status 500 has its own message. */
  lemma StatusErrorNamesStatus(status: nat)
    ensures status == 500 ==> StatusError(status).message == ServerTroubleMessage
    ensures status != 500 ==>
      var m := StatusError(status).message;
      && m[..|StatusMessagePrefix|] == StatusMessagePrefix
      && ParseInt(m[|StatusMessagePrefix|..]) == Some(status)
  {
    if status != 500 {
      var m := StatusError(status).message;
      assert m[|StatusMessagePrefix|..] == NatToString(status);
      ParseIntOfNatToString(status);
    }
  }

  /** Different failing statuses give different messages. */
  lemma StatusErrorInjective(a: nat, b: nat)
    requires a != b
    ensures StatusError(a) != StatusError(b)
  {
    StatusErrorNamesStatus(a);
    StatusErrorNamesStatus(b);
    if a == 500 || b == 500 {
      var other := if a == 500 then b else a;
      var m := StatusError(other).message;
      assert m == StatusMessagePrefix + NatToString(other);
      assert m[0] == 'S';
      assert ServerTroubleMessage[0] == 'W';
    }
  }

  /** What the profile request settles to: the parsed user, or the error the
      page stores. */
  function FetchedUser(reply: Reply): (r: ApiResult)
    ensures reply.NetworkFailure? ==> r == Threw(reply.error)
    ensures reply.Response? && !reply.ok ==> r == Threw(StatusError(reply.status))
    ensures reply.Response? && reply.ok ==> r == JsonBody(reply.body)
  {
    match reply
    case NetworkFailure(e) => Threw(e)
    case Response(ok, status, body) => if !ok then Threw(StatusError(status)) else JsonBody(body)
  }

  /** A user who logged in with a non-empty name has that name read back,
      so the page asks for that user's profile. */
  lemma LoggedInNameFound(items: map<string, Text>, user: Value, token: Value, name: string)
    requires user.Obj? && IsJson(user) && "name" in user.props && user.props["name"] == Str(name) && name != ""
    ensures StoredName(SavedSession(items, user, token)) == Returned(Str(name))
  {
    var mid := items[ProfileKey := Stringify(user)];
    JsonImageOfJson(user);
    assert SavedSession(items, user, token)[ProfileKey] == Stringify(user);
  }

  /** After a logout there is no stored profile, so no request is sent and
      the "not found" error is shown. */
  lemma LoggedOutNameMissing(items: map<string, Text>)
    ensures StoredName(ClearedSession(items)) == Threw(Error(NoNameMessage))
  {
  }

  /** What the page shows. */
  datatype Screen =
    | ErrorScreen(message: string)
    | Loading
    | ProfileCard(avatar: Value, name: Value, email: Value)

  /** The image source: the user's avatar when truthy, the blank picture
      otherwise. */
  function AvatarSource(user: Value): (src: Value)
    requires !user.Undefined? && !user.Null?
    ensures Truthy(src)
    ensures Truthy(Prop(user, "avatar").value) ==> src == Prop(user, "avatar").value
    ensures !Truthy(Prop(user, "avatar").value) ==> src == Str(BlankAvatar)
  {
    var avatar := Prop(user, "avatar").value;
    if Truthy(avatar) then avatar else Str(BlankAvatar)
  }

  /** The render: an error wins over everything, then a user not yet
      loaded shows the loading text, then the card. */
  function Render(error: Option<Error>, user: Value): (s: Screen)
    ensures error.Some? ==> s == ErrorScreen(error.value.message)
    ensures error.None? && !Truthy(user) ==> s == Loading
    ensures error.None? && Truthy(user) ==> s.ProfileCard? && s.avatar == AvatarSource(user)
    ensures s.ProfileCard? ==> Prop(user, "name") == Some(s.name) && Prop(user, "email") == Some(s.email)
  {
    if error.Some? then ErrorScreen(error.value.message)
    else if !Truthy(user) then Loading
    else ProfileCard(AvatarSource(user), Prop(user, "name").value, Prop(user, "email").value)
  }

  /** The page's state: the fetched user and the error, both null at first. */
  class ProfilePage {
    var user: Value
    var error: Option<Error>

    constructor ()
      ensures user == Null && error.None?
      ensures Render(error, user) == Loading
    {
      user := Null;
      error := None;
    }

    /** `fetchUser`: no request without a stored name (the error is set
        instead); otherwise the profile of that name is requested and the
        page keeps either the user or the error. The bearer token is read
        through `load`; see `VenueFormik.RawTokenHeaders` for how the page
        reads it. */
    method FetchUser(store: LocalStore, profileBase: string, reply: Reply)
      returns (request: Option<(string, map<string, string>)>)
      modifies this
      ensures request.Some? <==> StoredName(store.items).Returned?
      ensures request.Some? ==>
        && request.value.0 == profileBase + TemplateText(StoredName(store.items).value)
        && request.value.1 == SessionHeaders(store.items) - {"Content-Type"}
      ensures var outcome := if request.Some? then FetchedUser(reply) else StoredName(store.items);
        && (outcome.Threw? ==> error == Some(outcome.error) && user == old(user))
        && (outcome.Returned? ==> user == outcome.value && error == old(error))
    {
      var name := StoredName(store.items);
      if name.Threw? {
        request := None;
        error := Some(name.error);
        return;
      }
      request := Some((profileBase + TemplateText(name.value), SessionHeaders(store.items) - {"Content-Type"}));
      var fetched := FetchedUser(reply);
      match fetched
      case Threw(e) => error := Some(e);
      case Returned(v) => user := v;
    }
  }

  /** After a fetch the page shows the failure's message, or the fetched
      user's card, or (for a null body) the loading text. */
  lemma FetchThenRender(items: map<string, Text>, reply: Reply)
    ensures StoredName(items).Threw? ==>
      Render(Some(StoredName(items).error), Null) == ErrorScreen(StoredName(items).error.message)
    ensures StoredName(items).Returned? && reply.Response? && !reply.ok && reply.status == 500 ==>
      Render(Some(FetchedUser(reply).error), Null) == ErrorScreen(ServerTroubleMessage)
    ensures reply.Response? && reply.ok && reply.body.Encoded? && reply.body.value.Obj? ==>
      Render(None, FetchedUser(reply).value).ProfileCard?
  {
  }
}
