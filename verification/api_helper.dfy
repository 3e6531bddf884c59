/**
 * The API access layer and the session store: request headers and response
 * normalisation of `apiRequest`, the `useApiHelper` hook's user/token state
 * kept in step with the 'profile' and 'token' keys of localStorage, and
 * `logout`.
 */
module ApiHelper {
  import opened Js
  import opened Storage

  /** What `fetch` settles to: a rejection, or a response with its status and
      body text. */
  datatype Reply =
    | NetworkFailure(error: Error)
    | Response(ok: bool, status: nat, body: Text)

  /** An async call's outcome: the value it returns or the error it throws. */
  datatype ApiResult = Returned(value: Value) | Threw(error: Error)

  const ProfileKey := "profile"
  const TokenKey := "token"

  /** The error `JSON.parse` and `response.json()` throw on text that is not JSON. */
  const SyntaxError := Error("SyntaxError: invalid JSON")

  const RequestFailed := Error("API request failed")

  /** `response.json()`: the parsed body, or a thrown SyntaxError. */
  function JsonBody(body: Text): (r: ApiResult)
    ensures r.Returned? <==> body.Encoded?
  {
    match Parse(body)
    case Some(v) => Returned(v)
    case None => Threw(SyntaxError)
  }

  // ---------------------------------------------------------------------
  // apiRequest

  /** The headers `apiRequest` sends: always a JSON content type, and a bearer
      token exactly when the token is truthy. */
  function RequestHeaders(token: Value): (h: map<string, string>)
    ensures "Content-Type" in h && h["Content-Type"] == "application/json"
    ensures "Authorization" in h <==> Truthy(token)
    ensures "Authorization" in h ==> h["Authorization"] == "Bearer " + TemplateText(token)
    ensures h.Keys <= {"Content-Type", "Authorization"}
  {
    var base := map["Content-Type" := "application/json"];
    if Truthy(token) then base["Authorization" := "Bearer " + TemplateText(token)] else base
  }

  /** The init object `{...options, headers}` handed to `fetch`: every caller
      option is kept except `headers`, which is replaced. */
  function RequestInit(options: map<string, Value>, token: Value): (init: map<string, Value>)
    ensures init.Keys == options.Keys + {"headers"}
    ensures forall k :: k in options && k != "headers" ==> init[k] == options[k]
    ensures init["headers"].Obj?
    ensures forall k :: k in init["headers"].props <==> k in RequestHeaders(token)
    ensures forall k :: k in RequestHeaders(token) ==> init["headers"].props[k] == Str(RequestHeaders(token)[k])
  {
    var h := RequestHeaders(token);
    options["headers" := Obj(map k | k in h :: Str(h[k]))]
  }

  /** What `apiRequest` resolves to once `fetch` has settled. */
  function ApiRequest(reply: Reply): (r: ApiResult)
    ensures reply.Response? && !reply.ok ==> r == Threw(RequestFailed)
    ensures reply.Response? && reply.ok && reply.body == Unparseable("") ==> r == Returned(Null)
    ensures reply.Response? && reply.ok && reply.body.Encoded? ==> r == Returned(reply.body.value)
    ensures r.Returned? <==> reply.Response? && reply.ok && (reply.body.Encoded? || reply.body == Unparseable(""))
  {
    match reply
    case NetworkFailure(e) => Threw(e)
    case Response(ok, _, body) =>
      if !ok then Threw(RequestFailed)
      else if body == Unparseable("") then Returned(Null)
      else JsonBody(body)
  }

  // ---------------------------------------------------------------------
  // The persisted session

  /** The store after `saveUserAndToken(userData, authToken)`. */
  function SavedSession(items: map<string, Text>, userData: Value, authToken: Value): map<string, Text> {
    items[ProfileKey := Stringify(userData)][TokenKey := Stringify(authToken)]
  }

  /** The store after `clearUserAndToken()` or `logout()`. */
  function ClearedSession(items: map<string, Text>): map<string, Text> {
    items - {ProfileKey, TokenKey}
  }

  /** The hook state the mount effect leaves, from the state before it and
      the store: a stored value is taken only when it is truthy. */
  function MountedState(before: Value, stored: Value): (r: Value)
    ensures Truthy(stored) ==> r == stored
    ensures !Truthy(stored) ==> r == before
  {
    if Truthy(stored) then stored else before
  }

  /** A session saved with JSON values is what the next mount reads back,
      and no other key of the store changes. */
  lemma {:induction false} SavedSessionReloads(items: map<string, Text>, userData: Value, authToken: Value)
    requires IsJson(userData) && IsJson(authToken)
    ensures LoadFrom(SavedSession(items, userData, authToken), ProfileKey) == userData
    ensures LoadFrom(SavedSession(items, userData, authToken), TokenKey) == authToken
    ensures forall k :: k != ProfileKey && k != TokenKey ==>
      LoadFrom(SavedSession(items, userData, authToken), k) == LoadFrom(items, k)
  {
    var mid := items[ProfileKey := Stringify(userData)];
    LoadAfterSave(items, ProfileKey, userData);
    LoadAfterSave(mid, TokenKey, authToken);
    OtherKeysUnchanged(mid, TokenKey, ProfileKey, Stringify(authToken));
  }

  /** After a clear or a logout the next mount finds no user and no token:
      both keys read as null, which is falsy, so the hook state stays null. */
  lemma ClearedSessionMountsEmpty(items: map<string, Text>)
    ensures LoadFrom(ClearedSession(items), ProfileKey) == Null
    ensures LoadFrom(ClearedSession(items), TokenKey) == Null
    ensures MountedState(Null, LoadFrom(ClearedSession(items), ProfileKey)) == Null
    ensures MountedState(Null, LoadFrom(ClearedSession(items), TokenKey)) == Null
  {
  }

  /** The names of the object `useApiHelper()` returns. `apiRequest` is a
      separate export of the module and is not among them. */
  const HookMembers: set<string> := {"user", "token", "saveUserAndToken", "clearUserAndToken"}

  /** The error a call of an undefined destructured name throws. */
  const NotAFunction := Error("TypeError: apiRequest is not a function")

  /** Calling the `apiRequest` a component destructures from `useApiHelper()`:
      the name is not a member, so the call throws before any request. */
  function HookApiRequest(reply: Reply): (r: ApiResult)
    ensures "apiRequest" !in HookMembers ==> r == Threw(NotAFunction)
  {
    if "apiRequest" in HookMembers then ApiRequest(reply) else Threw(NotAFunction)
  }

  /** Whatever the server would answer, that call throws. */
  lemma HookApiRequestAlwaysThrows(reply: Reply)
    ensures HookApiRequest(reply) == Threw(NotAFunction)
    ensures reply.Response? ==> HookApiRequest(reply) != ApiRequest(reply)
  {
    assert "apiRequest" !in HookMembers;
    assert RequestFailed != NotAFunction && SyntaxError != NotAFunction by {
      assert RequestFailed.message[0] != NotAFunction.message[0];
      assert SyntaxError.message[0] != NotAFunction.message[0];
    }
  }

  /** `useApiHelper()`: the user and token state of one component, over the
      shared localStorage. */
  class SessionHook {
    const store: LocalStore
    var user: Value
    var token: Value

    /** Both pieces of state start as null. */
    constructor (store: LocalStore)
      ensures this.store == store
      ensures user == Null && token == Null
    {
      this.store := store;
      user := Null;
      token := Null;
    }

    /** The mount effect: copy each stored value into state when it is truthy. */
    method Mount()
      modifies this
      ensures user == MountedState(old(user), LoadFrom(store.items, ProfileKey))
      ensures token == MountedState(old(token), LoadFrom(store.items, TokenKey))
    {
      var storedUser := store.Load(ProfileKey);
      var storedToken := store.Load(TokenKey);
      if Truthy(storedUser) {
        user := storedUser;
      }
      if Truthy(storedToken) {
        token := storedToken;
      }
    }

    /** `saveUserAndToken`: both keys are written and the state takes the
        same two values. */
    method SaveUserAndToken(userData: Value, authToken: Value)
      modifies this, store
      ensures store.items == SavedSession(old(store.items), userData, authToken)
      ensures user == userData && token == authToken
    {
      store.Save(ProfileKey, userData);
      store.Save(TokenKey, authToken);
      user := userData;
      token := authToken;
    }

    /** `clearUserAndToken`: both keys are removed and both states are null. */
    method ClearUserAndToken()
      modifies this, store
      ensures store.items == ClearedSession(old(store.items))
      ensures user == Null && token == Null
    {
      store.Remove(ProfileKey);
      store.Remove(TokenKey);
      user := Null;
      token := Null;
    }
  }

  /** `logout()`: removes the token and the profile, then sends the browser
      to the home page, whose path it returns. */
  method Logout(store: LocalStore) returns (location: string)
    modifies store
    ensures store.items == ClearedSession(old(store.items))
    ensures location == "/"
  {
    store.Remove(TokenKey);
    store.Remove(ProfileKey);
    location := "/";
  }
}
