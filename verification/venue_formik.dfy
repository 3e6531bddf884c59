/**
 * The form state the two venue pages share: the media URL list with its
 * add and remove buttons, the rating selector, and what a submit does with
 * the server's answer.
 */
module VenueFormik {
  import opened Js
  import opened Storage
  import opened ApiHelper
  import opened VenueSchema

  /** The add button is rendered only while there are fewer entries than this. */
  const MaxMedia := 5

  // ---------------------------------------------------------------------
  // Media list editing

  /** The "Add Media URL" button: None when it is not rendered. */
  function AddMediaUrl(media: seq<Value>): (r: Option<seq<Value>>)
    ensures r.Some? <==> |media| < MaxMedia
    ensures r.Some? ==> |r.value| == |media| + 1 <= MaxMedia
    ensures r.Some? ==> r.value[..|media|] == media && r.value[|media|] == Str("")
  {
    if |media| < MaxMedia then Some(media + [Str("")]) else None
  }

  /** The "Remove URL" button next to entry `index`: None when it is not
      rendered (a single entry, or no entry at that index). */
  function RemoveMediaUrl(media: seq<Value>, index: int): (r: Option<seq<Value>>)
    ensures r.Some? <==> |media| > 1 && 0 <= index < |media|
    ensures r.Some? ==> |r.value| == |media| - 1 >= 1
    ensures r.Some? ==> forall j :: 0 <= j < index ==> r.value[j] == media[j]
    ensures r.Some? ==> forall j :: index <= j < |r.value| ==> r.value[j] == media[j + 1]
  {
    if |media| > 1 && 0 <= index < |media| then Some(media[..index] + media[index + 1..]) else None
  }

  /** What a user can do to the media list: add an entry, remove one, or
      type into one (formik's change handler on `media[index]`). */
  datatype MediaAction = Add | Remove(index: int) | Edit(index: int, text: string)

  /** The list after one action; an action whose control is not rendered
      leaves the list as it is. */
  function ApplyMediaAction(media: seq<Value>, a: MediaAction): seq<Value> {
    match a
    case Add => (match AddMediaUrl(media) case Some(m) => m case None => media)
    case Remove(i) => (match RemoveMediaUrl(media, i) case Some(m) => m case None => media)
    case Edit(i, text) => if 0 <= i < |media| then media[i := Str(text)] else media
  }

  function ApplyMediaActions(media: seq<Value>, actions: seq<MediaAction>): seq<Value>
    decreases |actions|
  {
    if actions == [] then media else ApplyMediaActions(ApplyMediaAction(media, actions[0]), actions[1..])
  }

  function Min(a: int, b: int): int { if a < b then a else b }
  function Max(a: int, b: int): int { if a < b then b else a }

  /** Whatever the user does, the buttons keep the list between one entry
      (or the starting length, if that was smaller) and five entries (or the
      starting length, if that was larger): remove never empties the list and
      add never takes it past five. */
  lemma {:induction false} MediaLengthBounded(media: seq<Value>, actions: seq<MediaAction>)
    ensures Min(1, |media|) <= |ApplyMediaActions(media, actions)| <= Max(MaxMedia, |media|)
    decreases |actions|
  {
    if actions != [] {
      var next := ApplyMediaAction(media, actions[0]);
      assert Min(1, |media|) <= |next| <= Max(MaxMedia, |media|);
      MediaLengthBounded(next, actions[1..]);
      assert Min(1, |media|) <= Min(1, |next|);
      assert Max(MaxMedia, |next|) <= Max(MaxMedia, |media|);
    }
  }

  predicate NoRemoves(actions: seq<MediaAction>) {
    forall i :: 0 <= i < |actions| ==> !actions[i].Remove?
  }

  /** On the create page, which has no remove button, the list starts as
      `[""]` and always holds one to five entries, and never shrinks. */
  lemma {:induction false} CreatePageMediaBounded(media: seq<Value>, actions: seq<MediaAction>)
    requires NoRemoves(actions)
    requires 1 <= |media| <= MaxMedia
    ensures |media| <= |ApplyMediaActions(media, actions)| <= MaxMedia
    decreases |actions|
  {
    if actions != [] {
      var next := ApplyMediaAction(media, actions[0]);
      assert |media| <= |next| <= MaxMedia;
      assert NoRemoves(actions[1..]) by {
        forall i | 0 <= i < |actions[1..]| ensures !actions[1..][i].Remove? {
          assert actions[1..][i] == actions[i + 1];
        }
      }
      CreatePageMediaBounded(next, actions[1..]);
    }
  }

  // ---------------------------------------------------------------------
  // Rating selector

  /** `handleRatingChange`: the empty choice stores "", any other choice
      stores `parseInt(value, 10)`. */
  function RatingFromSelection(value: string): Value {
    if value != "" then (match ParseInt(value) case Some(n) => Num(n) case None => NaN) else Str("")
  }

  /** Each of the options "1".."5" stores that number, which formik then lets
      through: the rating is not reported, whatever the other fields hold. */
  lemma RatingOptionsAccepted(values: map<string, Value>, k: nat, isUrl: string -> bool)
    requires 1 <= k <= 5
    ensures RatingFromSelection(NatToString(k)) == Num(k)
    ensures Rating !in FormErrors(values["rating" := RatingFromSelection(NatToString(k))], isUrl)
  {
    ParseIntOfNatToString(k);
    assert Field(values["rating" := Num(k)], "rating") == Num(k);
  }

  /** Picking a rating and then "Select Rating" again stores "". formik hands
      yup an undefined rating in its place, so the form is let through with
      exactly the other fields' errors. */
  lemma EmptyRatingSelectionAccepted(values: map<string, Value>, isUrl: string -> bool)
    ensures RatingFromSelection("") == Str("")
    ensures FormErrors(values["rating" := RatingFromSelection("")], isUrl) == FormErrors(values, isUrl) - {Rating}
  {
    var p := PreparedValues(values);
    PreparedWithoutRating(values);
    SchemaErrorsWithoutRating(p, isUrl);
  }

  /** Emptying the rating leaves the prepared values with an undefined
      rating and nothing else changed. */
  lemma PreparedWithoutRating(values: map<string, Value>)
    ensures PreparedValues(values["rating" := Str("")]) == PreparedValues(values)["rating" := Undefined]
  {
    var q := PreparedValues(values["rating" := Str("")]);
    var p := PreparedValues(values)["rating" := Undefined];
    assert q.Keys == p.Keys;
    forall k | k in q ensures q[k] == p[k] {
      assert Field(q, k) == q[k] && Field(p, k) == p[k];
    }
  }

  /** Values that differ only in an undefined rating fail the same rules,
      except the rating rule. */
  lemma SchemaErrorsWithoutRating(p: map<string, Value>, isUrl: string -> bool)
    ensures SchemaErrors(p["rating" := Undefined], isUrl) == SchemaErrors(p, isUrl) - {Rating}
  {
    var q := p["rating" := Undefined];
    TopErrorsWithoutRating(p, q, isUrl);
    assert Field(q, "location") == Field(p, "location") && Field(q, "meta") == Field(p, "meta");
    SchemaErrorsParts(p, isUrl);
    SchemaErrorsParts(q, isUrl);
    var rest := LocationErrors(Field(p, "location")) + MetaErrors(Field(p, "meta"));
    UnionWithout(TopErrors(p, isUrl), TopErrors(q, isUrl), rest, Rating);
  }

  /** The schema's errors are those of the top-level fields, the location and
      the amenities. */
  lemma SchemaErrorsParts(values: map<string, Value>, isUrl: string -> bool)
    ensures SchemaErrors(values, isUrl) ==
      TopErrors(values, isUrl) + (LocationErrors(Field(values, "location")) + MetaErrors(Field(values, "meta")))
  {
  }

  /** Removing a path the rest does not hold commutes with adding the rest. */
  lemma UnionWithout(a: set<Path>, b: set<Path>, rest: set<Path>, x: Path)
    requires b == a - {x} && x !in rest
    ensures b + rest == (a + rest) - {x}
  {
  }

  /** Top-level errors of values that differ only in an undefined rating. */
  lemma TopErrorsWithoutRating(p: map<string, Value>, q: map<string, Value>, isUrl: string -> bool)
    requires q == p["rating" := Undefined]
    ensures TopErrors(q, isUrl) == TopErrors(p, isUrl) - {Rating}
  {
    assert Field(q, "rating") == Undefined;
    assert Field(q, "name") == Field(p, "name") && Field(q, "description") == Field(p, "description");
    assert Field(q, "price") == Field(p, "price") && Field(q, "maxGuests") == Field(p, "maxGuests");
    assert Field(q, "media") == Field(p, "media");
    var topP := TopErrors(p, isUrl);
    var topQ := TopErrors(q, isUrl);
    forall e | e in topQ ensures e in topP && e != Rating {
      assert e in {Name, Description, Price, MaxGuests, Media, Rating};
    }
    forall e | e in topP && e != Rating ensures e in topQ {
      assert e in {Name, Description, Price, MaxGuests, Media, Rating};
    }
  }

  // ---------------------------------------------------------------------
  // Submit outcome

  const GenericSubmitError := "An error occurred, try again."

  /** What the submit handler does with the server's answer. */
  datatype SubmitEffect =
    | Navigate(path: string, callsOnSubmit: bool)   // reset the form, go to the venue page
    | Alert(message: Value)                         // window alert with this message
    | NoEffect                                      // an exception was caught and logged

  /** The parsed body, or None when `fetch` or `response.json()` threw.
      The status is never looked at. */
  function ResponseJson(reply: Reply): Option<Value> {
    match reply
    case NetworkFailure(_) => None
    case Response(_, _, body) => Parse(body)
  }

  /** The first error's message, when the body has a non-empty `errors` list;
      None for no such list; Some(None) when reading the message throws. */
  function FirstErrorMessage(json: Value): Option<Option<Value>>
    requires !json.Undefined? && !json.Null?
  {
    var errors := Prop(json, "errors").value;
    var length := if Truthy(errors) then Prop(errors, "length") else None;
    if length.Some? && length.value.Num? && length.value.n > 0 then
      var first := Element(errors, 0).value;
      Some(Prop(first, "message"))
    else None
  }

  /** The submit handler's reaction to the reply: a truthy `id` resets the form
      and navigates to the new venue (calling `onSubmit` only when it is a
      function); else the first of a non-empty `errors` list is alerted; else
      a generic alert. Whatever throws on the way is caught and does nothing. */
  function SubmitEffectOf(reply: Reply, onSubmitIsFunction: bool): (e: SubmitEffect)
    ensures e.Navigate? <==>
      ResponseJson(reply).Some? && Prop(ResponseJson(reply).value, "id").Some?
      && Truthy(Prop(ResponseJson(reply).value, "id").value)
    ensures e.Navigate? ==>
      e.path == "/venue/" + TemplateText(ResponseJson(reply).value.props["id"])
      && e.callsOnSubmit == onSubmitIsFunction
    ensures
      && ResponseJson(reply).Some? && Prop(ResponseJson(reply).value, "id").Some?
      && !Truthy(Prop(ResponseJson(reply).value, "id").value)
      ==> match FirstErrorMessage(ResponseJson(reply).value)
          case None => e == Alert(Str(GenericSubmitError))
          case Some(None) => e == NoEffect
          case Some(Some(message)) => e == Alert(message)
    ensures ResponseJson(reply).None? ==> e == NoEffect
  {
    match ResponseJson(reply)
    case None => NoEffect
    case Some(json) =>
      match Prop(json, "id")
      case None => NoEffect
      case Some(id) =>
        if Truthy(id) then Navigate("/venue/" + TemplateText(id), onSubmitIsFunction)
        else match FirstErrorMessage(json)
          case None => Alert(Str(GenericSubmitError))
          case Some(None) => NoEffect
          case Some(Some(message)) => Alert(message)
  }

  /** A body with a truthy `id` is an object (or array/string with such a
      property); for the usual object body the path names that id. */
  lemma NavigatesToCreatedVenue(reply: Reply, id: string, onSubmitIsFunction: bool)
    requires reply.Response? && reply.body.Encoded? && reply.body.value.Obj?
    requires "id" in reply.body.value.props && reply.body.value.props["id"] == Str(id) && id != ""
    ensures SubmitEffectOf(reply, onSubmitIsFunction) == Navigate("/venue/" + id, onSubmitIsFunction)
  {
  }

  /** A body whose `id` is missing or falsy and whose `errors` list is
      non-empty alerts the message of the first error object, whatever else
      that object holds. */
  lemma AlertsFirstError(reply: Reply, errors: seq<Value>, message: Value, onSubmitIsFunction: bool)
    requires reply.Response? && reply.body.Encoded? && reply.body.value.Obj?
    requires !Truthy(Field(reply.body.value.props, "id"))
    requires "errors" in reply.body.value.props && reply.body.value.props["errors"] == Arr(errors)
    requires |errors| > 0 && errors[0].Obj? && Field(errors[0].props, "message") == message
    ensures SubmitEffectOf(reply, onSubmitIsFunction) == Alert(message)
  {
  }

  // ---------------------------------------------------------------------
  // The request both submit handlers send

  /** One `fetch` call: method, URL, headers and body text. */
  datatype VenueRequest = VenueRequest(verb: string, url: string, headers: map<string, string>, body: Text)

  /** The headers as both venue pages write them: the token is the raw text
      `localStorage.getItem("token")` returns (None when the key is absent,
      which the template prints as "null"), placed after "Bearer ". */
  function RawTokenHeaders(rawToken: Option<string>): (h: map<string, string>)
    ensures h.Keys == {"Content-Type", "Authorization"}
    ensures h["Content-Type"] == "application/json"
    ensures rawToken.None? ==> h["Authorization"] == "Bearer null"
    ensures rawToken.Some? ==> h["Authorization"] == "Bearer " + rawToken.value
  {
    map["Content-Type" := "application/json",
        "Authorization" := "Bearer " + (match rawToken case Some(t) => t case None => "null")]
  }

  /** The headers the venue pages evidently mean to send: the token as the
      session stores it, read back through `load`, with the bearer header
      exactly when that token is truthy, as `apiRequest` builds it. */
  function SessionHeaders(items: map<string, Text>): (h: map<string, string>)
    ensures h == RequestHeaders(LoadFrom(items, TokenKey))
    ensures "Authorization" in h <==> Truthy(LoadFrom(items, TokenKey))
  {
    RequestHeaders(LoadFrom(items, TokenKey))
  }

  /** After a login saved the string token t, the raw item holds the quoted
      text `JSON.stringify` wrote, so the pages send `Bearer "t"` where the
      session's own reading sends `Bearer t`; and with no token they send
      `Bearer null` where no bearer header is meant. */
  lemma RawTokenHeaderDiffers(items: map<string, Text>, user: Value, t: string)
    requires t != ""
    ensures var session := SavedSession(items, user, Str(t));
      && RawTokenHeaders(Some(QuotedJson(t)))["Authorization"] == "Bearer " + QuotedJson(t)
      && SessionHeaders(session)["Authorization"] == "Bearer " + t
      && RawTokenHeaders(Some(QuotedJson(t)))["Authorization"] != SessionHeaders(session)["Authorization"]
    ensures RawTokenHeaders(None)["Authorization"] == "Bearer null"
    ensures "Authorization" !in SessionHeaders(ClearedSession(items))
  {
    var session := SavedSession(items, user, Str(t));
    var mid := items[ProfileKey := Stringify(user)];
    LoadAfterSave(mid, TokenKey, Str(t));
    assert LoadFrom(session, TokenKey) == Str(t);
    assert |"Bearer " + QuotedJson(t)| != |"Bearer " + t|;
  }

  /** The intended headers carry exactly the token the last login saved. */
  lemma SessionHeadersAfterLogin(items: map<string, Text>, user: Value, t: string)
    requires t != ""
    ensures SessionHeaders(SavedSession(items, user, Str(t)))
      == map["Content-Type" := "application/json", "Authorization" := "Bearer " + t]
  {
    var mid := items[ProfileKey := Stringify(user)];
    LoadAfterSave(mid, TokenKey, Str(t));
  }

  // ---------------------------------------------------------------------
  // The formik state

  /** The values object of a venue form, its initial values, and the media
      list inside it. */
  class VenueFormState {
    const initialValues: map<string, Value>
    var values: map<string, Value>

    /** The values hold a media list (as both forms' initial values do). */
    ghost predicate Valid()
      reads this
    {
      "media" in initialValues && initialValues["media"].Arr?
      && "media" in values && values["media"].Arr?
    }

    function Media(): seq<Value>
      reads this
      requires Valid()
    {
      values["media"].items
    }

    constructor (initial: map<string, Value>)
      requires "media" in initial && initial["media"].Arr?
      ensures Valid() && initialValues == initial && values == initial
    {
      initialValues := initial;
      values := initial;
    }

    /** The add button: appends "" while fewer than five entries are shown;
        `shown` says whether the button was there to press. */
    method AddMedia() returns (shown: bool)
      requires Valid()
      modifies this
      ensures Valid()
      ensures shown == (|old(Media())| < MaxMedia)
      ensures Media() == ApplyMediaAction(old(Media()), Add)
      ensures values == old(values)["media" := Arr(Media())]
    {
      var next := AddMediaUrl(Media());
      shown := next.Some?;
      if shown {
        values := values["media" := Arr(next.value)];
      }
    }

    /** The remove button of entry `index`: shown only while there is more
        than one entry; it drops exactly that entry. */
    method RemoveMedia(index: int) returns (shown: bool)
      requires Valid()
      modifies this
      ensures Valid()
      ensures shown == (|old(Media())| > 1 && 0 <= index < |old(Media())|)
      ensures Media() == ApplyMediaAction(old(Media()), Remove(index))
      ensures values == old(values)["media" := Arr(Media())]
    {
      var next := RemoveMediaUrl(Media(), index);
      shown := next.Some?;
      if shown {
        values := values["media" := Arr(next.value)];
      }
    }

    /** Typing into the media field at `index`. */
    method EditMedia(index: int, text: string)
      requires Valid()
      modifies this
      ensures Valid()
      ensures Media() == ApplyMediaAction(old(Media()), Edit(index, text))
      ensures values == old(values)["media" := Arr(Media())]
    {
      if 0 <= index < |Media()| {
        values := values["media" := Arr(Media()[index := Str(text)])];
      }
    }

    /** `handleRatingChange`: only the rating changes. */
    method HandleRatingChange(value: string)
      requires Valid()
      modifies this
      ensures Valid()
      ensures values == old(values)["rating" := RatingFromSelection(value)]
    {
      values := values["rating" := RatingFromSelection(value)];
    }

    /** What the submit handler does to the form once the reply is in: the
        form is reset exactly when it navigates away. */
    method ApplySubmitReply(reply: Reply, onSubmitIsFunction: bool) returns (effect: SubmitEffect)
      requires Valid()
      modifies this
      ensures Valid()
      ensures effect == SubmitEffectOf(reply, onSubmitIsFunction)
      ensures values == if effect.Navigate? then initialValues else old(values)
    {
      effect := SubmitEffectOf(reply, onSubmitIsFunction);
      if effect.Navigate? {
        values := initialValues;
      }
    }
  }
}
