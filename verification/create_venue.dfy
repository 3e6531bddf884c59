/**
 * The create-venue page: its fixed initial values and the payload its submit
 * handler builds from the form values.
 */
module CreateVenue {
  import opened Js
  import opened Storage
  import opened ApiHelper
  import opened VenueSchema
  import opened VenueFormik

  const LocationKeys: set<string> := {"address", "city", "zip", "country", "continent", "lat", "lng"}
  const MetaKeys: set<string> := {"wifi", "parking", "breakfast", "pets"}
  const PayloadKeys: set<string> := {"name", "description", "media", "price", "maxGuests", "rating", "location", "meta"}

  /** The initial location: empty texts and the coordinates 0, 0. */
  const InitialLocation: map<string, Value> := map[
    "address" := Str(""), "city" := Str(""), "zip" := Str(""),
    "country" := Str(""), "continent" := Str(""),
    "lat" := Num(0), "lng" := Num(0)]

  /** The initial amenities: all false. */
  const InitialMeta: map<string, Value> := map[
    "wifi" := Bool(false), "parking" := Bool(false),
    "breakfast" := Bool(false), "pets" := Bool(false)]

  /** The page's initial values. */
  const InitialValues: map<string, Value> := map[
    "name" := Str(""),
    "description" := Str(""),
    "price" := Num(0),
    "maxGuests" := Num(0),
    "rating" := Num(0),
    "media" := Arr([Str("")]),
    "meta" := Obj(InitialMeta),
    "location" := Obj(InitialLocation)
  ]

  /** The initial location and amenities pass their sub-schemas. */
  lemma InitialLocationAndMetaAccepted()
    ensures LocationErrors(Obj(InitialLocation)) == {}
    ensures MetaErrors(Obj(InitialMeta)) == {}
  {
    var l := InitialLocation;
    assert Field(l, "lat") == Num(0) && Field(l, "lng") == Num(0);
    assert Field(l, "address") == Str("") && Field(l, "city") == Str("") && Field(l, "zip") == Str("");
    assert Field(l, "country") == Str("") && Field(l, "continent") == Str("");
    var m := InitialMeta;
    assert Field(m, "wifi") == Bool(false) && Field(m, "parking") == Bool(false);
    assert Field(m, "breakfast") == Bool(false) && Field(m, "pets") == Bool(false);
  }

  /** The field values of the initial form, one by one. */
  lemma InitialFields()
    ensures Field(InitialValues, "name") == Str("") && Field(InitialValues, "description") == Str("")
    ensures Field(InitialValues, "price") == Num(0) && Field(InitialValues, "maxGuests") == Num(0)
    ensures Field(InitialValues, "rating") == Num(0) && Field(InitialValues, "media") == Arr([Str("")])
    ensures Field(InitialValues, "location") == Obj(InitialLocation)
    ensures Field(InitialValues, "meta") == Obj(InitialMeta)
  {
  }

  /** The errors of any values whose fields are those of the initial form. */
  lemma ErrorsOfInitialFields(v: map<string, Value>, isUrl: string -> bool)
    requires Field(v, "name") == Str("") && Field(v, "description") == Str("")
    requires Field(v, "price") == Num(0) && Field(v, "maxGuests") == Num(0)
    requires Field(v, "rating") == Num(0) && Field(v, "media") == Arr([Str("")])
    requires LocationErrors(Field(v, "location")) == {} && MetaErrors(Field(v, "meta")) == {}
    ensures FormErrors(v, isUrl) == {Name, Description, MaxGuests}
  {
    var top := TopErrors(v, isUrl);
    assert MediaOk(Field(v, "media"), isUrl) by {
      var media := Field(v, "media");
      assert forall i :: 0 <= i < |media.items| ==> MediaEntryOk(media.items[i], isUrl);
    }
    assert Price !in top && Rating !in top && Media !in top;
    assert top <= {Name, Description, MaxGuests};
    assert SchemaErrors(v, isUrl) <= {Name, Description, MaxGuests};
    PreparationAddsNoError(v, isUrl);
    var f := FormErrors(v, isUrl);
    assert Name in f && Description in f && MaxGuests in f;
  }

  /** The untouched form does not pass its own schema: name and description
      are empty and a maximum of 0 guests is below the minimum of 1. */
  lemma InitialValuesRejected(isUrl: string -> bool)
    ensures FormErrors(InitialValues, isUrl) == {Name, Description, MaxGuests}
  {
    InitialFields();
    InitialLocationAndMetaAccepted();
    ErrorsOfInitialFields(InitialValues, isUrl);
  }

  // ---------------------------------------------------------------------
  // Media filtering

  /** `media.filter(url => url.trim() !== '')`: the entries that are not
      blank, in their order. */
  function FilterBlank(media: seq<string>): (kept: seq<string>)
    ensures |kept| <= |media|
    ensures forall s :: s in kept ==> s in media && Trim(s) != ""
  {
    if media == [] then []
    else (if Trim(media[0]) != "" then [media[0]] else []) + FilterBlank(media[1..])
  }

  /** Filtering a concatenation filters each part. */
  lemma {:induction false} FilterBlankConcat(a: seq<string>, b: seq<string>)
    ensures FilterBlank(a + b) == FilterBlank(a) + FilterBlank(b)
  {
    if a != [] {
      assert (a + b)[1..] == a[1..] + b;
      FilterBlankConcat(a[1..], b);
    } else {
      assert a + b == b;
    }
  }

  /** An entry is kept exactly when it occurs in the input and is not made
      of white space only; nothing is added. */
  lemma {:induction false} FilterBlankMembership(media: seq<string>, s: string)
    ensures s in FilterBlank(media) <==> s in media && !Blank(s)
  {
    if media != [] {
      FilterBlankMembership(media[1..], s);
      TrimEmptyIffBlank(media[0]);
      assert media == [media[0]] + media[1..];
    }
  }

  /** Filtering never lengthens the list, and keeps it whole exactly when
      no entry is blank. */
  lemma {:induction false} FilterBlankLength(media: seq<string>)
    ensures |FilterBlank(media)| <= |media|
    ensures |FilterBlank(media)| == |media| <==> forall i :: 0 <= i < |media| ==> !Blank(media[i])
  {
    if media != [] {
      FilterBlankLength(media[1..]);
      TrimEmptyIffBlank(media[0]);
      if |FilterBlank(media)| == |media| {
        forall i | 0 <= i < |media| ensures !Blank(media[i]) {
          if i > 0 {
            assert media[i] == media[1..][i - 1];
          }
        }
      }
      if forall i :: 0 <= i < |media| ==> !Blank(media[i]) {
        forall i | 0 <= i < |media[1..]| ensures !Blank(media[1..][i]) {
          assert media[1..][i] == media[i + 1];
        }
      }
    }
  }

  // ---------------------------------------------------------------------
  // The payload

  /** The media entries as strings, or None when one of them is not a
      string (`trim` is then not a function and the handler throws). */
  function MediaStrings(media: seq<Value>): (r: Option<seq<string>>)
    ensures r.Some? <==> forall i :: 0 <= i < |media| ==> media[i].Str?
    ensures r.Some? ==> |r.value| == |media| && forall i :: 0 <= i < |media| ==> media[i] == Str(r.value[i])
  {
    if media == [] then Some([])
    else match MediaStrings(media[1..])
      case None => None
      case Some(rest) => if media[0].Str? then Some([media[0].s] + rest) else None
  }

  /** Reading the listed keys of `obj`, or None when `obj` is null or
      undefined (the property reads then throw). */
  function Pick(obj: Value, keys: set<string>): (r: Option<Value>)
    ensures r.Some? <==> !obj.Undefined? && !obj.Null?
    ensures r.Some? ==> r.value.Obj? && r.value.props.Keys == keys
    ensures r.Some? ==> forall k :: k in keys ==> Prop(obj, k) == Some(r.value.props[k])
  {
    if obj.Undefined? || obj.Null? then None
    else Some(Obj(map k | k in keys :: Prop(obj, k).value))
  }

  /** The media list that is sent: the kept entries as strings. */
  function MediaPayload(urls: seq<string>): (m: Value)
    ensures m.Arr? && |m.items| == |FilterBlank(urls)|
    ensures forall i :: 0 <= i < |m.items| ==> m.items[i] == Str(FilterBlank(urls)[i])
  {
    var kept := FilterBlank(urls);
    Arr(seq(|kept|, i requires 0 <= i < |kept| => Str(kept[i])))
  }

  /** The payload object once every part has been read. */
  function Payload(values: map<string, Value>, media: Value, location: Value, meta: Value): (p: map<string, Value>)
    ensures p.Keys == PayloadKeys
    ensures p["name"] == Field(values, "name") && p["description"] == Field(values, "description")
    ensures p["price"] == Field(values, "price") && p["maxGuests"] == Field(values, "maxGuests")
    ensures p["rating"] == (if Field(values, "rating").Undefined? then Num(0) else Field(values, "rating"))
    ensures p["media"] == media && p["location"] == location && p["meta"] == meta
  {
    var rating := Field(values, "rating");
    map[
      "name" := Field(values, "name"),
      "description" := Field(values, "description"),
      "media" := media,
      "price" := Field(values, "price"),
      "maxGuests" := Field(values, "maxGuests"),
      "rating" := if rating.Undefined? then Num(0) else rating,
      "location" := location,
      "meta" := meta]
  }

  /** The object the submit handler stringifies, or None when building it
      throws: media not an array of strings, or location or meta missing. */
  function CreatePayload(values: map<string, Value>): (r: Option<Value>)
    ensures r.Some? <==>
      && Field(values, "media").Arr? && MediaStrings(Field(values, "media").items).Some?
      && !Field(values, "location").Undefined? && !Field(values, "location").Null?
      && !Field(values, "meta").Undefined? && !Field(values, "meta").Null?
    ensures r.Some? ==> r.value.Obj? && r.value.props.Keys == PayloadKeys
    ensures r.Some? ==>
      var p := r.value.props;
      && p["name"] == Field(values, "name")
      && p["description"] == Field(values, "description")
      && p["price"] == Field(values, "price")
      && p["maxGuests"] == Field(values, "maxGuests")
      && p["rating"] == (if Field(values, "rating").Undefined? then Num(0) else Field(values, "rating"))
      && p["media"] == MediaPayload(MediaStrings(Field(values, "media").items).value)
      && p["location"] == Pick(Field(values, "location"), LocationKeys).value
      && p["meta"] == Pick(Field(values, "meta"), MetaKeys).value
      && p["location"].Obj? && p["location"].props.Keys == LocationKeys
      && p["meta"].Obj? && p["meta"].props.Keys == MetaKeys
  {
    var media := Field(values, "media");
    if !media.Arr? then None
    else match MediaStrings(media.items)
      case None => None
      case Some(urls) =>
        match Pick(Field(values, "location"), LocationKeys)
        case None => None
        case Some(location) =>
          match Pick(Field(values, "meta"), MetaKeys)
          case None => None
          case Some(meta) => Some(Obj(Payload(values, MediaPayload(urls), location, meta)))
  }

  /** The media list sent is the form's list with the blank entries dropped:
      a URL is sent exactly when the form holds it and it is not blank. */
  lemma PayloadMedia(values: map<string, Value>, urls: seq<string>, s: string)
    requires CreatePayload(values).Some?
    requires MediaStrings(Field(values, "media").items) == Some(urls)
    ensures Str(s) in CreatePayload(values).value.props["media"].items <==> s in urls && !Blank(s)
  {
    assert CreatePayload(values).value.props["media"] == MediaPayload(urls);
    MediaPayloadMembership(urls, s);
    FilterBlankMembership(urls, s);
  }

  /** A text is in the media list sent exactly when it is a kept URL. */
  lemma MediaPayloadMembership(urls: seq<string>, s: string)
    ensures Str(s) in MediaPayload(urls).items <==> s in FilterBlank(urls)
  {
    if Str(s) in MediaPayload(urls).items {
      SentIsKept(urls, s);
    }
    if s in FilterBlank(urls) {
      KeptIsSent(urls, s);
    }
  }

  lemma SentIsKept(urls: seq<string>, s: string)
    requires Str(s) in MediaPayload(urls).items
    ensures s in FilterBlank(urls)
  {
    var sent := MediaPayload(urls).items;
    var i :| 0 <= i < |sent| && sent[i] == Str(s);
    assert FilterBlank(urls)[i] == s;
  }

  lemma KeptIsSent(urls: seq<string>, s: string)
    requires s in FilterBlank(urls)
    ensures Str(s) in MediaPayload(urls).items
  {
    var kept := FilterBlank(urls);
    var i :| 0 <= i < |kept| && kept[i] == s;
    assert MediaPayload(urls).items[i] == Str(s);
  }

  /** The untouched form's payload: the single empty media entry is dropped
      and the zero rating is kept. */
  lemma InitialPayload()
    ensures CreatePayload(InitialValues).Some?
    ensures CreatePayload(InitialValues).value.props["media"] == Arr([])
    ensures CreatePayload(InitialValues).value.props["rating"] == Num(0)
  {
    InitialFields();
    PayloadOfInitialFields(InitialValues);
  }

  /** The payload of any values whose media, rating, location and meta are
      those of the initial form. */
  lemma PayloadOfInitialFields(v: map<string, Value>)
    requires Field(v, "media") == Arr([Str("")]) && Field(v, "rating") == Num(0)
    requires Field(v, "location").Obj? && Field(v, "meta").Obj?
    ensures CreatePayload(v).Some?
    ensures CreatePayload(v).value.props["media"] == Arr([])
    ensures CreatePayload(v).value.props["rating"] == Num(0)
  {
    assert [Str("")][1..] == [];
    assert MediaStrings([]) == Some([]);
    assert [""] + [] == [""];
    assert MediaStrings([Str("")]) == Some([""]);
    assert Trim("") == "";
    assert FilterBlank([""]) == [];
  }

  /** After "Select Rating" the handler sends the text "" as the rating,
      since it only defaults an undefined rating to 0; the payload is built
      exactly when it was built before. */
  lemma EmptiedRatingSent(values: map<string, Value>)
    ensures var emptied := values["rating" := RatingFromSelection("")];
      && (CreatePayload(emptied).Some? <==> CreatePayload(values).Some?)
      && (CreatePayload(emptied).Some? ==> CreatePayload(emptied).value.props["rating"] == Str(""))
  {
    var emptied := values["rating" := Str("")];
    assert Field(emptied, "rating") == Str("");
    assert Field(emptied, "media") == Field(values, "media");
    assert Field(emptied, "location") == Field(values, "location");
    assert Field(emptied, "meta") == Field(values, "meta");
  }

  /** The create page's submit handler: the payload goes to the venue
      collection by POST, and the reply is applied to the form (the page has
      no `onSubmit` callback). When building the payload throws, nothing is
      sent and the error is only logged. */
  method OnSubmitHandler(form: VenueFormState, collectionUrl: string, store: LocalStore, reply: Reply)
    returns (request: Option<VenueRequest>, effect: SubmitEffect)
    requires form.Valid()
    modifies form
    ensures form.Valid()
    ensures request.Some? <==> CreatePayload(old(form.values)).Some?
    ensures request.Some? ==>
      request.value == VenueRequest("POST", collectionUrl, SessionHeaders(store.items),
                                    Stringify(CreatePayload(old(form.values)).value))
    ensures effect == if request.Some? then SubmitEffectOf(reply, false) else NoEffect
    ensures form.values == if effect.Navigate? then form.initialValues else old(form.values)
  {
    var payload := CreatePayload(form.values);
    if payload.None? {
      request := None;
      effect := NoEffect;
    } else {
      request := Some(VenueRequest("POST", collectionUrl, SessionHeaders(store.items), Stringify(payload.value)));
      effect := form.ApplySubmitReply(reply, false);
    }
  }
}
