/**
 * The validation schema both venue forms declare (the create page and the
 * create/edit form carry identical copies): which fields a venue record must
 * have and the bounds on its numbers.
 *
 * Field values are JavaScript values. A number field holds a number; text in
 * a number field is not cast. formik does not hand the form values to yup as
 * they are: it first turns every empty string, at any depth, into undefined
 * (`Prepared`), so an emptied text or number field counts as absent.
 * The URL test yup applies is the parameter `isUrl`.
 */
module VenueSchema {
  import opened Js

  /** `yup.string().required()`: a non-empty string. */
  predicate RequiredString(v: Value) {
    v.Str? && v.s != ""
  }

  /** `yup.string()`: absent, or a string. */
  predicate OptionalString(v: Value) {
    v.Undefined? || v.Str?
  }

  /** `yup.number().required().min(lo)[.max(hi)]`. */
  predicate RequiredNumberIn(v: Value, lo: int, hi: Option<int>) {
    v.Num? && lo <= v.n && (hi.Some? ==> v.n <= hi.value)
  }

  /** `yup.number().min(lo).max(hi)`, optionally `.nullable()`. */
  predicate OptionalNumberIn(v: Value, lo: int, hi: int, nullable: bool) {
    v.Undefined? || (nullable && v.Null?) || (v.Num? && lo <= v.n <= hi)
  }

  /** `yup.boolean()`: absent, or a boolean. */
  predicate OptionalBool(v: Value) {
    v.Undefined? || v.Bool?
  }

  /** A media entry: `yup.string().url().notRequired()`; the URL test skips
      the empty string. */
  predicate MediaEntryOk(v: Value, isUrl: string -> bool) {
    v.Undefined? || v.Null? || (v.Str? && (v.s == "" || isUrl(v.s)))
  }

  /** A path yup reports an error under: a top-level field, the location or
      meta object itself, or one of their fields. */
  datatype Path =
    | Name | Description | Price | MaxGuests | Media | Rating
    | Location | LocationField(key: string)
    | Meta | MetaField(key: string)

  function Check(ok: bool, path: Path): (r: set<Path>)
    ensures r <= {path} && (path in r <==> !ok)
  {
    if ok then {} else {path}
  }

  /** The paths the location sub-schema reports. */
  function LocationErrors(location: Value): (errors: set<Path>)
    ensures forall p :: p in errors ==> p.Location? || p.LocationField?
    ensures location.Obj? ==>
      && (LocationField("lat") in errors <==> !OptionalNumberIn(Field(location.props, "lat"), -90, 90, false))
      && (LocationField("lng") in errors <==> !OptionalNumberIn(Field(location.props, "lng"), -180, 180, false))
  {
    if location.Undefined? then {}
    else if !location.Obj? then {Location}
    else
      var m := location.props;
      Check(OptionalString(Field(m, "address")), LocationField("address"))
      + Check(OptionalString(Field(m, "city")), LocationField("city"))
      + Check(OptionalString(Field(m, "zip")), LocationField("zip"))
      + Check(OptionalString(Field(m, "country")), LocationField("country"))
      + Check(OptionalString(Field(m, "continent")), LocationField("continent"))
      + Check(OptionalNumberIn(Field(m, "lat"), -90, 90, false), LocationField("lat"))
      + Check(OptionalNumberIn(Field(m, "lng"), -180, 180, false), LocationField("lng"))
  }

  /** The paths the meta sub-schema reports. */
  function MetaErrors(meta: Value): (errors: set<Path>)
    ensures forall p :: p in errors ==> p.Meta? || p.MetaField?
  {
    if meta.Undefined? then {}
    else if !meta.Obj? then {Meta}
    else
      var m := meta.props;
      Check(OptionalBool(Field(m, "wifi")), MetaField("wifi"))
      + Check(OptionalBool(Field(m, "parking")), MetaField("parking"))
      + Check(OptionalBool(Field(m, "breakfast")), MetaField("breakfast"))
      + Check(OptionalBool(Field(m, "pets")), MetaField("pets"))
  }

  /** `venueSchema`: the set of field paths that fail validation. */
  function SchemaErrors(values: map<string, Value>, isUrl: string -> bool): (errors: set<Path>)
    ensures Name in errors <==> !RequiredString(Field(values, "name"))
    ensures Description in errors <==> !RequiredString(Field(values, "description"))
    ensures Price in errors <==> !RequiredNumberIn(Field(values, "price"), 0, None)
    ensures MaxGuests in errors <==> !RequiredNumberIn(Field(values, "maxGuests"), 1, Some(100))
    ensures Rating in errors <==> !OptionalNumberIn(Field(values, "rating"), 0, 5, true)
    ensures Media in errors <==> !MediaOk(Field(values, "media"), isUrl)
    ensures forall p :: p in errors ==>
      p in TopErrors(values, isUrl) || p in LocationErrors(Field(values, "location")) || p in MetaErrors(Field(values, "meta"))
    ensures var l := Field(values, "location");
      l.Obj? ==> (LocationField("lat") in errors <==> !OptionalNumberIn(Field(l.props, "lat"), -90, 90, false))
    ensures var l := Field(values, "location");
      l.Obj? ==> (LocationField("lng") in errors <==> !OptionalNumberIn(Field(l.props, "lng"), -180, 180, false))
  {
    var top := TopErrors(values, isUrl);
    var location := LocationErrors(Field(values, "location"));
    var meta := MetaErrors(Field(values, "meta"));
    TopHoldsNoCoordinate(top);
    NestedHoldNoTopPath(location, meta);
    top + (location + meta)
  }

  /** Top-level paths are not coordinate paths. */
  lemma TopHoldsNoCoordinate(top: set<Path>)
    requires forall p :: p in top ==> p in {Name, Description, Price, MaxGuests, Media, Rating}
    ensures LocationField("lat") !in top && LocationField("lng") !in top
  {
  }

  /** The location and meta sub-schemas report no top-level path, and the
      coordinates only through the location. */
  lemma NestedHoldNoTopPath(location: set<Path>, meta: set<Path>)
    requires forall p :: p in location ==> p.Location? || p.LocationField?
    requires forall p :: p in meta ==> p.Meta? || p.MetaField?
    ensures Name !in location + meta && Description !in location + meta && Price !in location + meta
    ensures MaxGuests !in location + meta && Rating !in location + meta && Media !in location + meta
    ensures LocationField("lat") in location + meta <==> LocationField("lat") in location
    ensures LocationField("lng") in location + meta <==> LocationField("lng") in location
  {
  }

  /** `yup.array().of(entry).required()`: an array whose every entry passes. */
  predicate MediaOk(media: Value, isUrl: string -> bool) {
    media.Arr? && forall i :: 0 <= i < |media.items| ==> MediaEntryOk(media.items[i], isUrl)
  }

  /** The paths of the top-level fields that fail. */
  function TopErrors(values: map<string, Value>, isUrl: string -> bool): (errors: set<Path>)
    ensures forall p :: p in errors ==> p in {Name, Description, Price, MaxGuests, Media, Rating}
    ensures Name in errors <==> !RequiredString(Field(values, "name"))
    ensures Description in errors <==> !RequiredString(Field(values, "description"))
    ensures Price in errors <==> !RequiredNumberIn(Field(values, "price"), 0, None)
    ensures MaxGuests in errors <==> !RequiredNumberIn(Field(values, "maxGuests"), 1, Some(100))
    ensures Rating in errors <==> !OptionalNumberIn(Field(values, "rating"), 0, 5, true)
    ensures Media in errors <==> !MediaOk(Field(values, "media"), isUrl)
  {
    Check(RequiredString(Field(values, "name")), Name)
    + Check(RequiredString(Field(values, "description")), Description)
    + Check(RequiredNumberIn(Field(values, "price"), 0, None), Price)
    + Check(RequiredNumberIn(Field(values, "maxGuests"), 1, Some(100)), MaxGuests)
    + Check(MediaOk(Field(values, "media"), isUrl), Media)
    + Check(OptionalNumberIn(Field(values, "rating"), 0, 5, true), Rating)
  }

  // ---------------------------------------------------------------------
  // What formik hands to the schema

  /** formik's `prepareDataForValidation`: every empty string inside plain
      objects and arrays becomes undefined; everything else is kept. */
  function Prepared(v: Value): (p: Value)
    ensures Truthy(p) <==> Truthy(v)
    ensures v == Str("") ==> p == Undefined
    ensures !v.Arr? && !v.Obj? && v != Str("") ==> p == v
    ensures v.Arr? ==> (p.Arr? && |p.items| == |v.items|
      && forall i :: 0 <= i < |v.items| ==> p.items[i] == Prepared(v.items[i]))
    ensures v.Obj? ==> (p.Obj? && p.props.Keys == v.props.Keys
      && forall k :: k in v.props ==> p.props[k] == Prepared(v.props[k]))
  {
    match v
    case Str(s) => if s == "" then Undefined else v
    case Arr(items) => Arr(seq(|items|, i requires 0 <= i < |items| => Prepared(items[i])))
    case Obj(m) => Obj(map k | k in m :: Prepared(m[k]))
    case _ => v
  }

  /** The prepared form values, field by field. */
  function PreparedValues(values: map<string, Value>): (p: map<string, Value>)
    ensures p.Keys == values.Keys
    ensures forall k :: Field(p, k) == Prepared(Field(values, k))
  {
    map k | k in values :: Prepared(values[k])
  }

  /** No empty string is left anywhere in a prepared value. */
  predicate NoEmptyText(v: Value) {
    match v
    case Str(s) => s != ""
    case Arr(items) => forall i :: 0 <= i < |items| ==> NoEmptyText(items[i])
    case Obj(m) => forall k :: k in m ==> NoEmptyText(m[k])
    case _ => true
  }

  /** Preparing removes every empty string, and a value with none is left
      as it is; so preparing twice is preparing once. */
  lemma {:induction false} PreparedRemovesEmptyText(v: Value)
    ensures NoEmptyText(Prepared(v))
    ensures NoEmptyText(v) ==> Prepared(v) == v
  {
    match v
    case Arr(items) =>
      var p := Prepared(v).items;
      forall i | 0 <= i < |items|
        ensures NoEmptyText(p[i]) && (NoEmptyText(items[i]) ==> p[i] == items[i])
      {
        PreparedRemovesEmptyText(items[i]);
      }
    case Obj(m) =>
      var p := Prepared(v).props;
      forall k | k in m
        ensures NoEmptyText(p[k]) && (NoEmptyText(m[k]) ==> p[k] == m[k])
      {
        PreparedRemovesEmptyText(m[k]);
      }
    case _ =>
  }

  /** Preparing twice is preparing once: formik may validate the same values
      again without changing the outcome. */
  lemma PreparedIdempotent(v: Value)
    ensures Prepared(Prepared(v)) == Prepared(v)
  {
    PreparedRemovesEmptyText(v);
    PreparedRemovesEmptyText(Prepared(v));
  }

  /** A media entry passes after preparation exactly when it passes as it is:
      the URL test already skips the empty string. */
  lemma MediaEntryOkPrepared(v: Value, isUrl: string -> bool)
    ensures MediaEntryOk(Prepared(v), isUrl) <==> MediaEntryOk(v, isUrl)
  {
  }

  /** The errors formik reports: the schema applied to the prepared values.
      Text and number fields read as they are, except that an emptied rating,
      latitude or longitude counts as absent and is accepted. */
  function FormErrors(values: map<string, Value>, isUrl: string -> bool): (errors: set<Path>)
    ensures errors == SchemaErrors(PreparedValues(values), isUrl)
    ensures Name in errors <==> !RequiredString(Field(values, "name"))
    ensures Description in errors <==> !RequiredString(Field(values, "description"))
    ensures Price in errors <==> !RequiredNumberIn(Field(values, "price"), 0, None)
    ensures MaxGuests in errors <==> !RequiredNumberIn(Field(values, "maxGuests"), 1, Some(100))
    ensures Rating in errors <==>
      !(OptionalNumberIn(Field(values, "rating"), 0, 5, true) || Field(values, "rating") == Str(""))
    ensures Media in errors <==> !MediaOk(Field(values, "media"), isUrl)
    ensures var l := Field(values, "location");
      l.Obj? ==> (LocationField("lat") in errors <==>
        !(OptionalNumberIn(Field(l.props, "lat"), -90, 90, false) || Field(l.props, "lat") == Str("")))
    ensures var l := Field(values, "location");
      l.Obj? ==> (LocationField("lng") in errors <==>
        !(OptionalNumberIn(Field(l.props, "lng"), -180, 180, false) || Field(l.props, "lng") == Str("")))
  {
    var p := PreparedValues(values);
    PreparedFieldsChecked(values, isUrl);
    PreparedChecks(Field(values, "name"));
    PreparedChecks(Field(values, "description"));
    PreparedChecks(Field(values, "price"));
    PreparedChecks(Field(values, "maxGuests"));
    PreparedChecks(Field(values, "rating"));
    var l := Field(values, "location");
    if l.Obj? then
      PreparedChecks(Field(l.props, "lat"));
      PreparedChecks(Field(l.props, "lng"));
      SchemaErrors(p, isUrl)
    else
      SchemaErrors(p, isUrl)
  }

  /** How preparation changes the outcome of each field rule: only an empty
      string changes, and it then counts as absent. */
  lemma PreparedChecks(v: Value)
    ensures RequiredString(Prepared(v)) <==> RequiredString(v)
    ensures forall lo, hi :: RequiredNumberIn(Prepared(v), lo, hi) <==> RequiredNumberIn(v, lo, hi)
    ensures forall lo, hi, nullable ::
      OptionalNumberIn(Prepared(v), lo, hi, nullable) <==> OptionalNumberIn(v, lo, hi, nullable) || v == Str("")
  {
  }

  /** The media entries, latitude and longitude of the prepared values pass
      exactly when the originals pass or were emptied. */
  lemma PreparedFieldsChecked(values: map<string, Value>, isUrl: string -> bool)
    ensures MediaOk(Field(PreparedValues(values), "media"), isUrl) <==> MediaOk(Field(values, "media"), isUrl)
    ensures var l := Field(values, "location"); var pl := Field(PreparedValues(values), "location");
      l.Obj? ==> (pl.Obj?
        && Field(pl.props, "lat") == Prepared(Field(l.props, "lat"))
        && Field(pl.props, "lng") == Prepared(Field(l.props, "lng")))
  {
    var p := PreparedValues(values);
    var media := Field(values, "media");
    if media.Arr? {
      var pm := Field(p, "media");
      assert pm == Prepared(media);
      forall i | 0 <= i < |media.items|
        ensures MediaEntryOk(pm.items[i], isUrl) <==> MediaEntryOk(media.items[i], isUrl)
      {
        MediaEntryOkPrepared(media.items[i], isUrl);
      }
    }
    var l := Field(values, "location");
    if l.Obj? {
      assert Field(p, "location") == Prepared(l);
    }
  }

  /** A field of a prepared object is the prepared field. */
  lemma PreparedField(v: Value, k: string)
    requires v.Obj?
    ensures Field(Prepared(v).props, k) == Prepared(Field(v.props, k))
  {
  }

  /** Preparing a location object never makes it fail a rule it passed: an
      emptied text or coordinate reads as absent. */
  lemma PreparedLocationAddsNoError(l: Value)
    ensures LocationErrors(Prepared(l)) <= LocationErrors(l)
  {
    if l.Obj? {
      var pl := Prepared(l);
      PreparedTextField(l, "address");
      PreparedTextField(l, "city");
      PreparedTextField(l, "zip");
      PreparedTextField(l, "country");
      PreparedTextField(l, "continent");
      PreparedField(l, "lat");
      PreparedField(l, "lng");
      PreparedChecks(Field(l.props, "lat"));
      PreparedChecks(Field(l.props, "lng"));
      LocationErrorsMonotone(l, pl);
    }
  }

  /** An optional text field still passes once prepared. */
  lemma PreparedTextField(v: Value, k: string)
    requires v.Obj?
    ensures Prepared(v).Obj?
    ensures OptionalString(Field(v.props, k)) ==> OptionalString(Field(Prepared(v).props, k))
  {
    PreparedField(v, k);
  }

  /** A location object whose every field passes whenever the same field of
      another passes reports no path the other does not. */
  lemma LocationErrorsMonotone(a: Value, b: Value)
    requires a.Obj? && b.Obj?
    requires OptionalString(Field(a.props, "address")) ==> OptionalString(Field(b.props, "address"))
    requires OptionalString(Field(a.props, "city")) ==> OptionalString(Field(b.props, "city"))
    requires OptionalString(Field(a.props, "zip")) ==> OptionalString(Field(b.props, "zip"))
    requires OptionalString(Field(a.props, "country")) ==> OptionalString(Field(b.props, "country"))
    requires OptionalString(Field(a.props, "continent")) ==> OptionalString(Field(b.props, "continent"))
    requires OptionalNumberIn(Field(a.props, "lat"), -90, 90, false) ==> OptionalNumberIn(Field(b.props, "lat"), -90, 90, false)
    requires OptionalNumberIn(Field(a.props, "lng"), -180, 180, false) ==> OptionalNumberIn(Field(b.props, "lng"), -180, 180, false)
    ensures LocationErrors(b) <= LocationErrors(a)
  {
  }

  /** Preparing a meta object never makes it fail a rule it passed. */
  lemma PreparedMetaAddsNoError(m: Value)
    ensures MetaErrors(Prepared(m)) <= MetaErrors(m)
  {
    if m.Obj? {
      PreparedField(m, "wifi");
      PreparedField(m, "parking");
      PreparedField(m, "breakfast");
      PreparedField(m, "pets");
    }
  }

  /** formik never reports an error yup would not report on the values as
      they are: preparation only lets emptied fields through. */
  lemma PreparationAddsNoError(values: map<string, Value>, isUrl: string -> bool)
    ensures FormErrors(values, isUrl) <= SchemaErrors(values, isUrl)
  {
    var p := PreparedValues(values);
    PreparedLocationAddsNoError(Field(values, "location"));
    PreparedMetaAddsNoError(Field(values, "meta"));
    assert Field(p, "location") == Prepared(Field(values, "location"));
    assert Field(p, "meta") == Prepared(Field(values, "meta"));
    forall e | e in FormErrors(values, isUrl) ensures e in SchemaErrors(values, isUrl) {
      if e in TopErrors(p, isUrl) {
        assert e in {Name, Description, Price, MaxGuests, Media, Rating};
      }
    }
  }

  /** The form may be submitted: formik reports no error. */
  predicate Accepts(values: map<string, Value>, isUrl: string -> bool) {
    FormErrors(values, isUrl) == {}
  }

  /** What the values of a form formik lets through satisfy: name and
      description are present, price is at least 0, maxGuests lies in
      1..100, rating is absent, null, emptied ("") or in 0..5, every media
      entry is empty or a URL, and latitude and longitude, when given and not
      emptied, are on the globe. */
  lemma AcceptedBounds(values: map<string, Value>, isUrl: string -> bool)
    requires Accepts(values, isUrl)
    ensures RequiredString(Field(values, "name")) && RequiredString(Field(values, "description"))
    ensures Field(values, "price").Num? && Field(values, "price").n >= 0
    ensures Field(values, "maxGuests").Num? && 1 <= Field(values, "maxGuests").n <= 100
    ensures var r := Field(values, "rating");
      r.Undefined? || r.Null? || r == Str("") || (r.Num? && 0 <= r.n <= 5)
    ensures MediaOk(Field(values, "media"), isUrl)
    ensures var l := Field(values, "location");
      l.Obj? ==>
        && (OptionalNumberIn(Field(l.props, "lat"), -90, 90, false) || Field(l.props, "lat") == Str(""))
        && (OptionalNumberIn(Field(l.props, "lng"), -180, 180, false) || Field(l.props, "lng") == Str(""))
  {
    var e := FormErrors(values, isUrl);
    assert Name !in e && Description !in e && Price !in e && MaxGuests !in e;
    assert Rating !in e && Media !in e;
    assert LocationField("lat") !in e && LocationField("lng") !in e;
  }

  /** Each out-of-range number is reported under its own path. */
  lemma OutOfRangeReported(values: map<string, Value>, isUrl: string -> bool)
    ensures var p := Field(values, "price"); p.Num? && p.n < 0 ==> Price in FormErrors(values, isUrl)
    ensures var g := Field(values, "maxGuests");
      g.Num? && (g.n < 1 || g.n > 100) ==> MaxGuests in FormErrors(values, isUrl)
    ensures var r := Field(values, "rating");
      r.Num? && (r.n < 0 || r.n > 5) ==> Rating in FormErrors(values, isUrl)
    ensures var l := Field(values, "location");
      l.Obj? && Field(l.props, "lat").Num? && (Field(l.props, "lat").n < -90 || Field(l.props, "lat").n > 90)
      ==> LocationField("lat") in FormErrors(values, isUrl)
    ensures var l := Field(values, "location");
      l.Obj? && Field(l.props, "lng").Num? && (Field(l.props, "lng").n < -180 || Field(l.props, "lng").n > 180)
      ==> LocationField("lng") in FormErrors(values, isUrl)
  {
  }
}
