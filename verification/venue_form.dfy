/**
 * The shared create/edit venue form: where it sends the record, the values
 * it starts from, and its submit handler.
 */
module VenueForm {
  import opened Js
  import opened Storage
  import opened ApiHelper
  import opened VenueSchema
  import opened VenueFormik

  /** The HTTP method: PUT in edit mode, POST otherwise. */
  function SubmitVerb(mode: string): (verb: string)
    ensures verb == "PUT" <==> mode == "edit"
    ensures verb == "POST" <==> mode != "edit"
  {
    if mode == "edit" then "PUT" else "POST"
  }

  /** The URL: the record's own address in edit mode (its `id` printed by
      the template literal), the venue collection otherwise. */
  function SubmitUrl(mode: string, initialData: map<string, Value>, collectionUrl: string): (url: string)
    ensures mode != "edit" ==> url == collectionUrl
    ensures mode == "edit" ==> url == collectionUrl + "/" + TemplateText(Field(initialData, "id"))
  {
    if mode == "edit" then collectionUrl + "/" + TemplateText(Field(initialData, "id")) else collectionUrl
  }

  /** Editing two records with different string ids targets two different
      URLs, and the id can be read back from the end of the URL. */
  lemma EditUrlIdentifiesRecord(a: map<string, Value>, b: map<string, Value>, collectionUrl: string, x: string, y: string)
    requires Field(a, "id") == Str(x) && Field(b, "id") == Str(y)
    ensures var url := SubmitUrl("edit", a, collectionUrl);
      |url| >= |x| && url[|url| - |x|..] == x && url[..|url| - |x|] == collectionUrl + "/"
    ensures SubmitUrl("edit", a, collectionUrl) == SubmitUrl("edit", b, collectionUrl) <==> x == y
  {
    var u := SubmitUrl("edit", a, collectionUrl);
    var v := SubmitUrl("edit", b, collectionUrl);
    var prefix := collectionUrl + "/";
    assert u == prefix + x && v == prefix + y;
    assert u[|prefix|..] == x && v[|prefix|..] == y;
    if u == v {
      assert x == u[|prefix|..] == v[|prefix|..] == y;
    }
  }

  /** An edit form opened without a record id sends the record to
      ".../undefined". */
  lemma EditWithoutIdTargetsUndefined(initialData: map<string, Value>, collectionUrl: string)
    requires "id" !in initialData
    ensures SubmitUrl("edit", initialData, collectionUrl) == collectionUrl + "/undefined"
  {
  }

  /** formik's initial values: every field of the record, with an empty
      media entry, an empty location and an empty meta object standing in
      for missing (falsy) ones. */
  function InitialValues(initialData: map<string, Value>): (v: map<string, Value>)
    ensures v.Keys == initialData.Keys + {"media", "location", "meta"}
    ensures forall k :: k in initialData && k !in {"media", "location", "meta"} ==> v[k] == initialData[k]
    ensures v["media"] == if Truthy(Field(initialData, "media")) then initialData["media"] else Arr([Str("")])
    ensures v["location"] == if Truthy(Field(initialData, "location")) then initialData["location"] else Obj(map[])
    ensures v["meta"] == if Truthy(Field(initialData, "meta")) then initialData["meta"] else Obj(map[])
  {
    var media := Field(initialData, "media");
    var location := Field(initialData, "location");
    var meta := Field(initialData, "meta");
    initialData["media" := if Truthy(media) then media else Arr([Str("")])]
               ["location" := if Truthy(location) then location else Obj(map[])]
               ["meta" := if Truthy(meta) then meta else Obj(map[])]
  }

  /** Editing a stored venue starts from that venue unchanged. */
  lemma InitialValuesOfRecord(record: map<string, Value>)
    requires Field(record, "media").Arr? && Field(record, "location").Obj? && Field(record, "meta").Obj?
    ensures InitialValues(record) == record
  {
    var v := InitialValues(record);
    assert v.Keys == record.Keys;
    forall k | k in record ensures v[k] == record[k] {
    }
  }

  /** The errors of any values with no name, description, price, maxGuests
      or rating, one empty media entry and empty location and meta objects. */
  lemma ErrorsOfBlankFields(v: map<string, Value>, isUrl: string -> bool)
    requires Field(v, "name") == Undefined && Field(v, "description") == Undefined
    requires Field(v, "price") == Undefined && Field(v, "maxGuests") == Undefined
    requires Field(v, "rating") == Undefined && Field(v, "media") == Arr([Str("")])
    requires Field(v, "location") == Obj(map[]) && Field(v, "meta") == Obj(map[])
    ensures FormErrors(v, isUrl) == {Name, Description, Price, MaxGuests}
  {
    var top := TopErrors(v, isUrl);
    assert MediaOk(Field(v, "media"), isUrl) by {
      var media := Field(v, "media");
      assert forall i :: 0 <= i < |media.items| ==> MediaEntryOk(media.items[i], isUrl);
    }
    assert Rating !in top && Media !in top;
    assert top <= {Name, Description, Price, MaxGuests};
    assert LocationErrors(Field(v, "location")) == {};
    assert MetaErrors(Field(v, "meta")) == {};
    assert SchemaErrors(v, isUrl) <= {Name, Description, Price, MaxGuests};
    PreparationAddsNoError(v, isUrl);
    var f := FormErrors(v, isUrl);
    assert Name in f && Description in f && Price in f && MaxGuests in f;
  }

  /** A blank create form has one empty media entry and empty location and
      meta objects, and cannot be submitted: name, description, price and
      maxGuests are all reported. */
  lemma BlankFormRejected(isUrl: string -> bool)
    ensures InitialValues(map[]) == map["media" := Arr([Str("")]), "location" := Obj(map[]), "meta" := Obj(map[])]
    ensures FormErrors(InitialValues(map[]), isUrl) == {Name, Description, Price, MaxGuests}
  {
    var v := InitialValues(map[]);
    assert v.Keys == {"media", "location", "meta"};
    assert Field(v, "name") == Undefined && Field(v, "description") == Undefined;
    assert Field(v, "price") == Undefined && Field(v, "maxGuests") == Undefined && Field(v, "rating") == Undefined;
    ErrorsOfBlankFields(v, isUrl);
  }

  /** Mounting the form on a record: formik starts from the initial values. */
  method MountForm(initialData: map<string, Value>) returns (form: VenueFormState)
    requires !Truthy(Field(initialData, "media")) || Field(initialData, "media").Arr?
    ensures fresh(form) && form.Valid()
    ensures form.initialValues == InitialValues(initialData) && form.values == form.initialValues
  {
    form := new VenueFormState(InitialValues(initialData));
  }

  /** `onSubmitHandler`: sends the whole values object to the target of the
      mode and applies the reply to the form. The bearer token is read
      through `load`; see `VenueFormik.RawTokenHeaders` for how the page
      reads it. */
  method OnSubmitHandler(form: VenueFormState, mode: string, initialData: map<string, Value>,
                         collectionUrl: string, store: LocalStore, reply: Reply, onSubmitIsFunction: bool)
    returns (request: VenueRequest, effect: SubmitEffect)
    requires form.Valid()
    modifies form
    ensures form.Valid()
    ensures request.verb == SubmitVerb(mode)
    ensures request.url == SubmitUrl(mode, initialData, collectionUrl)
    ensures request.headers == SessionHeaders(store.items)
    ensures request.body == Stringify(Obj(old(form.values)))
    ensures effect == SubmitEffectOf(reply, onSubmitIsFunction)
    ensures form.values == if effect.Navigate? then form.initialValues else old(form.values)
  {
    request := VenueRequest(SubmitVerb(mode), SubmitUrl(mode, initialData, collectionUrl),
                            SessionHeaders(store.items), Stringify(Obj(form.values)));
    effect := form.ApplySubmitReply(reply, onSubmitIsFunction);
  }
}
