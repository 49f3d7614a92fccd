/**
 Properties that relate several facade operations, or an operation and its
 inverse: reading a base URL back, saving twice, retiring and unretiring in
 turn, and re-using a query bag.
 */
module EntityRestLemmas {
  import opened JsValues
  import opened RestCalls
  import opened EntityRest

  // ---------------------------------------------------------------------
  // Base URL

  /** In `v + "/" + r` with no `/` in `v`, the first `/` is the one right
      after `v`. */
  lemma {:induction false} IndexOfAfterVersion(v: string, r: string)
    requires '/' !in v
    ensures IndexOf(v + "/" + r, '/') == Some(|v|)
    decreases |v|
  {
    if v == [] {
      assert (v + "/" + r)[0] == '/';
    } else {
      assert (v + "/" + r)[1..] == v[1..] + "/" + r;
      IndexOfAfterVersion(v[1..], r);
    }
  }

  /** A base URL reads back as the version and resource it was built from,
      whenever the version holds no `/` (the resource may). */
  lemma BaseUrlRoundTrip(resource: string, version: string)
    requires '/' !in version
    ensures ParseBaseUrl(BaseUrl(resource, Some(version))) == Some((version, resource))
  {
    var url := BaseUrl(resource, Some(version));
    var rest := version + "/" + resource;
    assert url == RestPrefix + rest + "/";
    assert url[|RestPrefix|..|url| - 1] == rest;
    IndexOfAfterVersion(version, resource);
    assert rest[..|version|] == version && rest[|version| + 1..] == resource;
  }

  /** With no version given, the URL is the one for API version `v2`. */
  lemma BaseUrlDefaultVersion(resource: string)
    ensures ParseBaseUrl(BaseUrl(resource, None)) == Some(("v2", resource))
  {
    assert BaseUrl(resource, None) == BaseUrl(resource, Some("v2"));
    BaseUrlRoundTrip(resource, "v2");
  }

  /** Different resources, or different slash-free versions, never share a
      base URL. */
  lemma BaseUrlInjective(r1: string, v1: string, r2: string, v2: string)
    requires '/' !in v1 && '/' !in v2
    requires BaseUrl(r1, Some(v1)) == BaseUrl(r2, Some(v2))
    ensures r1 == r2 && v1 == v2
  {
    BaseUrlRoundTrip(r1, v1);
    BaseUrlRoundTrip(r2, v2);
  }

  // ---------------------------------------------------------------------
  // Saving

  /** Saving an object that was already cleaned by a save makes the same
      request again and leaves the object as it is. */
  lemma SaveOrUpdateIdempotent(baseParams: Bag, obj: Bag)
    ensures var once := SaveOrUpdateOutcome(baseParams, obj);
      SaveOrUpdateOutcome(baseParams, once.obj) == once
  {
    KeysDistinct();
    var once := SaveOrUpdateOutcome(baseParams, obj);
    var twice := SaveOrUpdateOutcome(baseParams, once.obj);
    if HasTargetUuid(obj) {
      assert HasTargetUuid(once.obj);
      assert once.obj == DeleteIfDefined(obj, PurgeKey);
      assert twice.obj == DeleteIfDefined(once.obj, PurgeKey) == once.obj;
    } else {
      assert !HasTargetUuid(once.obj);
      assert once.obj - {UuidKey} == once.obj;
      assert twice.obj == once.obj;
    }
  }

  // ---------------------------------------------------------------------
  // Retiring and unretiring

  /** Retiring with a reason and then unretiring the same object sends a
      delete carrying the reason, then a save of the object with the flag
      cleared and the reason gone; the second call fails no check but the
      ones about the name and the uuid. */
  lemma RetireThenUnretire(baseParams: Bag, obj: Bag)
    requires !Truthy(Lookup(obj, RetiredKey)) && IsDefined(obj, RetireReasonKey)
    ensures var first := RetireOrUnretireOutcome(baseParams, obj);
      var second := RetireOrUnretireOutcome(baseParams, first.obj);
      && first.call == Some(Remove(Lookup(baseParams, NameKey), Lookup(obj, UuidKey),
                                   map[ReasonKey := obj[RetireReasonKey]]))
      && second.call == Some(SaveOrUpdate(Lookup(baseParams, NameKey), Lookup(obj, UuidKey), second.obj))
      && second.obj[RetiredKey] == Bool(false)
      && !IsDefined(second.obj, RetireReasonKey) && !IsDefined(second.obj, PurgeKey)
      && second.obj - {RetiredKey, RetireReasonKey, PurgeKey} == obj - {RetiredKey, RetireReasonKey, PurgeKey}
      && second.errors == InCheckOrder(NameKey !in baseParams, !IsDefined(obj, UuidKey), false, false)
  {
  }

  /** Unretiring drops the reason, so retiring the same object straight
      afterwards is refused: nothing is sent and the reason key is recorded,
      although the object's own flag is set back to `true`. */
  lemma UnretireThenRetireIsRefused(baseParams: Bag, obj: Bag)
    requires Truthy(Lookup(obj, RetiredKey))
    ensures var first := RetireOrUnretireOutcome(baseParams, obj);
      var second := RetireOrUnretireOutcome(baseParams, first.obj);
      && first.call.Some? && second.call == None
      && RetireReason in second.errors
      && second.obj[RetiredKey] == Bool(true)
  {
    var first := RetireOrUnretireOutcome(baseParams, obj);
    assert first.obj[RetiredKey] == Bool(false);
    assert !IsDefined(first.obj, RetireReasonKey);
  }

  // ---------------------------------------------------------------------
  // Query bags

  /** `loadEntities` strips the entity name from the caller's bag, so
      passing the same bag again asks for an undefined entity name, records
      the missing-name key, and sends the same query. */
  lemma LoadEntitiesTwiceLosesName(requestParams: Bag)
    requires NameKey in requestParams
    ensures var first := LoadEntitiesOutcome(requestParams);
      var second := LoadEntitiesOutcome(first.obj);
      && first.errors == []
      && second.call == Some(All(Undefined, first.obj))
      && second.obj == first.obj
      && second.errors == [RestName]
  {
  }
}
