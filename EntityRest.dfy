/**
 The EntityRestFactory facade: entity-agnostic CRUD requests shaped for the
 OpenMRS REST web services.

 Every operation reads the entity name out of a parameter bag, checks a few
 required fields, cleans the object it is given and then makes at most one
 call on the REST transport. Here the call is returned as a `Call` descriptor, and
 every failed check records its message key in a returned list instead of
 being logged. A failed check never stops the operation: the call is still
 made, with the missing value undefined. The only check that suppresses the
 call is the missing reason when retiring.

 Operations that change the caller's object in place are methods over a
 `JsObject`; each is proved equal to a specification function (`...Outcome`)
 whose contract states what the request and the cleaned object are.
 */
module EntityRest {
  import opened JsValues
  import opened RestCalls

  const NameKey := "rest_entity_name"
  const UuidKey := "uuid"
  const RetiredKey := "retired"
  const RetireReasonKey := "retireReason"
  const PurgeKey := "purge"
  const ResourceKey := "resource"
  const ReasonKey := "reason"

  /** The property names the facade reads are pairwise distinct (they even
      differ in length). */
  lemma KeysDistinct()
    ensures UuidKey != RetiredKey && UuidKey != RetireReasonKey && UuidKey != PurgeKey
    ensures RetiredKey != RetireReasonKey && RetiredKey != PurgeKey && RetireReasonKey != PurgeKey
    ensures NameKey != UuidKey && NameKey != RetiredKey && NameKey != RetireReasonKey
    ensures NameKey != PurgeKey && NameKey != ResourceKey
  {
    assert |NameKey| == 16 && |UuidKey| == 4 && |RetiredKey| == 7;
    assert |RetireReasonKey| == 12 && |PurgeKey| == 5 && |ResourceKey| == 8;
  }

  const RestPrefix := "/openmrs/ws/rest/"
  const DefaultVersion := "v2"

  /** The effect of one facade operation: the caller's object (or parameter
      bag) afterwards, the transport call made, if any, and the message keys
      recorded, in the order the checks ran. */
  datatype Outcome = Outcome(obj: Bag, call: Option<Call>, errors: seq<ErrorKey>)

  // ---------------------------------------------------------------------
  // Base URL

  /** Index of the first occurrence of `c` in `s`. */
  function IndexOf(s: string, c: char): (r: Option<nat>)
    ensures r.Some? ==> r.value < |s| && s[r.value] == c && c !in s[..r.value]
    ensures r.None? ==> c !in s
  {
    if s == [] then None
    else if s[0] == c then Some(0)
    else match IndexOf(s[1..], c)
      case None => None
      case Some(i) => assert s[..i + 1] == [s[0]] + s[1..][..i]; Some(i + 1)
  }

  /** The REST base URL of `resource` under API `version`, `"v2"` when no
      version is given. */
  function BaseUrl(resource: string, version: Option<string>): (url: string)
    ensures |url| >= |RestPrefix| + 2
    ensures url[..|RestPrefix|] == RestPrefix && url[|url| - 1] == '/'
  {
    var v := if version.Some? then version.value else DefaultVersion;
    RestPrefix + v + "/" + resource + "/"
  }

  /** Reads a base URL back into its version and resource: the version runs
      up to the first `/` after the prefix, the resource up to the final `/`. */
  function ParseBaseUrl(url: string): (r: Option<(string, string)>)
    ensures r.Some? ==> '/' !in r.value.0
  {
    if |url| >= |RestPrefix| + 1 && url[..|RestPrefix|] == RestPrefix && url[|url| - 1] == '/' then
      var rest := url[|RestPrefix|..|url| - 1];
      match IndexOf(rest, '/')
      case None => None
      case Some(i) => Some((rest[..i], rest[i + 1..]))
    else None
  }

  /** `setBaseUrl(resource, version)`. */
  function SetBaseUrl(resource: string, version: Option<string>): (c: Call)
    ensures c == UseBaseUrl(BaseUrl(resource, version))
  {
    UseBaseUrl(BaseUrl(resource, version))
  }

  /** `setCustomBaseUrl(url)`: the URL reaches the transport untouched. */
  function SetCustomBaseUrl(url: string): (c: Call)
    ensures c.UseBaseUrl? && c.url == url
  {
    UseBaseUrl(url)
  }

  // ---------------------------------------------------------------------
  // Reading entities

  /** The entity-name check every CRUD operation starts with: the key must
      be present in the parameter bag. */
  function NameChecks(params: Bag): set<ErrorKey>
  {
    Missing(NameKey !in params, false, false, false)
  }

  /** The failed checks of `loadEntity`: name and uuid, both by presence. */
  function LoadEntityChecks(baseParams: Bag): set<ErrorKey>
  {
    Missing(NameKey !in baseParams, UuidKey !in baseParams, false, false)
  }

  /** `loadEntity(baseParams, ...)`: fetch one entity by name and uuid. Both
      are tested with the `in` operator, so a present-but-undefined entry
      passes its check. */
  method LoadEntity(baseParams: Bag) returns (call: Call, errors: seq<ErrorKey>)
    ensures call == One(Lookup(baseParams, NameKey), Lookup(baseParams, UuidKey))
    ensures Reports(errors, LoadEntityChecks(baseParams))
  {
    var restEntityName := Undefined;
    var uuid := Undefined;
    errors := [];
    if NameKey in baseParams {
      restEntityName := baseParams[NameKey];
    } else {
      errors := errors + [RestName];
    }
    if UuidKey in baseParams {
      uuid := baseParams[UuidKey];
    } else {
      errors := errors + [Uuid];
    }
    call := One(restEntityName, uuid);
    InCheckOrderReports(NameKey !in baseParams, UuidKey !in baseParams, false, false);
  }

  /** `checkExistingEntity(name, query, ...)`: ask for at most one entity,
      retired ones included, matching `searchQuery`. */
  function CheckExistingEntity(restEntityName: Value, searchQuery: Value): (c: Call)
    ensures c.All? && c.name == restEntityName
    ensures c.params.Keys == {"includeAll", "q", "startIndex", "limit"}
    ensures c.params["includeAll"] == Bool(true) && c.params["q"] == searchQuery
    ensures c.params["startIndex"] == Num(1) && c.params["limit"] == Num(1)
  {
    All(restEntityName, map["includeAll" := Bool(true), "q" := searchQuery,
                            "startIndex" := Num(1), "limit" := Num(1)])
  }

  /** `loadEntities(requestParams, ...)`: the entity name is taken out of the
      query bag, which is then sent as the query. */
  function LoadEntitiesOutcome(requestParams: Bag): (o: Outcome)
    ensures NameKey !in o.obj && o.obj - {NameKey} == requestParams - {NameKey}
    ensures o.call == Some(All(Lookup(requestParams, NameKey), o.obj))
    ensures Reports(o.errors, NameChecks(requestParams))
  {
    var restEntityName := if NameKey in requestParams then requestParams[NameKey] else Undefined;
    var errors := InCheckOrder(NameKey !in requestParams, false, false, false);
    InCheckOrderReports(NameKey !in requestParams, false, false, false);
    var params := requestParams - {NameKey};
    Outcome(params, Some(All(restEntityName, params)), errors)
  }

  method LoadEntities(requestParams: JsObject) returns (call: Call, errors: seq<ErrorKey>)
    modifies requestParams
    ensures var o := LoadEntitiesOutcome(old(requestParams.fields));
      requestParams.fields == o.obj && o.call == Some(call) && errors == o.errors
  {
    var restEntityName := Undefined;
    errors := [];
    if NameKey in requestParams.fields {
      restEntityName := requestParams.fields[NameKey];
    } else {
      errors := errors + [RestName];
    }
    requestParams.Delete(NameKey);
    call := All(restEntityName, requestParams.fields);
  }

  /** `loadResults(requestParams, ...)`: like `loadEntities` for resources
      that are not OpenMRS data objects; the routing key is `resource` and its
      absence is not reported. */
  function LoadResultsOutcome(requestParams: Bag): (o: Outcome)
    ensures ResourceKey !in o.obj && o.obj - {ResourceKey} == requestParams - {ResourceKey}
    ensures o.call == Some(All(Lookup(requestParams, ResourceKey), o.obj))
    ensures o.errors == []
  {
    if ResourceKey in requestParams then
      var params := requestParams - {ResourceKey};
      Outcome(params, Some(All(requestParams[ResourceKey], params)), [])
    else
      Outcome(requestParams, Some(All(Undefined, requestParams)), [])
  }

  method LoadResults(requestParams: JsObject) returns (call: Call, errors: seq<ErrorKey>)
    modifies requestParams
    ensures var o := LoadResultsOutcome(old(requestParams.fields));
      requestParams.fields == o.obj && o.call == Some(call) && errors == o.errors
  {
    var resource := Undefined;
    if ResourceKey in requestParams.fields {
      resource := requestParams.fields[ResourceKey];
      requestParams.Delete(ResourceKey);
    }
    call := All(resource, requestParams.fields);
    errors := [];
  }

  // ---------------------------------------------------------------------
  // Writing entities

  /** The object names an existing entity: its uuid is defined and is not
      the empty string (compared with `!==`). */
  predicate HasTargetUuid(obj: Bag)
  {
    IsDefined(obj, UuidKey) && obj[UuidKey] != Str("")
  }

  /** `saveOrUpdateEntity(baseParams, openmrsObject, ...)`: update the entity
      the object's uuid names, or create a new one (target uuid `''`) after
      dropping the uuid and retire reason; `purge` is never sent. */
  function SaveOrUpdateOutcome(baseParams: Bag, obj: Bag): (o: Outcome)
    ensures o.call == Some(SaveOrUpdate(Lookup(baseParams, NameKey),
                                        if HasTargetUuid(obj) then obj[UuidKey] else Str(""),
                                        o.obj))
    ensures HasTargetUuid(obj) ==>
      UuidKey in o.obj && o.obj[UuidKey] == obj[UuidKey] && SameAt(o.obj, obj, RetireReasonKey)
    ensures !HasTargetUuid(obj) ==> UuidKey !in o.obj && !IsDefined(o.obj, RetireReasonKey)
    ensures !HasTargetUuid(obj) ==>
      (RetireReasonKey in o.obj <==> RetireReasonKey in obj && obj[RetireReasonKey] == Undefined)
    ensures !IsDefined(o.obj, PurgeKey)
    ensures PurgeKey in o.obj <==> PurgeKey in obj && obj[PurgeKey] == Undefined
    ensures o.obj - {UuidKey, RetireReasonKey, PurgeKey} == obj - {UuidKey, RetireReasonKey, PurgeKey}
    ensures Reports(o.errors, NameChecks(baseParams))
  {
    var restEntityName := if NameKey in baseParams then baseParams[NameKey] else Undefined;
    var errors := InCheckOrder(NameKey !in baseParams, false, false, false);
    InCheckOrderReports(NameKey !in baseParams, false, false, false);
    var uuid := if HasTargetUuid(obj) then obj[UuidKey] else Str("");
    var trimmed := if HasTargetUuid(obj) then obj else DeleteIfDefined(obj - {UuidKey}, RetireReasonKey);
    var payload := DeleteIfDefined(trimmed, PurgeKey);
    Outcome(payload, Some(SaveOrUpdate(restEntityName, uuid, payload)), errors)
  }

  method SaveOrUpdateEntity(baseParams: Bag, openmrsObject: JsObject) returns (call: Call, errors: seq<ErrorKey>)
    modifies openmrsObject
    ensures var o := SaveOrUpdateOutcome(baseParams, old(openmrsObject.fields));
      openmrsObject.fields == o.obj && o.call == Some(call) && errors == o.errors
  {
    var restEntityName := Undefined;
    var uuid := Str("");
    errors := [];
    if NameKey in baseParams {
      restEntityName := baseParams[NameKey];
    } else {
      errors := errors + [RestName];
    }
    if IsDefined(openmrsObject.fields, UuidKey) && openmrsObject.fields[UuidKey] != Str("") {
      uuid := openmrsObject.fields[UuidKey];
    } else {
      openmrsObject.Delete(UuidKey);
      if IsDefined(openmrsObject.fields, RetireReasonKey) {
        openmrsObject.Delete(RetireReasonKey);
      }
    }
    if IsDefined(openmrsObject.fields, PurgeKey) {
      openmrsObject.Delete(PurgeKey);
    }
    call := SaveOrUpdate(restEntityName, uuid, openmrsObject.fields);
  }

  /** The failed checks of `retireOrUnretireEntity`: the entity name, the
      uuid, the retired flag, and the reason when retiring. */
  function RetireChecks(baseParams: Bag, obj: Bag): set<ErrorKey>
  {
    Missing(NameKey !in baseParams, !IsDefined(obj, UuidKey), !IsDefined(obj, RetiredKey),
            !Truthy(Lookup(obj, RetiredKey)) && !IsDefined(obj, RetireReasonKey))
  }

  /** What `retireOrUnretireEntity` does to the object: `purge` is dropped,
      the retired flag is flipped, and when unretiring the reason is
      dropped too. */
  function RetireEdits(obj: Bag): (r: Bag)
    ensures RetiredKey in r && r[RetiredKey] == Bool(!Truthy(Lookup(obj, RetiredKey)))
    ensures !IsDefined(r, PurgeKey)
    ensures PurgeKey in r <==> PurgeKey in obj && obj[PurgeKey] == Undefined
    ensures r - {RetiredKey, RetireReasonKey, PurgeKey} == obj - {RetiredKey, RetireReasonKey, PurgeKey}
    ensures !Truthy(Lookup(obj, RetiredKey)) ==> SameAt(r, obj, RetireReasonKey)
    ensures Truthy(Lookup(obj, RetiredKey)) ==> !IsDefined(r, RetireReasonKey)
    ensures Truthy(Lookup(obj, RetiredKey)) ==>
      (RetireReasonKey in r <==> RetireReasonKey in obj && obj[RetireReasonKey] == Undefined)
  {
    KeysDistinct();
    var unpurged := DeleteIfDefined(obj, PurgeKey);
    if !Truthy(Lookup(obj, RetiredKey)) then
      unpurged[RetiredKey := Bool(true)]
    else
      DeleteIfDefined(unpurged[RetiredKey := Bool(false)], RetireReasonKey)
  }

  /** `retireOrUnretireEntity(baseParams, openmrsObject, ...)`: flip the
      object's retired flag. Retiring sends a delete carrying the reason, or
      nothing when there is no reason; unretiring drops the reason and saves
      the object. `purge` is never sent. */
  function RetireOrUnretireOutcome(baseParams: Bag, obj: Bag): (o: Outcome)
    ensures o.obj == RetireEdits(obj)
    ensures !Truthy(Lookup(obj, RetiredKey)) ==>
      o.call == if IsDefined(obj, RetireReasonKey)
                then Some(Remove(Lookup(baseParams, NameKey), Lookup(obj, UuidKey),
                                 map[ReasonKey := obj[RetireReasonKey]]))
                else None
    ensures Truthy(Lookup(obj, RetiredKey)) ==>
      o.call == Some(SaveOrUpdate(Lookup(baseParams, NameKey), Lookup(obj, UuidKey), o.obj))
    ensures Reports(o.errors, RetireChecks(baseParams, obj))
    ensures o.call.None? <==> RetireReason in o.errors
  {
    var restEntityName := if NameKey in baseParams then baseParams[NameKey] else Undefined;
    var uuid := if IsDefined(obj, UuidKey) then obj[UuidKey] else Undefined;
    var retired := if IsDefined(obj, RetiredKey) then obj[RetiredKey] else Undefined;
    var marked := RetireEdits(obj);
    var refused := !Truthy(retired) && !IsDefined(marked, RetireReasonKey);
    var errors := InCheckOrder(NameKey !in baseParams, !IsDefined(obj, UuidKey), !IsDefined(obj, RetiredKey), refused);
    InCheckOrderReports(NameKey !in baseParams, !IsDefined(obj, UuidKey), !IsDefined(obj, RetiredKey), refused);
    if !Truthy(retired) then
      if !IsDefined(marked, RetireReasonKey) then
        Outcome(marked, None, errors)
      else
        Outcome(marked, Some(Remove(restEntityName, uuid, map[ReasonKey := marked[RetireReasonKey]])), errors)
    else
      Outcome(marked, Some(SaveOrUpdate(restEntityName, uuid, marked)), errors)
  }

  method RetireOrUnretireEntity(baseParams: Bag, openmrsObject: JsObject)
    returns (call: Option<Call>, errors: seq<ErrorKey>)
    modifies openmrsObject
    ensures var o := RetireOrUnretireOutcome(baseParams, old(openmrsObject.fields));
      openmrsObject.fields == o.obj && o.call == call && errors == o.errors
  {
    ghost var obj := openmrsObject.fields;
    var restEntityName := Undefined;
    var retired := Undefined;
    var uuid := Undefined;
    errors := [];
    if NameKey in baseParams {
      restEntityName := baseParams[NameKey];
    } else {
      errors := errors + [RestName];
    }
    if IsDefined(openmrsObject.fields, UuidKey) {
      uuid := openmrsObject.fields[UuidKey];
    } else {
      errors := errors + [Uuid];
    }
    if IsDefined(openmrsObject.fields, RetiredKey) {
      retired := openmrsObject.fields[RetiredKey];
    } else {
      errors := errors + [Retired];
    }
    assert restEntityName == Lookup(baseParams, NameKey) && uuid == Lookup(obj, UuidKey);
    assert retired == Lookup(obj, RetiredKey);
    assert errors == InCheckOrder(NameKey !in baseParams, !IsDefined(obj, UuidKey), !IsDefined(obj, RetiredKey), false);
    KeysDistinct();
    if IsDefined(openmrsObject.fields, PurgeKey) {
      openmrsObject.Delete(PurgeKey);
    }
    if !Truthy(retired) {
      openmrsObject.Put(RetiredKey, Bool(true));
      if !IsDefined(openmrsObject.fields, RetireReasonKey) {
        errors := errors + [RetireReason];
        InCheckOrderLast(NameKey !in baseParams, !IsDefined(obj, UuidKey), !IsDefined(obj, RetiredKey));
        call := None;
      } else {
        call := Some(Remove(restEntityName, uuid, map[ReasonKey := openmrsObject.fields[RetireReasonKey]]));
      }
    } else {
      openmrsObject.Put(RetiredKey, Bool(false));
      if IsDefined(openmrsObject.fields, RetireReasonKey) {
        openmrsObject.Delete(RetireReasonKey);
      }
      call := Some(SaveOrUpdate(restEntityName, uuid, openmrsObject.fields));
    }
    assert openmrsObject.fields == RetireEdits(obj);
  }

  /** The failed checks of `purgeEntity`: the name, and the uuid by
      definedness. */
  function PurgeChecks(baseParams: Bag, obj: Bag): set<ErrorKey>
  {
    Missing(NameKey !in baseParams, !IsDefined(obj, UuidKey), false, false)
  }

  /** `purgeEntity(baseParams, openmrsObject, ...)`: delete the entity for
      good; the whole object, `purge` flag included, is the request body. */
  method PurgeEntity(baseParams: Bag, openmrsObject: Bag) returns (call: Call, errors: seq<ErrorKey>)
    ensures call == Remove(Lookup(baseParams, NameKey), Lookup(openmrsObject, UuidKey), openmrsObject)
    ensures Reports(errors, PurgeChecks(baseParams, openmrsObject))
  {
    var restEntityName := Undefined;
    var uuid := Undefined;
    errors := [];
    if NameKey in baseParams {
      restEntityName := baseParams[NameKey];
    } else {
      errors := errors + [RestName];
    }
    if IsDefined(openmrsObject, UuidKey) {
      uuid := openmrsObject[UuidKey];
    } else {
      errors := errors + [Uuid];
    }
    call := Remove(restEntityName, uuid, openmrsObject);
    InCheckOrderReports(NameKey !in baseParams, !IsDefined(openmrsObject, UuidKey), false, false);
  }
}
