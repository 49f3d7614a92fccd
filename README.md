# EntityRestFactory request shaping, modelled in Dafny

`EntityRestFactory` is the AngularJS facade that the OpenHMIS inventory
pages use for entity CRUD over the OpenMRS REST web services. It is written
in terms of an entity name. It takes the name from a parameter bag, checks
a few required fields, cleans the object it was given in place, and then
makes at most one call on its REST transport (`RestfulService`). This
project models those rules:

- how the base URL `/openmrs/ws/rest/<version>/<resource>/` is built, with
  `v2` as the default version;
- how `saveOrUpdateEntity` picks the target uuid and drops `uuid`,
  `retireReason` and `purge` from the object;
- how `retireOrUnretireEntity` flips the `retired` flag and chooses between
  a delete that carries `{reason}`, a save without the reason, or no call at
  all;
- how `loadEntities` and `loadResults` take their routing key out of the
  caller's query bag;
- how a failed check only records a message key. It never stops the call,
  except when retiring without a reason.

Layout:

- `JsValues.dfy` holds JavaScript values, truthiness, `angular.isDefined`,
  the guarded `delete`, and the `JsObject` class for objects the facade
  changes in place.
- `RestCalls.dfy` holds the `Call` descriptors that stand in for transport
  calls, and the four error message keys. It also defines when a key list
  "reports" a set of failed checks in checking order, and proves that such
  a list is unique.
- `EntityRest.dfy` holds the operations. Each operation that changes the
  caller's object is a method over a `JsObject`. That method is proved equal
  to a pure `...Outcome` function, and the properties are stated on the
  function. The operations that only read are functions, or methods with no
  `modifies` clause.
- `EntityRestLemmas.dfy` holds the properties that link operations:
  - the URL round trip and injectivity;
  - saving twice;
  - retire followed by unretire, and unretire followed by retire;
  - reusing a query bag.

A JavaScript object is a `map<string, Value>`. `"k" in obj` is key
presence. `angular.isDefined(obj.k)` means the key is present and its value
is not `Undefined`. The code uses both tests, and the model keeps them
apart: `loadEntity` and the entity-name checks use `in`, while the uuid,
`retired`, `retireReason` and `purge` tests use `isDefined`. A delete that
is guarded by `isDefined` keeps a key whose value is `undefined` and never
adds a missing one. So for `retireReason` and `purge` the contracts promise
"not defined", and they state exactly when the key is still present: when
it was present holding `undefined`. `uuid` is deleted without a guard, so it
is truly absent.

## Model

| member | source | states |
|---|---|---|
| `JsValues.DeleteIfDefined` | omod_2.x/src/main/webapp/resources/scripts/reusable-components/services/restful-services/entity-rest.factory.js:113-115 | afterwards the key is not defined; it stays present exactly when it was present holding `undefined` (no delete happens then), and is removed when it was defined; every other key is untouched |
| `JsValues.JsObject.Delete` | omod_2.x/src/main/webapp/resources/scripts/reusable-components/services/restful-services/entity-rest.factory.js:205 | `delete obj[key]` removes that key and nothing else; a missing key is harmless |
| `JsValues.JsObject.Put` | omod_2.x/src/main/webapp/resources/scripts/reusable-components/services/restful-services/entity-rest.factory.js:153 | a property assignment sets that key and leaves all others as they were |
| `EntityRest.BaseUrl` | omod_2.x/src/main/webapp/resources/scripts/reusable-components/services/restful-services/entity-rest.factory.js:47-51 | the URL starts with `/openmrs/ws/rest/` and ends with `/` |
| `EntityRestLemmas.BaseUrlRoundTrip` | omod_2.x/src/main/webapp/resources/scripts/reusable-components/services/restful-services/entity-rest.factory.js:51 | when the version has no `/`, parsing the URL gives back exactly that version and resource, so the URL is prefix + version + `/` + resource + `/` |
| `EntityRestLemmas.BaseUrlDefaultVersion` | omod_2.x/src/main/webapp/resources/scripts/reusable-components/services/restful-services/entity-rest.factory.js:48-50 | without a version, the URL parses as version `v2` with the given resource |
| `EntityRestLemmas.BaseUrlInjective` | omod_2.x/src/main/webapp/resources/scripts/reusable-components/services/restful-services/entity-rest.factory.js:47-51 | two calls with slash-free versions give the same URL only when both the resource and the version are the same |
| `EntityRest.SetBaseUrl` | omod_2.x/src/main/webapp/resources/scripts/reusable-components/services/restful-services/entity-rest.factory.js:47-53 | the transport's base URL is set to exactly `BaseUrl(resource, version)`, so the round-trip and injectivity lemmas about `BaseUrl` describe it |
| `EntityRest.SetCustomBaseUrl` | omod_2.x/src/main/webapp/resources/scripts/reusable-components/services/restful-services/entity-rest.factory.js:42-44 | the given URL reaches the transport unchanged |
| `EntityRest.LoadEntity` | omod_2.x/src/main/webapp/resources/scripts/reusable-components/services/restful-services/entity-rest.factory.js:56-75 | exactly one `one(name, uuid)` call is made, always, with each value undefined when its key is missing; the keys recorded are exactly those for a missing name and a missing uuid, in that order |
| `EntityRest.CheckExistingEntity` | omod_2.x/src/main/webapp/resources/scripts/reusable-components/services/restful-services/entity-rest.factory.js:78-86 | one `all` call for the given name whose query holds exactly `includeAll: true`, `q: query`, `startIndex: 1` and `limit: 1` |
| `EntityRest.LoadEntitiesOutcome` | omod_2.x/src/main/webapp/resources/scripts/reusable-components/services/restful-services/entity-rest.factory.js:196-208 | `rest_entity_name` is removed from the bag and every other entry is kept; `all` is called with the name, or undefined, and the stripped bag; one key is recorded exactly when the name is missing |
| `EntityRest.LoadEntities` | omod_2.x/src/main/webapp/resources/scripts/reusable-components/services/restful-services/entity-rest.factory.js:196-208 | changes the caller's bag in place into the bag `LoadEntitiesOutcome` describes, and returns the same call and keys |
| `EntityRest.LoadResultsOutcome` | omod_2.x/src/main/webapp/resources/scripts/reusable-components/services/restful-services/entity-rest.factory.js:216-223 | `resource` is removed only if present, and every other entry is kept; `all` is called with the resource, or undefined, and the stripped bag; nothing is recorded |
| `EntityRest.LoadResults` | omod_2.x/src/main/webapp/resources/scripts/reusable-components/services/restful-services/entity-rest.factory.js:216-223 | changes the caller's bag in place into the bag `LoadResultsOutcome` describes, and returns the same call |
| `EntityRest.SaveOrUpdateOutcome` | omod_2.x/src/main/webapp/resources/scripts/reusable-components/services/restful-services/entity-rest.factory.js:91-118 | with a defined uuid other than `''`, that uuid is the target and is kept in the payload along with `retireReason`, unchanged; otherwise the target is `''`, `uuid` is absent and `retireReason` is not defined, still present exactly when it held `undefined`; `purge` is never defined afterwards and is still present exactly when it held `undefined`; every other key is unchanged; exactly one `saveOrUpdate` call is made with the cleaned object; only a missing name is recorded |
| `EntityRest.SaveOrUpdateEntity` | omod_2.x/src/main/webapp/resources/scripts/reusable-components/services/restful-services/entity-rest.factory.js:91-118 | changes the caller's object in place into the payload `SaveOrUpdateOutcome` describes, and returns the same call and keys |
| `EntityRestLemmas.SaveOrUpdateIdempotent` | omod_2.x/src/main/webapp/resources/scripts/reusable-components/services/restful-services/entity-rest.factory.js:102-117 | saving an object that a save has already cleaned sends the same request again and leaves the object as it is |
| `EntityRest.RetireEdits` | omod_2.x/src/main/webapp/resources/scripts/reusable-components/services/restful-services/entity-rest.factory.js:147-166 | `retired` ends up as the boolean negation of the old value's truthiness; `purge` is never defined afterwards and is still present exactly when it held `undefined`; when retiring, `retireReason` is unchanged; when unretiring, it is not defined and is still present exactly when it held `undefined`; every other key is unchanged |
| `EntityRest.RetireOrUnretireOutcome` | omod_2.x/src/main/webapp/resources/scripts/reusable-components/services/restful-services/entity-rest.factory.js:121-169 | retiring with a defined reason makes one `remove(name, uuid, {reason})` call, and retiring without one makes no call; unretiring makes one `saveOrUpdate(name, uuid, object)` call; the keys recorded are exactly the failed checks (name, uuid, retired, then the reason when retiring) in that order; no call is made exactly when the reason key is recorded |
| `EntityRest.RetireOrUnretireEntity` | omod_2.x/src/main/webapp/resources/scripts/reusable-components/services/restful-services/entity-rest.factory.js:121-169 | changes the caller's object in place as `RetireEdits` describes, and returns the call and keys of `RetireOrUnretireOutcome` |
| `EntityRestLemmas.RetireThenUnretire` | omod_2.x/src/main/webapp/resources/scripts/reusable-components/services/restful-services/entity-rest.factory.js:152-168 | retiring with a reason and then unretiring sends `remove` with the reason and then `saveOrUpdate`, leaving `retired` false, no reason, no purge and all other keys as they were; the second call records only name and uuid failures |
| `EntityRestLemmas.UnretireThenRetireIsRefused` | omod_2.x/src/main/webapp/resources/scripts/reusable-components/services/restful-services/entity-rest.factory.js:152-168 | after an unretire, an immediate retire sends nothing and records the reason key, yet the object's `retired` flag is set to `true` |
| `EntityRest.PurgeEntity` | omod_2.x/src/main/webapp/resources/scripts/reusable-components/services/restful-services/entity-rest.factory.js:172-191 | exactly one `remove(name, uuid, object)` call is made, always, with the whole object (its `purge` flag included) as the body; the keys recorded are exactly those for a missing name and an undefined uuid, in that order |
| `EntityRestLemmas.LoadEntitiesTwiceLosesName` | omod_2.x/src/main/webapp/resources/scripts/reusable-components/services/restful-services/entity-rest.factory.js:196-207 | passing the same bag to `loadEntities` a second time asks for an undefined entity with the same query, and records the missing-name key |
| `RestCalls.InCheckOrderReports` | omod_2.x/src/main/webapp/resources/scripts/reusable-components/services/restful-services/entity-rest.factory.js:228-231 | when each failed check appends its key in turn, as `commonErrorHandler` is called, the list holds exactly the failed checks, each once, in checking order |
| `RestCalls.ReportsUnique` | omod_2.x/src/main/webapp/resources/scripts/reusable-components/services/restful-services/entity-rest.factory.js:126-145 | the set of failed checks fixes the recorded key list: two lists that both report it in checking order are equal |

## Left out

- `RestfulService` and the `post` passthrough (line 36) are not part of this
  model. The transport is code the facade only calls. Each call on it is
  returned as a `Call` descriptor, and the `post` passthrough adds no logic.
- Success and error callbacks, and asynchrony, are left out. The facade
  only hands the callbacks to the transport and never calls them. So no
  model operation takes or calls a callback.
- `commonErrorHandler` (lines 228-231) is modelled only by its one effect
  that stays in the program: the failed check's message key is appended to
  the returned list. Localisation through `emr.errorMessage` and the
  `console.log` line are I/O and are left out. The code does not pass the
  error to `errorCallback`, although a missing field is sometimes described
  as invoking the error callback. The model follows the code.
- AngularJS module registration and dependency injection (lines 21-23) are
  framework plumbing and are left out.
- JavaScript numbers are integers here. Floating point, `NaN` and `-0` are
  left out. Objects, arrays and functions are one opaque `Other` value that
  is always truthy, and their contents are never read. `in` is key presence
  in the map, with no prototype chain.
- `EntityRest.BaseUrl` takes the resource as a string and the version as an
  optional string. Concatenating a non-string resource or a defined
  non-string version through JavaScript's string conversion is not
  modelled: `setBaseUrl(undefined)` builds `/openmrs/ws/rest/v2/undefined/`,
  and a `null` or numeric version is likewise spelled out as text.
- Every bag parameter is typed `Bag`, a plain object. The source applies the
  `in` operator to `baseParams` or `requestParams` (lines 60, 95, 126, 176,
  198, 218) and reads `.uuid` of `openmrsObject` (lines 102, 133, 183); when
  such an argument is `undefined`, `null` or a primitive, JavaScript throws a
  TypeError there, and that thrown error is not modelled.
- The order of properties in a JavaScript object is not modelled, because a
  map has no order.
- Aliasing is not modelled. The transport receives the caller's object
  itself, while a `Call` carries a copy of its properties at the moment of
  the call. The facade changes nothing after the call, so the two differ
  only if the transport or the caller changes the object later.
- `baseParams` is passed as a map value rather than an object. The facade
  only reads it, and always before it writes anything. So even when it is
  the same object as `openmrsObject`, a snapshot reads the same values.
- `checkExistingEntity` is not in the object the factory returns (lines
  27-37), so no caller outside the factory can reach it. It is modelled as
  written all the same.
