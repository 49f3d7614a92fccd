/**
 What the facade hands to its REST transport, and the error message keys it
 records when a required field is missing.

 The transport itself (`RestfulService`) is not modelled: each call the
 facade makes on it is emitted as a `Call` value, with the success and error
 callbacks left out because the facade only passes them through.
 */
module RestCalls {
  import opened JsValues

  /** One request descriptor per transport method the facade uses. */
  datatype Call =
    | UseBaseUrl(url: string)                        // RestfulService.setBaseUrl
    | One(name: Value, uuid: Value)                  // RestfulService.one
    | All(name: Value, params: Bag)                  // RestfulService.all
    | SaveOrUpdate(name: Value, uuid: Value, payload: Bag)  // RestfulService.saveOrUpdate
    | Remove(name: Value, uuid: Value, payload: Bag)        // RestfulService.remove

  /** The four message keys the facade can record, in the order in which its
      checks run. */
  datatype ErrorKey = RestName | Uuid | Retired | RetireReason

  /** The localisation key that the facade hands to its error handler. */
  function MessageKey(e: ErrorKey): string
  {
    match e
    case RestName => "openhmis.inventory.general.error.restName"
    case Uuid => "openhmis.inventory.general.error.uuid"
    case Retired => "openhmis.inventory.general.error.retired"
    case RetireReason => "openhmis.inventory.general.error.retireReason"
  }

  /** Position of a check in the facade's fixed checking order. */
  function Rank(e: ErrorKey): (r: nat)
    ensures r < 4
  {
    match e
    case RestName => 0
    case Uuid => 1
    case Retired => 2
    case RetireReason => 3
  }

  /** Keys appear in checking order, each at most once. */
  predicate Ordered(errors: seq<ErrorKey>)
  {
    forall i, j :: 0 <= i < j < |errors| ==> Rank(errors[i]) < Rank(errors[j])
  }

  /** `errors` records exactly the failed checks `missing`, in checking order. */
  predicate Reports(errors: seq<ErrorKey>, missing: set<ErrorKey>)
  {
    Ordered(errors) && forall e :: e in errors <==> e in missing
  }

  /** The singleton `{e}` when the check for `e` fails, otherwise nothing. */
  function MissingIf(failed: bool, e: ErrorKey): (s: set<ErrorKey>)
    ensures e in s <==> failed
    ensures s <= {e}
  {
    if failed then {e} else {}
  }

  /** The failed checks, given which of the four checks failed. */
  function Missing(restName: bool, uuid: bool, retired: bool, retireReason: bool): set<ErrorKey>
  {
    MissingIf(restName, RestName) + MissingIf(uuid, Uuid)
    + MissingIf(retired, Retired) + MissingIf(retireReason, RetireReason)
  }

  /** The keys recorded when each failed check appends its key in turn. */
  function InCheckOrder(restName: bool, uuid: bool, retired: bool, retireReason: bool): seq<ErrorKey>
  {
    (if restName then [RestName] else []) + (if uuid then [Uuid] else [])
    + (if retired then [Retired] else []) + (if retireReason then [RetireReason] else [])
  }

  /** Appending keys check by check reports exactly the failed checks, in
      checking order. */
  lemma InCheckOrderReports(restName: bool, uuid: bool, retired: bool, retireReason: bool)
    ensures Reports(InCheckOrder(restName, uuid, retired, retireReason),
                    Missing(restName, uuid, retired, retireReason))
  {
  }

  /** The last check appends its key after the others. */
  lemma InCheckOrderLast(restName: bool, uuid: bool, retired: bool)
    ensures InCheckOrder(restName, uuid, retired, false) + [RetireReason]
         == InCheckOrder(restName, uuid, retired, true)
  {
  }

  lemma RankInjective(a: ErrorKey, b: ErrorKey)
    requires Rank(a) == Rank(b)
    ensures a == b
  {
  }

  /** The message keys are pairwise distinct, so a recorded key identifies
      the check that failed. */
  lemma MessageKeyInjective(a: ErrorKey, b: ErrorKey)
    requires MessageKey(a) == MessageKey(b)
    ensures a == b
  {
    assert |MessageKey(a)| == |MessageKey(b)|;
  }

  /** Dropping the first recorded key leaves a report of the other failed
      checks. */
  lemma TailReports(a: seq<ErrorKey>, missing: set<ErrorKey>)
    requires Reports(a, missing) && a != []
    ensures Reports(a[1..], missing - {a[0]})
  {
    forall e ensures e in a[1..] <==> e in missing - {a[0]} {
      if e in a[1..] {
        var i :| 0 <= i < |a[1..]| && a[1..][i] == e;
        assert a[i + 1] == e;
        assert Rank(a[0]) < Rank(e);
      }
      if e in missing - {a[0]} {
        var i :| 0 <= i < |a| && a[i] == e;
        assert a[1..][i - 1] == e;
      }
    }
  }

  /** Each failed check is recorded exactly once. */
  lemma {:induction false} ReportsLength(a: seq<ErrorKey>, missing: set<ErrorKey>)
    requires Reports(a, missing)
    ensures |a| == |missing|
    decreases |a|
  {
    if a == [] {
      assert missing == {};
    } else {
      TailReports(a, missing);
      ReportsLength(a[1..], missing - {a[0]});
    }
  }

  /** The set of failed checks determines the recorded error list: two lists
      that both report `missing` in checking order are equal. */
  lemma {:induction false} ReportsUnique(a: seq<ErrorKey>, b: seq<ErrorKey>, missing: set<ErrorKey>)
    requires Reports(a, missing) && Reports(b, missing)
    ensures a == b
    decreases |a|
  {
    ReportsLength(a, missing);
    ReportsLength(b, missing);
    if a != [] {
      assert a[0] in b;
      var k :| 0 <= k < |b| && b[k] == a[0];
      assert b[0] in a;
      var m :| 0 <= m < |a| && a[m] == b[0];
      assert Rank(b[0]) <= Rank(b[k]) && Rank(a[0]) <= Rank(a[m]);
      RankInjective(a[0], b[0]);
      TailReports(a, missing);
      TailReports(b, missing);
      ReportsUnique(a[1..], b[1..], missing - {a[0]});
      assert a == [a[0]] + a[1..] && b == [b[0]] + b[1..];
    }
  }
}
