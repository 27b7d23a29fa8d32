/** The offline action queue: a durable store of user actions captured while
    the network is unavailable, drained later by a sync driver. The IndexedDB
    object store `queue_actions` (key path `id`) is a map from id to record. */
module OfflineQueue {
  import opened Js

  /** The store refuses new records once it holds this many, synced or not. */
  const MaxQueue: nat := 500

  /** The provenance recorded when the caller gives none. */
  const DefaultSource: string := "offline"

  type Payload = map<string, JsValue>

  datatype QueueAction = QueueAction(
    id: string,
    kind: string,
    payload: Payload,
    clientCreatedAt: int,
    source: string,
    synced: bool,
    retryCount: nat)

  /** The key path of the object store: every record is stored under its id. */
  predicate Keyed(m: map<string, QueueAction>)
  {
    forall k :: k in m ==> m[k].id == k
  }

  type Store = m: map<string, QueueAction> | Keyed(m) witness map[]

  /** The argument of `enqueueAction`; `source` and `clientCreatedAt` are optional. */
  datatype EnqueueInput = EnqueueInput(
    kind: string,
    payload: Payload,
    source: Option<string>,
    clientCreatedAt: Option<int>)

  /** What `enqueueAction` resolves to: `null` when the store is full, the new
      record, or a rejection because `add` found the key already present. */
  datatype EnqueueResult = QueueFull | Added(action: QueueAction) | KeyExists

  /** `enqueueAction`, given the id `randomId` would produce and the clock. */
  function Enqueue(store: Store, input: EnqueueInput, id: string, now: int): (r: (Store, EnqueueResult))
    ensures |store| >= MaxQueue ==> r.1 == QueueFull && r.0 == store
    ensures |store| < MaxQueue && id in store ==> r.1 == KeyExists && r.0 == store
    ensures |store| < MaxQueue && id !in store ==>
      && r.1.Added?
      && r.1.action.id == id
      && r.1.action.kind == input.kind
      && r.1.action.payload == input.payload
      && r.1.action.source == input.source.GetOr(DefaultSource)
      && r.1.action.clientCreatedAt == input.clientCreatedAt.GetOr(now)
      && !r.1.action.synced
      && r.1.action.retryCount == 0
      && r.0.Keys == store.Keys + {id}
      && |r.0| == |store| + 1
      && r.0[id] == r.1.action
      && (forall k :: k in store ==> r.0[k] == store[k])
  {
    if |store| >= MaxQueue then
      (store, QueueFull)
    else
      var action := QueueAction(
        id, input.kind, input.payload,
        input.clientCreatedAt.GetOr(now), input.source.GetOr(DefaultSource),
        false, 0);
      if id in store then (store, KeyExists)
      else
        var next := store[id := action];
        assert Keyed(next);
        assert |next| == |store| + 1 by {
          assert next.Keys == store.Keys + {id};
        }
        (next, Added(action))
  }

  /** The records still waiting to be replayed. */
  function PendingSet(store: Store): set<QueueAction>
  {
    set k | k in store && !store[k].synced :: store[k]
  }

  /** The pending records among the given keys. */
  function PendingAmong(store: Store, keys: set<string>): set<QueueAction>
  {
    set k | k in keys && k in store && !store[k].synced :: store[k]
  }

  predicate SortedByCreation(s: seq<QueueAction>)
  {
    forall i, j :: 0 <= i < j < |s| ==> s[i].clientCreatedAt <= s[j].clientCreatedAt
  }

  /** Inserts `a` into a list sorted by creation time, after the records with
      the same time. */
  function InsertSorted(s: seq<QueueAction>, a: QueueAction): (r: seq<QueueAction>)
    requires SortedByCreation(s)
    ensures SortedByCreation(r)
    ensures multiset(r) == multiset(s) + multiset{a}
  {
    if s == [] then [a]
    else if a.clientCreatedAt < s[0].clientCreatedAt then [a] + s
    else
      var rest := InsertSorted(s[1..], a);
      assert SortedByCreation([s[0]] + rest) by {
        InsertedAbove(s, a, rest);
        ConsSorted(s[0], rest);
      }
      assert multiset([s[0]] + rest) == multiset(s) + multiset{a} by {
        assert s == [s[0]] + s[1..];
      }
      [s[0]] + rest
  }

  /** What is inserted into the tail of a sorted list stays at or above its
      head. */
  lemma InsertedAbove(s: seq<QueueAction>, a: QueueAction, rest: seq<QueueAction>)
    requires SortedByCreation(s) && |s| > 0 && s[0].clientCreatedAt <= a.clientCreatedAt
    requires multiset(rest) == multiset(s[1..]) + multiset{a}
    ensures forall i :: 0 <= i < |rest| ==> s[0].clientCreatedAt <= rest[i].clientCreatedAt
  {
    forall i | 0 <= i < |rest|
      ensures s[0].clientCreatedAt <= rest[i].clientCreatedAt
    {
      assert rest[i] in multiset(rest);
      if rest[i] != a {
        assert rest[i] in multiset(s[1..]);
        var j :| 0 <= j < |s[1..]| && s[1..][j] == rest[i];
        assert s[j + 1] == rest[i];
      }
    }
  }

  /** A sorted list stays sorted under a head no later than any of its
      records. */
  lemma ConsSorted(x: QueueAction, rest: seq<QueueAction>)
    requires SortedByCreation(rest)
    requires forall i :: 0 <= i < |rest| ==> x.clientCreatedAt <= rest[i].clientCreatedAt
    ensures SortedByCreation([x] + rest)
  {
    var r := [x] + rest;
    forall i, j | 0 <= i < j < |r|
      ensures r[i].clientCreatedAt <= r[j].clientCreatedAt
    {
      assert r[j] == rest[j - 1];
      if i > 0 { assert r[i] == rest[i - 1]; }
    }
  }

  lemma MultisetOfSetAdd(xs: set<QueueAction>, x: QueueAction)
    requires x !in xs
    ensures multiset(xs + {x}) == multiset(xs) + multiset{x}
  {
  }

  /** Taking one more key into account adds its record to the pending records
      seen so far exactly when it is unsynced. */
  lemma PendingAmongAdd(store: Store, done: set<string>, k: string, r: seq<QueueAction>)
    requires k in store && k !in done
    requires multiset(r) == multiset(PendingAmong(store, done))
    ensures !store[k].synced ==> multiset(r) + multiset{store[k]} == multiset(PendingAmong(store, done + {k}))
    ensures store[k].synced ==> multiset(r) == multiset(PendingAmong(store, done + {k}))
  {
    var before := PendingAmong(store, done);
    assert store[k] !in before;
    if !store[k].synced {
      assert PendingAmong(store, done + {k}) == before + {store[k]};
      MultisetOfSetAdd(before, store[k]);
    } else {
      assert PendingAmong(store, done + {k}) == before;
    }
  }

  lemma PendingAmongAll(store: Store)
    ensures PendingAmong(store, store.Keys) == PendingSet(store)
  {
  }

  /** `getPendingActions`: the unsynced records, ordered by creation time. */
  method GetPending(store: Store) returns (r: seq<QueueAction>)
    ensures SortedByCreation(r)
    ensures multiset(r) == multiset(PendingSet(store))
  {
    r := [];
    var todo := store.Keys;
    ghost var done: set<string> := {};
    while todo != {}
      invariant todo <= store.Keys
      invariant done == store.Keys - todo
      invariant SortedByCreation(r)
      invariant multiset(r) == multiset(PendingAmong(store, done))
      decreases |todo|
    {
      var k :| k in todo;
      PendingAmongAdd(store, done, k, r);
      if !store[k].synced {
        r := InsertSorted(r, store[k]);
      }
      todo := todo - {k};
      done := done + {k};
    }
    PendingAmongAll(store);
  }

  /** `markSynced`. */
  function MarkSynced(store: Store, id: string): (r: Store)
    ensures id !in store ==> r == store
    ensures r.Keys == store.Keys
    ensures id in store ==> r[id].synced && r[id].retryCount == 0
    ensures id in store ==> r[id] == store[id].(synced := true, retryCount := 0)
    ensures forall k :: k in store && k != id ==> r[k] == store[k]
  {
    if id in store then store[id := store[id].(synced := true, retryCount := 0)] else store
  }

  /** `incrementRetry`. */
  function IncrementRetry(store: Store, id: string): (r: Store)
    ensures id !in store ==> r == store
    ensures r.Keys == store.Keys
    ensures id in store ==> r[id].retryCount == store[id].retryCount + 1
    ensures id in store ==> r[id].synced == store[id].synced
    ensures id in store ==> r[id] == store[id].(retryCount := store[id].retryCount + 1)
    ensures forall k :: k in store && k != id ==> r[k] == store[k]
  {
    if id in store then store[id := store[id].(retryCount := store[id].retryCount + 1)] else store
  }

  /** `clearSynced`. */
  function ClearSynced(store: Store): (r: Store)
    ensures forall k :: k in r <==> k in store && !store[k].synced
    ensures forall k :: k in r ==> r[k] == store[k]
  {
    map k | k in store && !store[k].synced :: store[k]
  }

  /** Marking a record synced twice is the same as marking it once. */
  lemma MarkSyncedIdempotent(store: Store, id: string)
    ensures MarkSynced(MarkSynced(store, id), id) == MarkSynced(store, id)
  {
  }

  /** A record marked synced leaves the pending list and nothing else does. */
  lemma MarkSyncedPending(store: Store, id: string)
    requires id in store
    ensures PendingSet(MarkSynced(store, id)) == PendingSet(store) - {store[id]}
  {
    var r := MarkSynced(store, id);
    forall x | x in PendingSet(store) - {store[id]}
      ensures x in PendingSet(r)
    {
      var k :| k in store && !store[k].synced && store[k] == x;
      assert k != id;
    }
  }

  /** A failed replay keeps the record in the pending list exactly when it was
      there, and leaves the other pending records alone. */
  lemma IncrementRetryPendingIds(store: Store, id: string)
    ensures forall k :: k in store ==> (store[k] in PendingSet(store) <==> IncrementRetry(store, id)[k] in PendingSet(IncrementRetry(store, id)))
  {
    var r := IncrementRetry(store, id);
    forall k | k in store
      ensures store[k] in PendingSet(store) <==> r[k] in PendingSet(r)
    {
      if store[k] in PendingSet(store) {
        assert !store[k].synced;
      }
      if r[k] in PendingSet(r) {
        var j :| j in r && !r[j].synced && r[j] == r[k];
        assert j == k;
      }
    }
  }

  /** Garbage collection does not change the pending list and leaves no synced
      record behind. */
  lemma ClearSyncedKeepsPending(store: Store)
    ensures PendingSet(ClearSynced(store)) == PendingSet(store)
    ensures forall k :: k in ClearSynced(store) ==> !ClearSynced(store)[k].synced
  {
    var r := ClearSynced(store);
    forall x | x in PendingSet(store)
      ensures x in PendingSet(r)
    {
      var k :| k in store && !store[k].synced && store[k] == x;
      assert k in r;
    }
  }

  /** Collecting garbage twice is the same as collecting it once. */
  lemma ClearSyncedIdempotent(store: Store)
    ensures ClearSynced(ClearSynced(store)) == ClearSynced(store)
  {
  }

  /** How the promise an exported queue function returns settles: with a
      value, or rejected with the `DataError` IndexedDB throws. */
  datatype Settled<T> = Fulfilled(value: T) | Rejected

  /** Whether a value is a valid IndexedDB key: a number, a string, or an
      array of valid keys. Booleans, `null`, `undefined` and plain objects are
      not keys. */
  predicate ValidKey(v: JsValue)
  {
    match v
    case Num(_) => true
    case Str(_) => true
    case Arr(items) => forall i :: 0 <= i < |items| ==> ValidKey(items[i])
    case _ => false
  }

  /** `IDBKeyRange.only(v)`: the one-key range, or `None` for the `DataError`
      it throws when `v` is not a valid key. */
  function KeyRangeOnly(v: JsValue): (r: Option<JsValue>)
    ensures r.Some? <==> ValidKey(v)
    ensures r.Some? ==> r.value == v
  {
    if ValidKey(v) then Some(v) else None
  }

  /** The records the `synced` index holds. A record enters an index only when
      its value at the key path is a valid key, and `synced` is a boolean, so
      the index never holds a record. */
  function SyncedIndex(store: Store): (s: set<QueueAction>)
    ensures s == {}
  {
    set k | k in store && ValidKey(Bool(store[k].synced)) :: store[k]
  }

  /** `getPendingActions` as written: `IDBKeyRange.only(false)` is evaluated
      inside the promise executor, so its `DataError` rejects the promise. Were
      the range built, `getAll` would read the empty `synced` index, and the
      sorting handler would be replaced by `withStore`'s own. */
  function GetPendingAsWritten(store: Store): (r: Settled<set<QueueAction>>)
    ensures r == Rejected
  {
    match KeyRangeOnly(Bool(false))
    case None => Rejected
    case Some(key) => Fulfilled(set x | x in SyncedIndex(store) && Bool(x.synced) == key)
  }

  /** `clearSynced` as written: `IDBKeyRange.only(true)` throws before the
      cursor opens, so the promise rejects and nothing is deleted. Were the
      range built, the cursor would walk the empty `synced` index and delete
      nothing either. */
  function ClearSyncedAsWritten(store: Store): (r: (Store, Settled<()>))
    ensures r == (store, Rejected)
  {
    match KeyRangeOnly(Bool(true))
    case None => (store, Rejected)
    case Some(_) => (store, Fulfilled(()))
  }

  /** The success handlers installed on the `get` request of `markSynced` and
      `incrementRetry`, and the one `withStore` installs on every request. */
  datatype Handler = ResolveResult | PutSynced | PutRetried

  /** An IndexedDB `get` request with its one `onsuccess` slot. */
  datatype GetRequest = GetRequest(key: string, onsuccess: Handler)

  /** `withStore` assigns its own `onsuccess` to the request `fn` returned,
      overwriting the handler `fn` assigned. */
  function WithStore(req: GetRequest): (out: GetRequest)
    ensures out.key == req.key
    ensures out.onsuccess == ResolveResult
  {
    req.(onsuccess := ResolveResult)
  }

  /** The `get` succeeds and the handler left on the request runs: `withStore`'s
      resolves the promise and writes nothing; the other two write the fetched
      record back changed, or return when there is none. */
  function Fire(store: Store, req: GetRequest): (r: Store)
    ensures r.Keys == store.Keys
    ensures forall k :: k in store && k != req.key ==> r[k] == store[k]
    ensures req.onsuccess == ResolveResult ==> r == store
    ensures req.onsuccess == PutSynced && req.key in store ==>
      r[req.key] == store[req.key].(synced := true, retryCount := 0)
    ensures req.onsuccess == PutRetried && req.key in store ==>
      r[req.key] == store[req.key].(retryCount := store[req.key].retryCount + 1)
  {
    match req.onsuccess
    case ResolveResult => store
    case PutSynced => MarkSynced(store, req.key)
    case PutRetried => IncrementRetry(store, req.key)
  }

  /** `markSynced` as written: the request it returns carries its handler only
      until `withStore` replaces it, so the store is left as it was. */
  function MarkSyncedAsWritten(store: Store, id: string): (r: Store)
    ensures r == store
  {
    Fire(store, WithStore(GetRequest(id, PutSynced)))
  }

  /** `incrementRetry` as written: likewise a no-op on the store. */
  function IncrementRetryAsWritten(store: Store, id: string): (r: Store)
    ensures r == store
  {
    Fire(store, WithStore(GetRequest(id, PutRetried)))
  }

  /** The handlers `markSynced` and `incrementRetry` install do what
      `MarkSynced` and `IncrementRetry` state, when they are the ones that run. */
  lemma InstalledHandlersIntended(store: Store, id: string)
    ensures Fire(store, GetRequest(id, PutSynced)) == MarkSynced(store, id)
    ensures Fire(store, GetRequest(id, PutRetried)) == IncrementRetry(store, id)
  {
  }

  /** As written, a pending record is still pending after `markSynced`, where
      the intended operation takes it out of the pending set. */
  lemma MarkSyncedLeavesPending(store: Store, id: string)
    requires id in store && !store[id].synced
    ensures store[id] in PendingSet(MarkSyncedAsWritten(store, id))
    ensures store[id] !in PendingSet(MarkSynced(store, id))
    ensures MarkSyncedAsWritten(store, id) != MarkSynced(store, id)
  {
    MarkSyncedPending(store, id);
    assert MarkSynced(store, id)[id].synced;
  }

  /** As written, a failed replay is never counted, where the intended
      operation adds one retry. */
  lemma IncrementRetryNotCounted(store: Store, id: string)
    requires id in store
    ensures MarkSyncedAsWritten(store, id)[id].retryCount == store[id].retryCount
    ensures IncrementRetryAsWritten(store, id)[id].retryCount == store[id].retryCount
    ensures IncrementRetry(store, id)[id].retryCount == store[id].retryCount + 1
  {
  }

  /** As written, `getPendingActions` rejects even on a store holding pending
      records, where the intended operation lists them. */
  lemma GetPendingRejects(store: Store, id: string)
    requires id in store && !store[id].synced
    ensures GetPendingAsWritten(store) == Rejected
    ensures store[id] in PendingSet(store)
  {
  }

  /** As written, `clearSynced` keeps a synced record, where the intended
      operation deletes it. */
  lemma ClearSyncedKeepsSynced(store: Store, id: string)
    requires id in store && store[id].synced
    ensures id in ClearSyncedAsWritten(store).0
    ensures id !in ClearSynced(store)
  {
  }

  /** One call the sync driver or the UI makes against the queue. */
  datatype Op =
    | EnqueueOp(input: EnqueueInput, id: string, now: int)
    | MarkSyncedOp(markId: string)
    | IncrementRetryOp(retryId: string)
    | ClearSyncedOp

  function Step(store: Store, op: Op): Store
  {
    match op
    case EnqueueOp(input, id, now) => Enqueue(store, input, id, now).0
    case MarkSyncedOp(id) => MarkSynced(store, id)
    case IncrementRetryOp(id) => IncrementRetry(store, id)
    case ClearSyncedOp => ClearSynced(store)
  }

  /** The store after a sequence of calls, made one after another. */
  function Run(store: Store, ops: seq<Op>): Store
    decreases |ops|
  {
    if ops == [] then store else Run(Step(store, ops[0]), ops[1..])
  }

  lemma SubsetSize(a: set<string>, b: set<string>)
    requires a <= b
    ensures |a| <= |b|
  {
    assert b == a + (b - a);
  }

  /** A single call never takes the store past the cap. */
  lemma StepKeepsCap(store: Store, op: Op)
    requires |store| <= MaxQueue
    ensures |Step(store, op)| <= MaxQueue
  {
    match op
    case EnqueueOp(input, id, now) =>
    case MarkSyncedOp(id) =>
      assert MarkSynced(store, id).Keys == store.Keys;
    case IncrementRetryOp(id) =>
      assert IncrementRetry(store, id).Keys == store.Keys;
    case ClearSyncedOp =>
      SubsetSize(ClearSynced(store).Keys, store.Keys);
  }

  /** Sequential use never takes the store past the cap. */
  lemma {:induction false} RunKeepsCap(store: Store, ops: seq<Op>)
    requires |store| <= MaxQueue
    ensures |Run(store, ops)| <= MaxQueue
    decreases |ops|
  {
    if ops != [] {
      StepKeepsCap(store, ops[0]);
      RunKeepsCap(Step(store, ops[0]), ops[1..]);
    }
  }

  /** Once synced, a record is only ever deleted, never made pending again,
      as long as its id is not handed out again. */
  lemma {:induction false} RunKeepsSynced(store: Store, ops: seq<Op>, k: string)
    requires k in store && store[k].synced
    requires forall i :: 0 <= i < |ops| ==> !(ops[i].EnqueueOp? && ops[i].id == k)
    ensures k in Run(store, ops) ==> Run(store, ops)[k].synced
    decreases |ops|
  {
    if ops != [] {
      var next := Step(store, ops[0]);
      assert forall i :: 0 <= i < |ops[1..]| ==> ops[1..][i] == ops[i + 1];
      if k in next {
        assert next[k].synced;
        RunKeepsSynced(next, ops[1..], k);
      } else {
        RunGone(next, ops[1..], k);
      }
    }
  }

  /** A record that is gone is never recreated under the same id by anything
      but an enqueue of that id. */
  lemma {:induction false} RunGone(store: Store, ops: seq<Op>, k: string)
    requires k !in store
    requires forall i :: 0 <= i < |ops| ==> !(ops[i].EnqueueOp? && ops[i].id == k)
    ensures k !in Run(store, ops)
    decreases |ops|
  {
    if ops != [] {
      assert forall i :: 0 <= i < |ops[1..]| ==> ops[1..][i] == ops[i + 1];
      RunGone(Step(store, ops[0]), ops[1..], k);
    }
  }

  /** One call as the code is written: only an enqueue touches the store. */
  function StepAsWritten(store: Store, op: Op): Store
  {
    match op
    case EnqueueOp(input, id, now) => Enqueue(store, input, id, now).0
    case MarkSyncedOp(id) => MarkSyncedAsWritten(store, id)
    case IncrementRetryOp(id) => IncrementRetryAsWritten(store, id)
    case ClearSyncedOp => ClearSyncedAsWritten(store).0
  }

  function RunAsWritten(store: Store, ops: seq<Op>): Store
    decreases |ops|
  {
    if ops == [] then store else RunAsWritten(StepAsWritten(store, ops[0]), ops[1..])
  }

  /** As written, no record ever leaves the store or changes, so a store that
      reaches the cap stays exactly as it is and every later enqueue returns
      `null`: the queue fills up for good. */
  lemma {:induction false} AsWrittenFullForever(store: Store, ops: seq<Op>)
    ensures forall k :: k in store ==> k in RunAsWritten(store, ops) && RunAsWritten(store, ops)[k] == store[k]
    ensures |store| >= MaxQueue ==> RunAsWritten(store, ops) == store
    decreases |ops|
  {
    if ops != [] {
      var next := StepAsWritten(store, ops[0]);
      assert forall k :: k in store ==> k in next && next[k] == store[k];
      assert |store| >= MaxQueue ==> next == store;
      AsWrittenFullForever(next, ops[1..]);
    }
  }
}
