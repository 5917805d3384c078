/**
 * The write path of the caching client: the lock protocol of one sub-batch
 * (lock set, store write, deferred lock delete), the batch entry point that
 * splits, dispatches and merges, and the single-entity entry point.
 *
 * The cache, the store and the error reporter are collaborators whose
 * outcomes are inputs (`BatchEnv`); the calls made on them are recorded in
 * the client's event trace.
 */
module Client {
  import opened Wrappers
  import opened Batching
  import opened Results

  /** A call on a collaborator. Lock entries are derived from the entity
      keys, so a lock call is identified by the keys it locks. */
  datatype Event<K, V, E> =
    | SetLocks(locked: seq<K>)
    | StoreWrite(written: seq<K>, values: seq<V>)
    | DeleteLocks(unlocked: seq<K>)
    | Reported(failure: E)

  /** The keys and error a multi-put call returns. */
  datatype Reply<K, E> = Reply(keys: seq<K>, err: Err<E>)

  /** What the collaborators answer during one sub-batch: the cache context,
      the lock set, the test hook (None when absent or when it passes), the
      store write and the lock delete. */
  datatype BatchEnv<K, E> = BatchEnv(
    contextErr: Option<E>,
    setErr: Option<E>,
    hookErr: Option<E>,
    store: Reply<K, E>,
    deleteErr: Option<E>)

  /** Protocol phase of an event. */
  function Phase<K, V, E>(ev: Event<K, V, E>): nat
  {
    match ev
    case SetLocks(_) => 0
    case StoreWrite(_, _) => 1
    case DeleteLocks(_) => 2
    case Reported(_) => 3
  }

  /** Each phase occurs at most once, and in protocol order. */
  ghost predicate InProtocolOrder<K, V, E>(t: seq<Event<K, V, E>>)
  {
    forall i, j | 0 <= i < j < |t| :: Phase(t[i]) < Phase(t[j])
  }

  /** The event touches exactly the sub-batch `keys`/`vals`. */
  ghost predicate Concerns<K, V, E>(ev: Event<K, V, E>, keys: seq<K>, vals: seq<V>)
  {
    match ev
    case SetLocks(ks) => ks == keys
    case StoreWrite(ks, vs) => ks == keys && vs == vals
    case DeleteLocks(ks) => ks == keys
    case Reported(_) => true
  }

  /** The sub-batch gets past the cache context, the lock set and the hook. */
  predicate ReachesStore<K, E>(env: BatchEnv<K, E>)
  {
    env.contextErr.None? && env.setErr.None? && env.hookErr.None?
  }

  /** The calls one sub-batch makes on its collaborators. */
  function BatchEvents<K, V, E>(keys: seq<K>, vals: seq<V>, env: BatchEnv<K, E>): (t: seq<Event<K, V, E>>)
    ensures |t| <= 4
    ensures |t| == 0 <==> env.contextErr.Some?
  {
    if env.contextErr.Some? then
      []
    else
      var locked := if ReachesStore(env) then [SetLocks(keys), StoreWrite(keys, vals)] else [SetLocks(keys)];
      var reported := if env.deleteErr.Some? then [Reported(env.deleteErr.value)] else [];
      locked + [DeleteLocks(keys)] + reported
  }

  /** The lock protocol of one sub-batch: without a cache context nothing is
      called; otherwise the locks are set first, the store is written only
      when the lock set and the hook succeed, the locks are deleted exactly
      once on every path, and a failed delete is reported once. */
  lemma LockProtocol<K, V, E>(keys: seq<K>, vals: seq<V>, env: BatchEnv<K, E>)
    ensures InProtocolOrder(BatchEvents(keys, vals, env))
    ensures forall ev | ev in BatchEvents(keys, vals, env) :: Concerns(ev, keys, vals)
    ensures BatchEvents(keys, vals, env) == [] <==> env.contextErr.Some?
    ensures env.contextErr.None? ==> BatchEvents(keys, vals, env)[0] == SetLocks(keys)
    ensures DeleteLocks(keys) in BatchEvents(keys, vals, env) <==> env.contextErr.None?
    ensures StoreWrite(keys, vals) in BatchEvents(keys, vals, env) <==> ReachesStore(env)
    ensures forall ev | ev in BatchEvents(keys, vals, env) && ev.Reported? :: env.deleteErr == Some(ev.failure)
    ensures env.contextErr.None? && env.deleteErr.Some? ==> Reported(env.deleteErr.value) in BatchEvents(keys, vals, env)
  {
    var t := BatchEvents(keys, vals, env);
    if env.contextErr.None? {
      var lock: Event<K, V, E> := SetLocks(keys);
      var write: Event<K, V, E> := StoreWrite(keys, vals);
      var unlock: Event<K, V, E> := DeleteLocks(keys);
      if env.deleteErr.Some? {
        var report: Event<K, V, E> := Reported(env.deleteErr.value);
        if ReachesStore(env) {
          assert t == [lock, write, unlock, report];
        } else {
          assert t == [lock, unlock, report];
        }
      } else if ReachesStore(env) {
        assert t == [lock, write, unlock];
      } else {
        assert t == [lock, unlock];
      }
    }
  }

  /** The only store write of one sub-batch carries its own keys and values. */
  lemma BatchWritesOwn<K, V, E>(keys: seq<K>, vals: seq<V>, env: BatchEnv<K, E>)
    ensures forall ev | ev in BatchEvents(keys, vals, env) && ev.StoreWrite? :: ev.written == keys && ev.values == vals
  {
    LockProtocol(keys, vals, env);
  }

  /** A sub-batch that obtained its cache context deletes its own locks. */
  lemma BatchUnlocks<K, V, E>(keys: seq<K>, vals: seq<V>, env: BatchEnv<K, E>)
    requires env.contextErr.None?
    ensures DeleteLocks(keys) in BatchEvents(keys, vals, env)
  {
    LockProtocol(keys, vals, env);
  }

  /** What one sub-batch returns. */
  function BatchOutcome<K, E>(keys: seq<K>, env: BatchEnv<K, E>): (r: Reply<K, E>)
    ensures ReachesStore(env) ==> r == env.store
    ensures env.contextErr.Some? ==> r == Reply([], Single(env.contextErr.value))
    ensures env.contextErr.None? && env.setErr.Some? ==> r == Reply([], Single(env.setErr.value))
    ensures env.contextErr.None? && env.setErr.None? && env.hookErr.Some? ==> r == Reply(keys, Single(env.hookErr.value))
  {
    if env.contextErr.Some? then Reply([], Single(env.contextErr.value))
    else if env.setErr.Some? then Reply([], Single(env.setErr.value))
    else if env.hookErr.Some? then Reply(keys, Single(env.hookErr.value))
    else env.store
  }

  /** The returned value does not depend on whether the lock delete failed. */
  lemma DeleteFailureInvisible<K, E>(keys: seq<K>, env: BatchEnv<K, E>, deleteErr: Option<E>)
    ensures BatchOutcome(keys, env.(deleteErr := deleteErr)) == BatchOutcome(keys, env)
  {
  }

  /** A nil error means the store was written and answered nil; anything
      that stops the sub-batch before the store is a wholesale error. */
  lemma NilErrorOnlyFromStore<K, E>(keys: seq<K>, env: BatchEnv<K, E>)
    ensures BatchOutcome(keys, env).err.NoErr? <==> ReachesStore(env) && env.store.err.NoErr?
    ensures !ReachesStore(env) ==> BatchOutcome(keys, env).err.Single?
  {
  }

  /** A per-key error array from the store fits the sub-batch of `size` keys. */
  predicate StoreFits<K, E>(r: Reply<K, E>, size: int)
  {
    r.err.Multi? ==>
      && |r.err.errs| <= size
      && forall j | 0 <= j < |r.err.errs| && r.err.errs[j].None? :: j < |r.keys|
  }

  /** Positions `[Lo(i), Hi(i, n))` of `s`. */
  function SubBatch<T>(s: seq<T>, n: nat, i: nat): (r: seq<T>)
    requires |s| == n && n > 0 && i < CallCount(n)
    ensures 0 < |r| <= Limit && |r| == Size(i, n)
    ensures forall j | 0 <= j < |r| :: r[j] == s[Lo(i) + j]
  {
    RangeWellFormed(n, i);
    s[Lo(i)..Hi(i, n)]
  }

  /** The collaborators' answers cover every sub-batch of `keys`, and the
      values match the keys (as validation guarantees before any dispatch). */
  predicate Aligned<K, V, E>(keys: seq<K>, vals: seq<V>, envs: seq<BatchEnv<K, E>>)
  {
    && |keys| > 0
    && |vals| == |keys|
    && |envs| == CallCount(|keys|)
  }

  /** Aligned answers, and every per-key error array from the store fits
      its sub-batch. */
  predicate DispatchReady<K, V, E>(keys: seq<K>, vals: seq<V>, envs: seq<BatchEnv<K, E>>)
  {
    && Aligned(keys, vals, envs)
    && forall i | 0 <= i < |envs| :: StoreFits(envs[i].store, Size(i, |keys|))
  }

  /** What sub-batch `i` returns. */
  function SubReply<K, V, E>(keys: seq<K>, vals: seq<V>, envs: seq<BatchEnv<K, E>>, i: nat): Reply<K, E>
    requires Aligned(keys, vals, envs) && i < |envs|
  {
    BatchOutcome(SubBatch(keys, |keys|, i), envs[i])
  }

  /** The calls sub-batches `0 .. c - 1` make, in sub-batch order. */
  function DispatchEvents<K, V, E>(keys: seq<K>, vals: seq<V>, envs: seq<BatchEnv<K, E>>, c: nat): seq<Event<K, V, E>>
    requires Aligned(keys, vals, envs) && c <= |envs|
  {
    if c == 0 then []
    else DispatchEvents(keys, vals, envs, c - 1)
         + BatchEvents(SubBatch(keys, |keys|, c - 1), SubBatch(vals, |keys|, c - 1), envs[c - 1])
  }

  /** The key arrays the sub-batches return. */
  function DispatchKeys<K, V, E>(keys: seq<K>, vals: seq<V>, envs: seq<BatchEnv<K, E>>): seq<seq<K>>
    requires Aligned(keys, vals, envs)
  {
    seq(|envs|, i requires 0 <= i < |envs| => SubReply(keys, vals, envs, i).keys)
  }

  /** The errors the sub-batches return. */
  function DispatchErrs<K, V, E>(keys: seq<K>, vals: seq<V>, envs: seq<BatchEnv<K, E>>): seq<Err<E>>
    requires Aligned(keys, vals, envs)
  {
    seq(|envs|, i requires 0 <= i < |envs| => SubReply(keys, vals, envs, i).err)
  }

  /** Sub-batch `i` extends the dispatch by its own outcome and calls. */
  lemma DispatchStep<K, V, E>(keys: seq<K>, vals: seq<V>, envs: seq<BatchEnv<K, E>>, i: nat)
    requires Aligned(keys, vals, envs) && i < |envs|
    ensures DispatchKeys(keys, vals, envs)[..i + 1] == DispatchKeys(keys, vals, envs)[..i] + [SubReply(keys, vals, envs, i).keys]
    ensures DispatchErrs(keys, vals, envs)[..i + 1] == DispatchErrs(keys, vals, envs)[..i] + [SubReply(keys, vals, envs, i).err]
    ensures DispatchEvents(keys, vals, envs, i + 1)
            == DispatchEvents(keys, vals, envs, i) + BatchEvents(SubBatch(keys, |keys|, i), SubBatch(vals, |keys|, i), envs[i])
  {
  }

  /** The sub-batch outcomes are fit for the merge. */
  lemma DispatchShaped<K, V, E>(keys: seq<K>, vals: seq<V>, envs: seq<BatchEnv<K, E>>)
    requires DispatchReady(keys, vals, envs)
    ensures Shaped(DispatchKeys(keys, vals, envs), DispatchErrs(keys, vals, envs), |keys|)
  {
  }

  /** When every sub-batch reaches the store and the store accepts all of
      it, returning one key per input, the batch result is the store's keys
      in input order, N long, with a nil error. */
  lemma AllStoredInOrder<K, V, E>(keys: seq<K>, vals: seq<V>, envs: seq<BatchEnv<K, E>>)
    requires Aligned(keys, vals, envs)
    requires forall i | 0 <= i < |envs| ::
               ReachesStore(envs[i]) && envs[i].store.err.NoErr? && |envs[i].store.keys| == Size(i, |keys|)
    ensures Shaped(DispatchKeys(keys, vals, envs), DispatchErrs(keys, vals, envs), |keys|)
    ensures Merge(DispatchKeys(keys, vals, envs), DispatchErrs(keys, vals, envs), |keys|).err == NoErr
    ensures |Flatten(DispatchKeys(keys, vals, envs))| == |keys|
    ensures forall k | 0 <= k < |keys| ::
              Merge(DispatchKeys(keys, vals, envs), DispatchErrs(keys, vals, envs), |keys|).keys[k]
              == Some(Flatten(DispatchKeys(keys, vals, envs))[k])
  {
    var putKeys, errs := DispatchKeys(keys, vals, envs), DispatchErrs(keys, vals, envs);
    assert AllNil(errs);
    assert KeysFitBatches(putKeys, |keys|);
    SuccessIsConcatenation(putKeys, errs, |keys|);
  }

  /** Every store write the dispatch issues carries between 1 and `Limit`
      keys with their values. */
  lemma {:induction false} StoreWritesWithinLimit<K, V, E>(keys: seq<K>, vals: seq<V>, envs: seq<BatchEnv<K, E>>, c: nat)
    requires Aligned(keys, vals, envs) && c <= |envs|
    ensures forall ev | ev in DispatchEvents(keys, vals, envs, c) && ev.StoreWrite? ::
              0 < |ev.written| <= Limit && |ev.values| == |ev.written|
  {
    if c > 0 {
      var batchKeys, batchVals := SubBatch(keys, |keys|, c - 1), SubBatch(vals, |keys|, c - 1);
      var sub := BatchEvents(batchKeys, batchVals, envs[c - 1]);
      assert DispatchEvents(keys, vals, envs, c) == DispatchEvents(keys, vals, envs, c - 1) + sub;
      StoreWritesWithinLimit(keys, vals, envs, c - 1);
      BatchWritesOwn(batchKeys, batchVals, envs[c - 1]);
    }
  }

  /** The store writes of a trace, in trace order. */
  function StoreWrites<K, V, E>(t: seq<Event<K, V, E>>): (w: seq<Event<K, V, E>>)
  {
    if |t| == 0 then []
    else (if t[0].StoreWrite? then [t[0]] else []) + StoreWrites(t[1..])
  }

  /** The keys a sequence of store writes carries, concatenated. */
  function WrittenKeys<K, V, E>(w: seq<Event<K, V, E>>): seq<K>
  {
    if |w| == 0 then []
    else WrittenKeys(w[..|w| - 1]) + if w[|w| - 1].StoreWrite? then w[|w| - 1].written else []
  }

  /** The sub-batches among `0 .. c - 1` that reach the store, in increasing order. */
  function Reaching<K, E>(envs: seq<BatchEnv<K, E>>, c: nat): seq<nat>
    requires c <= |envs|
  {
    if c == 0 then [] else Reaching(envs, c - 1) + if ReachesStore(envs[c - 1]) then [c - 1] else []
  }

  /** `Reaching` lists, in strictly increasing order, exactly the sub-batches
      below `c` that reach the store. */
  lemma {:induction false} ReachingLists<K, E>(envs: seq<BatchEnv<K, E>>, c: nat)
    requires c <= |envs|
    ensures forall m | 0 <= m < |Reaching(envs, c)| :: Reaching(envs, c)[m] < c && ReachesStore(envs[Reaching(envs, c)[m]])
    ensures forall i | 0 <= i < c && ReachesStore(envs[i]) :: i in Reaching(envs, c)
    ensures forall m, m' | 0 <= m < m' < |Reaching(envs, c)| :: Reaching(envs, c)[m] < Reaching(envs, c)[m']
  {
    if c > 0 {
      ReachingLists(envs, c - 1);
    }
  }

  /** Filtering store writes distributes over concatenation. */
  lemma {:induction false} StoreWritesAppend<K, V, E>(a: seq<Event<K, V, E>>, b: seq<Event<K, V, E>>)
    ensures StoreWrites(a + b) == StoreWrites(a) + StoreWrites(b)
  {
    if |a| == 0 {
      assert a + b == b;
    } else {
      var head := if a[0].StoreWrite? then [a[0]] else [];
      StoreWritesAppend(a[1..], b);
      assert (a + b)[0] == a[0];
      assert (a + b)[1..] == a[1..] + b;
      calc {
        StoreWrites(a + b);
        head + StoreWrites(a[1..] + b);
        head + (StoreWrites(a[1..]) + StoreWrites(b));
        (head + StoreWrites(a[1..])) + StoreWrites(b);
      }
    }
  }

  /** A single event is kept exactly when it is a store write. */
  lemma StoreWritesSingle<K, V, E>(ev: Event<K, V, E>)
    ensures StoreWrites([ev]) == if ev.StoreWrite? then [ev] else []
  {
    assert [ev][1..] == [];
  }

  /** One sub-batch writes to the store once, with its own keys and values,
      exactly when it reaches the store. */
  lemma BatchStoreWrites<K, V, E>(keys: seq<K>, vals: seq<V>, env: BatchEnv<K, E>)
    ensures StoreWrites(BatchEvents(keys, vals, env)) == if ReachesStore(env) then [StoreWrite(keys, vals)] else []
  {
    if env.contextErr.None? {
      var lock: Event<K, V, E> := SetLocks(keys);
      var write: Event<K, V, E> := StoreWrite(keys, vals);
      var unlock: Event<K, V, E> := DeleteLocks(keys);
      var locked := if ReachesStore(env) then [lock, write] else [lock];
      var reported: seq<Event<K, V, E>> := if env.deleteErr.Some? then [Reported(env.deleteErr.value)] else [];
      assert BatchEvents(keys, vals, env) == locked + [unlock] + reported;
      StoreWritesSingle(lock);
      StoreWritesSingle(unlock);
      if ReachesStore(env) {
        StoreWritesSingle(write);
        assert locked == [lock] + [write];
        StoreWritesAppend([lock], [write]);
      }
      if env.deleteErr.Some? {
        StoreWritesSingle(reported[0]);
        assert reported == [reported[0]];
      }
      StoreWritesAppend(locked, [unlock]);
      StoreWritesAppend(locked + [unlock], reported);
    }
  }

  /** Sub-batch `c - 1` adds to the dispatch's store writes its own write,
      if it reaches the store, and nothing else. */
  lemma DispatchWritesStep<K, V, E>(keys: seq<K>, vals: seq<V>, envs: seq<BatchEnv<K, E>>, c: nat)
    requires Aligned(keys, vals, envs) && 0 < c <= |envs|
    ensures StoreWrites(DispatchEvents(keys, vals, envs, c))
            == StoreWrites(DispatchEvents(keys, vals, envs, c - 1))
               + if ReachesStore(envs[c - 1]) then [StoreWrite(SubBatch(keys, |keys|, c - 1), SubBatch(vals, |keys|, c - 1))] else []
  {
    var batchKeys, batchVals := SubBatch(keys, |keys|, c - 1), SubBatch(vals, |keys|, c - 1);
    StoreWritesAppend(DispatchEvents(keys, vals, envs, c - 1), BatchEvents(batchKeys, batchVals, envs[c - 1]));
    BatchStoreWrites(batchKeys, batchVals, envs[c - 1]);
  }

  /** The writes sub-batches `0 .. c - 1` are meant to make: one per
      sub-batch that reaches the store, in sub-batch order. */
  function ExpectedWrites<K, V, E>(keys: seq<K>, vals: seq<V>, envs: seq<BatchEnv<K, E>>, c: nat): seq<Event<K, V, E>>
    requires Aligned(keys, vals, envs) && c <= |envs|
  {
    if c == 0 then []
    else ExpectedWrites(keys, vals, envs, c - 1)
         + if ReachesStore(envs[c - 1]) then [StoreWrite(SubBatch(keys, |keys|, c - 1), SubBatch(vals, |keys|, c - 1))] else []
  }

  /** Write `m` of `ExpectedWrites` is that of the `m`-th sub-batch that
      reaches the store. */
  lemma {:induction false} ExpectedWritesIndexed<K, V, E>(keys: seq<K>, vals: seq<V>, envs: seq<BatchEnv<K, E>>, c: nat)
    requires Aligned(keys, vals, envs) && c <= |envs|
    ensures |ExpectedWrites(keys, vals, envs, c)| == |Reaching(envs, c)|
    ensures forall m | 0 <= m < |Reaching(envs, c)| ::
              && Reaching(envs, c)[m] < |envs|
              && ExpectedWrites(keys, vals, envs, c)[m]
                 == StoreWrite(SubBatch(keys, |keys|, Reaching(envs, c)[m]), SubBatch(vals, |keys|, Reaching(envs, c)[m]))
  {
    if c > 0 {
      ExpectedWritesIndexed(keys, vals, envs, c - 1);
    }
  }

  /** The store writes of the dispatch are exactly the expected ones: in
      sub-batch order, one write per sub-batch that reaches the store,
      carrying that sub-batch's keys and values. */
  lemma {:induction false} DispatchStoreWrites<K, V, E>(keys: seq<K>, vals: seq<V>, envs: seq<BatchEnv<K, E>>, c: nat)
    requires Aligned(keys, vals, envs) && c <= |envs|
    ensures StoreWrites(DispatchEvents(keys, vals, envs, c)) == ExpectedWrites(keys, vals, envs, c)
  {
    if c > 0 {
      DispatchStoreWrites(keys, vals, envs, c - 1);
      DispatchWritesStep(keys, vals, envs, c);
    }
  }

  /** A write appended to a sequence of writes appends its keys. */
  lemma WrittenKeysAppend<K, V, E>(w: seq<Event<K, V, E>>, keys: seq<K>, vals: seq<V>)
    ensures WrittenKeys(w + [StoreWrite(keys, vals)]) == WrittenKeys(w) + keys
  {
    assert (w + [StoreWrite(keys, vals)])[..|w|] == w;
  }

  /** The input's first `Hi(c - 1)` keys are its first `Hi(c - 2)` keys
      followed by sub-batch `c - 1`. */
  lemma KeysPrefixStep<K>(keys: seq<K>, c: nat)
    requires |keys| > 0 && 1 < c <= CallCount(|keys|)
    ensures keys[..Hi(c - 1, |keys|)] == keys[..Hi(c - 2, |keys|)] + SubBatch(keys, |keys|, c - 1)
  {
    RangeWellFormed(|keys|, c - 1);
    RangesTile(|keys|, c - 2);
  }

  /** When every sub-batch reaches the store, the first `c` of them are
      expected to write `c` times, and the keys written are the input's
      first `Hi(c - 1)` keys, each once and in order. */
  lemma {:induction false} WrittenPrefix<K, V, E>(keys: seq<K>, vals: seq<V>, envs: seq<BatchEnv<K, E>>, c: nat)
    requires Aligned(keys, vals, envs) && 0 < c <= |envs|
    requires forall i | 0 <= i < |envs| :: ReachesStore(envs[i])
    ensures |ExpectedWrites(keys, vals, envs, c)| == c
    ensures WrittenKeys(ExpectedWrites(keys, vals, envs, c)) == keys[..Hi(c - 1, |keys|)]
  {
    var prior := ExpectedWrites(keys, vals, envs, c - 1);
    var sub := SubBatch(keys, |keys|, c - 1);
    assert ExpectedWrites(keys, vals, envs, c) == prior + [StoreWrite(sub, SubBatch(vals, |keys|, c - 1))];
    WrittenKeysAppend(prior, sub, SubBatch(vals, |keys|, c - 1));
    if c == 1 {
      assert keys[..Hi(0, |keys|)] == sub;
    } else {
      WrittenPrefix(keys, vals, envs, c - 1);
      KeysPrefixStep(keys, c);
    }
  }

  /** When every sub-batch reaches the store, the dispatch writes
      `CallCount(N)` times and the keys written, in order, are the input
      keys: every key is written exactly once. */
  lemma EveryKeyWrittenOnce<K, V, E>(keys: seq<K>, vals: seq<V>, envs: seq<BatchEnv<K, E>>)
    requires Aligned(keys, vals, envs)
    requires forall i | 0 <= i < |envs| :: ReachesStore(envs[i])
    ensures |StoreWrites(DispatchEvents(keys, vals, envs, |envs|))| == CallCount(|keys|)
    ensures WrittenKeys(StoreWrites(DispatchEvents(keys, vals, envs, |envs|))) == keys
  {
    DispatchStoreWrites(keys, vals, envs, |envs|);
    WrittenPrefix(keys, vals, envs, |envs|);
    RangesTile(|keys|, |envs| - 1);
    assert keys[..|keys|] == keys;
  }

  /** Every sub-batch that obtained its cache context deletes its locks. */
  lemma {:induction false} EveryLockReleased<K, V, E>(keys: seq<K>, vals: seq<V>, envs: seq<BatchEnv<K, E>>, c: nat, i: nat)
    requires Aligned(keys, vals, envs) && i < c <= |envs|
    requires envs[i].contextErr.None?
    ensures DeleteLocks(SubBatch(keys, |keys|, i)) in DispatchEvents(keys, vals, envs, c)
  {
    var prior := DispatchEvents(keys, vals, envs, c - 1);
    var sub := BatchEvents(SubBatch(keys, |keys|, c - 1), SubBatch(vals, |keys|, c - 1), envs[c - 1]);
    assert DispatchEvents(keys, vals, envs, c) == prior + sub;
    if i < c - 1 {
      EveryLockReleased(keys, vals, envs, c - 1, i);
    } else {
      BatchUnlocks(SubBatch(keys, |keys|, c - 1), SubBatch(vals, |keys|, c - 1), envs[c - 1]);
    }
  }

  /** `Put`'s error collapse: the one key on success, entry 0 of a per-key
      error array, any other error unchanged. */
  function Collapse<K, E>(r: Reply<K, E>): (out: (Option<K>, Option<E>))
    requires r.err.NoErr? ==> |r.keys| > 0
    requires r.err.Multi? ==> |r.err.errs| > 0
    ensures out.0.Some? <==> r.err.NoErr?
    ensures r.err.NoErr? ==> out.0 == Some(r.keys[0]) && out.1 == None
    ensures r.err.Multi? ==> out.1 == r.err.errs[0]
    ensures r.err.Single? ==> out.1 == Some(r.err.e)
  {
    match r.err
    case NoErr => (Some(r.keys[0]), None)
    case Multi(es) => (None, es[0])
    case Single(e) => (None, Some(e))
  }

  /** The collapse agrees with position 0 of the batch merge of the same
      one-key outcome, unless a per-key error array reports entry 0 nil (the
      merge then records the key, the collapse returns neither). */
  lemma CollapseAgreesWithMerge<K, E>(r: Reply<K, E>)
    requires r.err.NoErr? ==> |r.keys| > 0
    requires r.err.Multi? ==> |r.err.errs| == 1 && r.err.errs[0].Some?
    ensures Shaped([r.keys], [r.err], 1)
    ensures Collapse(r).0 == Merge([r.keys], [r.err], 1).keys[0]
    ensures Collapse(r).1 == match Merge([r.keys], [r.err], 1).err
                             case Multi(es) => es[0]
                             case _ => None
  {
  }

  /** Writing slot `i` of `a` extends the prefix before it by `x` and keeps
      every later slot. */
  method SetSlot<T>(a: array<T>, i: nat, x: T)
    requires i < a.Length
    modifies a
    ensures a[..i + 1] == old(a[..i]) + [x]
    ensures a[i + 1..] == old(a[i + 1..])
  {
    a[i] := x;
    assert a[..i + 1] == a[..i] + [x];
  }

  /** The client, as seen through the calls it makes on its cache, its
      store and its error reporter. */
  class Client<K, V, E> {
    var events: seq<Event<K, V, E>>

    constructor ()
      ensures events == []
    {
      events := [];
    }

    /** The deferred cleanup of `putMulti`: delete the locks and report a
        failed delete. */
    method ReleaseLocks(keys: seq<K>, deleteErr: Option<E>)
      modifies this
      ensures events == old(events) + [DeleteLocks(keys)]
                        + (if deleteErr.Some? then [Reported(deleteErr.value)] else [])
    {
      events := events + [DeleteLocks(keys)];
      if deleteErr.Some? {
        events := events + [Reported(deleteErr.value)];
      }
    }

    /** `putMulti`: lock the sub-batch in the cache, write it to the store,
        and delete the locks on every path after the cache context exists. */
    method PutBatch(keys: seq<K>, vals: seq<V>, env: BatchEnv<K, E>) returns (putKeys: seq<K>, err: Err<E>)
      modifies this
      ensures events == old(events) + BatchEvents(keys, vals, env)
      ensures Reply(putKeys, err) == BatchOutcome(keys, env)
    {
      if env.contextErr.Some? {
        return [], Single(env.contextErr.value);
      }
      events := events + [SetLocks(keys)];
      if env.setErr.Some? {
        putKeys, err := [], Single(env.setErr.value);
      } else if env.hookErr.Some? {
        putKeys, err := keys, Single(env.hookErr.value);
      } else {
        events := events + [StoreWrite(keys, vals)];
        putKeys, err := env.store.keys, env.store.err;
      }
      ReleaseLocks(keys, env.deleteErr);
    }

    /** Iteration `i` of the dispatch: `putMulti` on sub-batch `i`, whose
        outcome goes to slot `i` of the shared result arrays and nowhere else. */
    method DispatchOne(keysOut: array<seq<K>>, errsOut: array<Err<E>>,
                       keys: seq<K>, vals: seq<V>, envs: seq<BatchEnv<K, E>>, i: nat,
                       ghost prior: seq<Event<K, V, E>>)
      requires Aligned(keys, vals, envs) && i < |envs|
      requires keysOut.Length == |envs| && errsOut.Length == |envs|
      requires keysOut[..i] == DispatchKeys(keys, vals, envs)[..i]
      requires errsOut[..i] == DispatchErrs(keys, vals, envs)[..i]
      requires events == prior + DispatchEvents(keys, vals, envs, i)
      modifies this, keysOut, errsOut
      ensures keysOut[..i + 1] == DispatchKeys(keys, vals, envs)[..i + 1]
      ensures errsOut[..i + 1] == DispatchErrs(keys, vals, envs)[..i + 1]
      ensures keysOut[i + 1..] == old(keysOut[i + 1..]) && errsOut[i + 1..] == old(errsOut[i + 1..])
      ensures events == prior + DispatchEvents(keys, vals, envs, i + 1)
    {
      var batchKeys, batchErr := PutBatch(SubBatch(keys, |keys|, i), SubBatch(vals, |keys|, i), envs[i]);
      DispatchStep(keys, vals, envs, i);
      SetSlot(keysOut, i, batchKeys);
      SetSlot(errsOut, i, batchErr);
    }

    /** The dispatch of `PutMulti`: one `putMulti` per sub-batch, sub-batch
        `i` recording its outcome in slot `i` only. */
    method Dispatch(keys: seq<K>, vals: seq<V>, envs: seq<BatchEnv<K, E>>)
      returns (putKeys: seq<seq<K>>, errs: seq<Err<E>>)
      requires Aligned(keys, vals, envs)
      modifies this
      ensures events == old(events) + DispatchEvents(keys, vals, envs, |envs|)
      ensures putKeys == DispatchKeys(keys, vals, envs)
      ensures errs == DispatchErrs(keys, vals, envs)
    {
      var callCount := (|keys| - 1) / Limit + 1;
      var keysOut := new seq<K>[callCount](_ => []);
      var errsOut := new Err<E>[callCount](_ => NoErr);
      for i := 0 to callCount
        invariant keysOut[..i] == DispatchKeys(keys, vals, envs)[..i]
        invariant errsOut[..i] == DispatchErrs(keys, vals, envs)[..i]
        invariant events == old(events) + DispatchEvents(keys, vals, envs, i)
      {
        DispatchOne(keysOut, errsOut, keys, vals, envs, i, old(events));
      }
      assert keysOut[..] == keysOut[..callCount];
      assert errsOut[..] == errsOut[..callCount];
      putKeys, errs := keysOut[..], errsOut[..];
    }

    /** `PutMulti`: validate, split into sub-batches of at most `Limit`
        keys, run `putMulti` on each and merge the outcomes. */
    method PutMulti(keys: seq<K>, vals: seq<V>, checkErr: Option<E>, envs: seq<BatchEnv<K, E>>)
      returns (grouped: seq<Option<K>>, err: Err<E>)
      requires |keys| > 0 && checkErr.None? ==> DispatchReady(keys, vals, envs)
      modifies this
      ensures |keys| == 0 ==> grouped == [] && err == NoErr && events == old(events)
      ensures |keys| > 0 && checkErr.Some? ==>
                grouped == [] && err == Single(checkErr.value) && events == old(events)
      ensures |keys| > 0 && checkErr.None? ==>
                && events == old(events) + DispatchEvents(keys, vals, envs, |envs|)
                && Shaped(DispatchKeys(keys, vals, envs), DispatchErrs(keys, vals, envs), |keys|)
                && Merged(grouped, err) == Merge(DispatchKeys(keys, vals, envs), DispatchErrs(keys, vals, envs), |keys|)
    {
      if |keys| == 0 {
        return [], NoErr;
      }
      if checkErr.Some? {
        return [], Single(checkErr.value);
      }
      var putKeys, errs := Dispatch(keys, vals, envs);
      DispatchShaped(keys, vals, envs);
      grouped, err := MergeResults(putKeys, errs, |keys|);
    }

    /** `Put`: write one entity through `putMulti` and collapse the outcome
        to a single key or a single error. */
    method Put(key: K, val: V, checkErr: Option<E>, env: BatchEnv<K, E>) returns (k: Option<K>, err: Option<E>)
      requires checkErr.None? && ReachesStore(env) && env.store.err.NoErr? ==> |env.store.keys| > 0
      requires checkErr.None? && ReachesStore(env) && env.store.err.Multi? ==> |env.store.err.errs| > 0
      modifies this
      ensures checkErr.Some? ==> k == None && err == checkErr && events == old(events)
      ensures checkErr.None? ==>
                && events == old(events) + BatchEvents([key], [val], env)
                && (k, err) == Collapse(BatchOutcome([key], env))
    {
      if checkErr.Some? {
        return None, checkErr;
      }
      var keys, e := PutBatch([key], [val], env);
      match e
      case NoErr =>
        return Some(keys[0]), None;
      case Multi(es) =>
        return None, es[0];
      case Single(x) =>
        return None, Some(x);
    }
  }
}
