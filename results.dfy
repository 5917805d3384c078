/**
 * The result aggregator of PutMulti: per-sub-batch (keys, error) outcomes are
 * merged back into one result aligned with the caller's N keys.
 */
module Results {
  import opened Wrappers
  import opened Batching

  /** The shape of a Go `error` as the aggregator inspects it: nil, a
      per-key `datastore.MultiError` (each entry nil or an error), or any
      other non-nil error. */
  datatype Err<E> = NoErr | Single(e: E) | Multi(errs: seq<Option<E>>)

  /** What PutMulti returns: a key slot per input position (nil where no
      key was recorded) and the error. */
  datatype Merged<K, E> = Merged(keys: seq<Option<K>>, err: Err<E>)

  /** The scan `isErrorsNil` performs, entry by entry: it passes exactly
      when every sub-batch error is nil. */
  predicate AllNil<E>(errs: seq<Err<E>>)
    ensures AllNil(errs) <==> forall i | 0 <= i < |errs| :: errs[i].NoErr?
  {
    errs == [] || (errs[0].NoErr? && AllNil(errs[1..]))
  }

  /** The sub-batch outcomes of an `n`-key request fit the merge: one per
      sub-batch, and a per-key error array is no longer than its sub-batch
      and has a key beside each of its nil entries. */
  predicate Shaped<K, E>(putKeys: seq<seq<K>>, errs: seq<Err<E>>, n: nat)
  {
    && n > 0
    && |putKeys| == CallCount(n)
    && |errs| == CallCount(n)
    && forall i | 0 <= i < |errs| ::
         errs[i].Multi? ==>
           && |errs[i].errs| <= Size(i, n)
           && forall j | 0 <= j < |errs[i].errs| && errs[i].errs[j].None? :: j < |putKeys[i]|
  }

  /** Success path, position `k`: the key copied there from its sub-batch
      (a copy stops at the shorter of the sub-batch and its key array). */
  function SuccessKey<K>(putKeys: seq<seq<K>>, n: nat, k: nat): (r: Option<K>)
    requires n > 0 && |putKeys| == CallCount(n) && k < n
    ensures r.Some? ==> r.value in putKeys[BatchOf(k)]
    ensures KeysFitBatches(putKeys, n) ==> r.Some?
  {
    BatchOfLocates(n, k);
    var i := BatchOf(k);
    var j := k - Lo(i);
    if j < |putKeys[i]| then Some(putKeys[i][j]) else None
  }

  /** Failure path, key slot `k`: only a nil entry of a per-key error array
      records a key; a wholesale error and a nil sub-batch error record none. */
  function FailureKey<K, E>(putKeys: seq<seq<K>>, errs: seq<Err<E>>, n: nat, k: nat): (r: Option<K>)
    requires Shaped(putKeys, errs, n) && k < n
    ensures r.Some? ==>
              && errs[BatchOf(k)].Multi?
              && k - Lo(BatchOf(k)) < |errs[BatchOf(k)].errs|
              && errs[BatchOf(k)].errs[k - Lo(BatchOf(k))].None?
  {
    BatchOfLocates(n, k);
    var i := BatchOf(k);
    var j := k - Lo(i);
    match errs[i]
    case Multi(me) => if j < |me| && me[j].None? then Some(putKeys[i][j]) else None
    case _ => None
  }

  /** Failure path, error slot `k`: the matching entry of a per-key error
      array, or the sub-batch's wholesale error. */
  function FailureErr<K, E>(putKeys: seq<seq<K>>, errs: seq<Err<E>>, n: nat, k: nat): (r: Option<E>)
    requires Shaped(putKeys, errs, n) && k < n
    ensures errs[BatchOf(k)].NoErr? ==> r.None?
    ensures errs[BatchOf(k)].Single? ==> r == Some(errs[BatchOf(k)].e)
    ensures errs[BatchOf(k)].Multi? && r.Some? ==> r in errs[BatchOf(k)].errs
  {
    BatchOfLocates(n, k);
    var i := BatchOf(k);
    var j := k - Lo(i);
    match errs[i]
    case Multi(me) => if j < |me| then me[j] else None
    case Single(e) => Some(e)
    case NoErr => None
  }

  /** The merged result, position by position. */
  function Merge<K, E>(putKeys: seq<seq<K>>, errs: seq<Err<E>>, n: nat): (m: Merged<K, E>)
    requires Shaped(putKeys, errs, n)
    ensures |m.keys| == n
    ensures m.err.NoErr? <==> AllNil(errs)
    ensures !m.err.Single?
    ensures m.err.Multi? ==> |m.err.errs| == n
    ensures m.err.Multi? ==> forall k | 0 <= k < n :: !(m.keys[k].Some? && m.err.errs[k].Some?)
  {
    if AllNil(errs) then
      Merged(seq(n, k requires 0 <= k < n => SuccessKey(putKeys, n, k)), NoErr)
    else
      Merged(seq(n, k requires 0 <= k < n => FailureKey(putKeys, errs, n, k)),
             Multi(seq(n, k requires 0 <= k < n => FailureErr(putKeys, errs, n, k))))
  }

  /** Position `Lo(i) + j` of sub-batch `i` is the `j`-th entry of that sub-batch. */
  lemma LocalIndex(n: nat, i: nat, j: nat)
    requires n > 0 && i < CallCount(n) && 0 <= j < Size(i, n)
    ensures Lo(i) + j < n && BatchOf(Lo(i) + j) == i
  {
  }

  /** Success path, sub-batch `i`: `copy(groupedKeys[lo:hi], putKeys[i])`. */
  method CopyBatch<K>(grouped: array<Option<K>>, putKeys: seq<seq<K>>, n: nat, i: nat)
    requires n > 0 && |putKeys| == CallCount(n) && i < |putKeys| && grouped.Length == n
    requires forall k | 0 <= k < n :: grouped[k] == if k < Lo(i) then SuccessKey(putKeys, n, k) else None
    modifies grouped
    ensures forall k | 0 <= k < n :: grouped[k] == if k < Lo(i + 1) then SuccessKey(putKeys, n, k) else None
  {
    var lo := i * Limit;
    var hi := (i + 1) * Limit;
    if hi > n {
      hi := n;
    }
    RangeWellFormed(n, i);
    var j := 0;
    while j < hi - lo && j < |putKeys[i]|
      invariant 0 <= j <= hi - lo
      invariant forall k | 0 <= k < n :: grouped[k] == if k < lo + j then SuccessKey(putKeys, n, k) else None
    {
      LocalIndex(n, i, j);
      grouped[lo + j] := Some(putKeys[i][j]);
      j := j + 1;
    }
    forall k | lo + j <= k < hi
      ensures SuccessKey(putKeys, n, k) == None
    {
      LocalIndex(n, i, k - lo);
    }
  }

  /** Entry `j` of sub-batch `i`'s per-key error array goes to position
      `Lo(i) + j`: its key when the entry is nil, the entry otherwise. */
  method SpreadEntry<K, E>(groupedKeys: array<Option<K>>, groupedErrs: array<Option<E>>,
                           putKeys: seq<seq<K>>, errs: seq<Err<E>>, n: nat, i: nat, j: nat)
    requires Shaped(putKeys, errs, n) && i < |errs| && errs[i].Multi? && j < |errs[i].errs|
    requires groupedKeys.Length == n && groupedErrs.Length == n && groupedKeys as object != groupedErrs
    requires forall k | 0 <= k < n :: groupedKeys[k] == if k < Lo(i) + j then FailureKey(putKeys, errs, n, k) else None
    requires forall k | 0 <= k < n :: groupedErrs[k] == if k < Lo(i) + j then FailureErr(putKeys, errs, n, k) else None
    modifies groupedKeys, groupedErrs
    ensures forall k | 0 <= k < n :: groupedKeys[k] == if k < Lo(i) + j + 1 then FailureKey(putKeys, errs, n, k) else None
    ensures forall k | 0 <= k < n :: groupedErrs[k] == if k < Lo(i) + j + 1 then FailureErr(putKeys, errs, n, k) else None
  {
    var lo, e := i * Limit, errs[i].errs[j];
    RangeWellFormed(n, i);
    LocalIndex(n, i, j);
    if e.None? {
      assert FailureKey(putKeys, errs, n, lo + j) == Some(putKeys[i][j]);
      groupedKeys[lo + j] := Some(putKeys[i][j]);
    } else {
      assert FailureErr(putKeys, errs, n, lo + j) == e;
      groupedErrs[lo + j] := e;
    }
  }

  /** Failure path, sub-batch `i` with a per-key error array: each entry is
      spread to its global offset, a nil entry recording the key instead. */
  method SpreadMulti<K, E>(groupedKeys: array<Option<K>>, groupedErrs: array<Option<E>>,
                           putKeys: seq<seq<K>>, errs: seq<Err<E>>, n: nat, i: nat)
    requires Shaped(putKeys, errs, n) && i < |errs| && errs[i].Multi?
    requires groupedKeys.Length == n && groupedErrs.Length == n && groupedKeys as object != groupedErrs
    requires forall k | 0 <= k < n :: groupedKeys[k] == if k < Lo(i) then FailureKey(putKeys, errs, n, k) else None
    requires forall k | 0 <= k < n :: groupedErrs[k] == if k < Lo(i) then FailureErr(putKeys, errs, n, k) else None
    modifies groupedKeys, groupedErrs
    ensures forall k | 0 <= k < n :: groupedKeys[k] == if k < Lo(i + 1) then FailureKey(putKeys, errs, n, k) else None
    ensures forall k | 0 <= k < n :: groupedErrs[k] == if k < Lo(i + 1) then FailureErr(putKeys, errs, n, k) else None
  {
    var lo := i * Limit;
    var me := errs[i].errs;
    RangeWellFormed(n, i);
    for j := 0 to |me|
      invariant forall k | 0 <= k < n :: groupedKeys[k] == if k < lo + j then FailureKey(putKeys, errs, n, k) else None
      invariant forall k | 0 <= k < n :: groupedErrs[k] == if k < lo + j then FailureErr(putKeys, errs, n, k) else None
    {
      SpreadEntry(groupedKeys, groupedErrs, putKeys, errs, n, i, j);
    }
    forall k | lo + |me| <= k < Hi(i, n)
      ensures FailureKey(putKeys, errs, n, k) == None && FailureErr(putKeys, errs, n, k) == None
    {
      LocalIndex(n, i, k - lo);
    }
  }

  /** Failure path, sub-batch `i` with a wholesale error: the error is copied
      to every position the sub-batch covers. */
  method Replicate<K, E>(groupedKeys: array<Option<K>>, groupedErrs: array<Option<E>>,
                         putKeys: seq<seq<K>>, errs: seq<Err<E>>, n: nat, i: nat)
    requires Shaped(putKeys, errs, n) && i < |errs| && errs[i].Single?
    requires groupedKeys.Length == n && groupedErrs.Length == n && groupedKeys as object != groupedErrs
    requires forall k | 0 <= k < n :: groupedKeys[k] == if k < Lo(i) then FailureKey(putKeys, errs, n, k) else None
    requires forall k | 0 <= k < n :: groupedErrs[k] == if k < Lo(i) then FailureErr(putKeys, errs, n, k) else None
    modifies groupedErrs
    ensures forall k | 0 <= k < n :: groupedKeys[k] == if k < Lo(i + 1) then FailureKey(putKeys, errs, n, k) else None
    ensures forall k | 0 <= k < n :: groupedErrs[k] == if k < Lo(i + 1) then FailureErr(putKeys, errs, n, k) else None
  {
    var lo := i * Limit;
    var hi := (i + 1) * Limit;
    if hi > n {
      hi := n;
    }
    RangeWellFormed(n, i);
    for j := lo to hi
      invariant forall k | 0 <= k < n :: groupedErrs[k] == if k < j then FailureErr(putKeys, errs, n, k) else None
    {
      LocalIndex(n, i, j - lo);
      groupedErrs[j] := Some(errs[i].e);
    }
    forall k | lo <= k < hi
      ensures FailureKey(putKeys, errs, n, k) == None
    {
      LocalIndex(n, i, k - lo);
    }
  }

  /** Failure path, sub-batch `i` whose own error is nil: it matches neither
      branch, so its key and error slots stay nil. */
  lemma SkipNil<K, E>(putKeys: seq<seq<K>>, errs: seq<Err<E>>, n: nat, i: nat)
    requires Shaped(putKeys, errs, n) && i < |errs| && errs[i].NoErr?
    ensures forall k | Lo(i) <= k < Hi(i, n) ::
              FailureKey(putKeys, errs, n, k) == None && FailureErr(putKeys, errs, n, k) == None
  {
  }

  /** The merge as PutMulti performs it: sub-batch by sub-batch, into freshly
      allocated arrays. */
  method MergeResults<K, E>(putKeys: seq<seq<K>>, errs: seq<Err<E>>, n: nat)
    returns (keys: seq<Option<K>>, err: Err<E>)
    requires Shaped(putKeys, errs, n)
    ensures Merged(keys, err) == Merge(putKeys, errs, n)
  {
    if AllNil(errs) {
      var grouped := new Option<K>[n](_ => None);
      for i := 0 to |putKeys|
        invariant forall k | 0 <= k < n :: grouped[k] == if k < Lo(i) then SuccessKey(putKeys, n, k) else None
      {
        CopyBatch(grouped, putKeys, n, i);
      }
      return grouped[..], NoErr;
    }

    var groupedKeys := new Option<K>[n](_ => None);
    var groupedErrs := new Option<E>[n](_ => None);
    for i := 0 to |errs|
      invariant forall k | 0 <= k < n :: groupedKeys[k] == if k < Lo(i) then FailureKey(putKeys, errs, n, k) else None
      invariant forall k | 0 <= k < n :: groupedErrs[k] == if k < Lo(i) then FailureErr(putKeys, errs, n, k) else None
    {
      match errs[i]
      case Multi(_) =>
        SpreadMulti(groupedKeys, groupedErrs, putKeys, errs, n, i);
      case Single(_) =>
        Replicate(groupedKeys, groupedErrs, putKeys, errs, n, i);
      case NoErr =>
        SkipNil(putKeys, errs, n, i);
    }
    return groupedKeys[..], Multi(groupedErrs[..]);
  }

  /** Concatenation of sub-batch key arrays in sub-batch order. */
  function Flatten<K>(ss: seq<seq<K>>): (r: seq<K>)
  {
    if ss == [] then [] else Flatten(ss[..|ss| - 1]) + ss[|ss| - 1]
  }

  /** Every sub-batch returned exactly as many keys as it was given. */
  predicate KeysFitBatches<K>(putKeys: seq<seq<K>>, n: nat)
  {
    n > 0 && |putKeys| == CallCount(n) && forall i | 0 <= i < |putKeys| :: |putKeys[i]| == Size(i, n)
  }

  /** The first `c` key arrays concatenate to the positions `[0, Hi(c - 1, n))`,
      position `k` holding entry `k - Lo(BatchOf(k))` of array `BatchOf(k)`. */
  lemma {:induction false} FlattenPrefix<K>(putKeys: seq<seq<K>>, n: nat, c: nat)
    requires KeysFitBatches(putKeys, n) && c <= |putKeys|
    ensures |Flatten(putKeys[..c])| == if c == 0 then 0 else Hi(c - 1, n)
    ensures forall k | 0 <= k < |Flatten(putKeys[..c])| ::
              BatchOf(k) < c && Flatten(putKeys[..c])[k] == putKeys[BatchOf(k)][k - Lo(BatchOf(k))]
  {
    if c > 0 {
      FlattenPrefix(putKeys, n, c - 1);
      assert putKeys[..c][..c - 1] == putKeys[..c - 1];
      var prefix := Flatten(putKeys[..c - 1]);
      assert Flatten(putKeys[..c]) == prefix + putKeys[c - 1];
      RangeWellFormed(n, c - 1);
      if c > 1 {
        RangesTile(n, c - 2);
      }
      assert |prefix| == Lo(c - 1);
      forall k | |prefix| <= k < |Flatten(putKeys[..c])|
        ensures BatchOf(k) == c - 1
      {
        ExactCover(n, c - 1, k);
      }
    }
  }

  /** Success path: when every sub-batch succeeded and returned one key per
      input, the result is the concatenation of the sub-batch key arrays, in
      order, N keys long, with a nil error. */
  lemma SuccessIsConcatenation<K, E>(putKeys: seq<seq<K>>, errs: seq<Err<E>>, n: nat)
    requires Shaped(putKeys, errs, n) && AllNil(errs) && KeysFitBatches(putKeys, n)
    ensures Merge(putKeys, errs, n).err == NoErr
    ensures |Flatten(putKeys)| == n
    ensures forall k | 0 <= k < n :: Merge(putKeys, errs, n).keys[k] == Some(Flatten(putKeys)[k])
  {
    var c := |putKeys|;
    FlattenPrefix(putKeys, n, c);
    assert putKeys[..c] == putKeys;
    RangesTile(n, c - 1);
    forall k | 0 <= k < n
      ensures Merge(putKeys, errs, n).keys[k] == Some(Flatten(putKeys)[k])
    {
      BatchOfLocates(n, k);
      RangeWellFormed(n, BatchOf(k));
    }
  }

  /** Failure path, per-key error array of sub-batch `i`: entry `j` lands at
      global position `Lo(i) + j`; a nil entry records the sub-batch's key
      there and no error, a non-nil entry records the error and no key. */
  lemma PerKeyErrorSpread<K, E>(putKeys: seq<seq<K>>, errs: seq<Err<E>>, n: nat, i: nat, j: nat)
    requires Shaped(putKeys, errs, n)
    requires i < |errs| && errs[i].Multi? && j < |errs[i].errs|
    ensures Lo(i) + j < Hi(i, n)
    ensures Merge(putKeys, errs, n).err.Multi?
    ensures errs[i].errs[j].None? ==>
              && Merge(putKeys, errs, n).keys[Lo(i) + j] == Some(putKeys[i][j])
              && Merge(putKeys, errs, n).err.errs[Lo(i) + j] == None
    ensures errs[i].errs[j].Some? ==>
              && Merge(putKeys, errs, n).keys[Lo(i) + j] == None
              && Merge(putKeys, errs, n).err.errs[Lo(i) + j] == errs[i].errs[j]
  {
  }

  /** Failure path, wholesale error of sub-batch `i`: every position the
      sub-batch covers holds that same error and no key. */
  lemma WholesaleErrorReplicated<K, E>(putKeys: seq<seq<K>>, errs: seq<Err<E>>, n: nat, i: nat)
    requires Shaped(putKeys, errs, n) && i < |errs| && errs[i].Single?
    ensures Merge(putKeys, errs, n).err.Multi?
    ensures forall k | Lo(i) <= k < Hi(i, n) ::
              Merge(putKeys, errs, n).keys[k] == None && Merge(putKeys, errs, n).err.errs[k] == Some(errs[i].e)
  {
  }

  /** Failure path, sub-batch `i` that itself succeeded: as written, its
      positions hold neither a key nor an error, even when it returned a key
      for each of them. */
  lemma SucceededBatchDropped<K, E>(putKeys: seq<seq<K>>, errs: seq<Err<E>>, n: nat, i: nat)
    requires Shaped(putKeys, errs, n) && !AllNil(errs) && i < |errs| && errs[i].NoErr?
    ensures Merge(putKeys, errs, n).err.Multi?
    ensures forall k | Lo(i) <= k < Hi(i, n) ::
              Merge(putKeys, errs, n).keys[k] == None && Merge(putKeys, errs, n).err.errs[k] == None
  {
    SkipNil(putKeys, errs, n, i);
  }

  /** A request of 501 keys whose first sub-batch succeeds and whose second
      fails wholesale: position 0 ends with neither a key nor an error. */
  lemma SucceededBatchDroppedWitness()
    ensures Merge([seq(500, j => j), [500]], [NoErr, Single(-1)], 501).keys[0] == None
    ensures Merge([seq(500, j => j), [500]], [NoErr, Single(-1)], 501).err.errs[0] == None
  {
    var putKeys: seq<seq<int>> := [seq(500, j => j), [500]];
    var errs: seq<Err<int>> := [NoErr, Single(-1)];
    assert CallCount(501) == 2;
    assert !AllNil(errs) by {
      assert errs[1].Single?;
    }
    SucceededBatchDropped(putKeys, errs, 501, 0);
  }

  /** Failure path, key slot `k`, as evidently intended: a sub-batch whose own
      error is nil keeps its keys, exactly as on the success path. */
  function IntendedFailureKey<K, E>(putKeys: seq<seq<K>>, errs: seq<Err<E>>, n: nat, k: nat): (r: Option<K>)
    requires Shaped(putKeys, errs, n) && k < n
    ensures FailureKey(putKeys, errs, n, k).Some? ==> r == FailureKey(putKeys, errs, n, k)
    ensures errs[BatchOf(k)].NoErr? ==> r == SuccessKey(putKeys, n, k)
    ensures r.Some? ==> FailureErr(putKeys, errs, n, k).None?
  {
    BatchOfLocates(n, k);
    if errs[BatchOf(k)].NoErr? then SuccessKey(putKeys, n, k) else FailureKey(putKeys, errs, n, k)
  }

  /** Outcomes as the store promises them: a succeeded sub-batch returns one
      key per input and a per-key error array has one entry per input. */
  predicate FullReplies<K, E>(putKeys: seq<seq<K>>, errs: seq<Err<E>>, n: nat)
    requires Shaped(putKeys, errs, n)
  {
    forall i | 0 <= i < |errs| ::
      && (errs[i].NoErr? ==> |putKeys[i]| == Size(i, n))
      && (errs[i].Multi? ==> |errs[i].errs| == Size(i, n))
  }

  /** With the intended key slots, every position of a failed request holds
      exactly one of a key and an error. */
  lemma IntendedExactlyOne<K, E>(putKeys: seq<seq<K>>, errs: seq<Err<E>>, n: nat, k: nat)
    requires Shaped(putKeys, errs, n) && FullReplies(putKeys, errs, n) && k < n
    ensures IntendedFailureKey(putKeys, errs, n, k).Some? <==> FailureErr(putKeys, errs, n, k).None?
  {
  }
}
