# Write path of the nds caching client, in Dafny

nds is a caching layer in front of Google Cloud Datastore. This project models
its write path, `put.go`:

- `PutMulti` splits an N-key request into sub-batches of at most 500 keys (the
  store's per-call limit, `putMultiLimit`). It runs `putMulti` on each
  sub-batch and merges the outcomes into one N-long result. The result is
  either a plain key array with a nil error, or a key array with gaps beside a
  positional `datastore.MultiError`.
- `putMulti` is the lock protocol of one sub-batch. It gets a cache context,
  sets lock entries for the keys, writes to the store, and deletes the locks
  in a deferred call. A failed delete goes to the error reporter and does not
  change the returned value.
- `Put` writes one entity through `putMulti`. It collapses the outcome to a
  single key or a single error.

Modules:

- `Wrappers` (wrappers.dfy): `Option`, standing for a Go slot that may be nil.
- `Batching` (batching.dfy): the sub-batch ranges `[Lo(i), Hi(i, n))` and
  their tiling of `[0, n)`.
- `Results` (results.dfy): the sub-batch error shapes (`Err`: nil, wholesale,
  per-key), the merge as a position-by-position specification (`Merge`), the
  in-place merge over arrays that `PutMulti` performs (`MergeResults`), and
  lemmas about the merge.
- `Client` (client.dfy): the calls made on the cache, the store and the
  reporter as an event trace (`Event`), the answers of those collaborators as
  inputs (`BatchEnv`), and the class `Client`. Its methods `PutBatch`
  (`putMulti`), `Dispatch`, `PutMulti` and `Put` append to the trace field
  `events`.

The merge follows the code where it departs from PutMulti's documentation.
That comment (put.go:22-26) says PutMulti works just like
`datastore.PutMulti`, which keeps the keys of the entities it stored. In the
failure path, though, a sub-batch whose own error is nil matches neither
branch at put.go:80-92. Its positions therefore hold neither a key nor an
error. See "## Findings".

## Model

| member | source | states |
|---|---|---|
| `Batching.CallCount` | put.go:39 | for N > 0 the number of sub-batches is `ceil(N/500)`: `(c-1)*500 < N <= c*500` |
| `Batching.Lo` | put.go:46 | sub-batch `i` starts at position `i*500`, which lies in sub-batch `i` |
| `Batching.Hi` | put.go:47-50 | sub-batch `i` ends at `min((i+1)*500, N)`: never past N, at most 500 past its start, and past its start whenever that start is below N |
| `Batching.RangeWellFormed` | put.go:45-50 | every sub-batch `[i*500, min((i+1)*500, N))` is non-empty, inside `[0, N)` and holds at most 500 keys |
| `Batching.RangesTile` | put.go:45-50 | the first sub-batch starts at 0, each one starts where the previous ends, and the last one ends at N |
| `Batching.RangesDisjoint` | put.go:45-50 | an earlier sub-batch lies wholly below a later one, so they are disjoint and in increasing order |
| `Batching.ExactCover` | put.go:45-50 | each position `k < N` lies in sub-batch `i` exactly when `i == k / 500` |
| `Batching.BatchOfLocates` | put.go:45-50 | position `k` lies inside the range of sub-batch `k / 500`, which exists |
| `Results.AllNil` | put.go:59 | the check that selects the success path passes exactly when every sub-batch error is nil |
| `Results.SuccessKey` | put.go:61-68 | on the success path a key slot holds only a key from its own sub-batch's array, and every slot is filled when each array has one key per input |
| `Results.FailureKey` | put.go:80-87 | on the failure path a key is recorded only where the sub-batch's per-key error array has a nil entry |
| `Results.FailureErr` | put.go:80-92 | on the failure path the error slot is nil for a sub-batch that succeeded, holds the sub-batch's own error when it failed wholesale, and otherwise holds an entry of its per-key error array |
| `Results.Merge` | put.go:59-95 | the merged result has N key slots; the error is nil exactly when every sub-batch error is nil, and is never a wholesale error; on failure the error array has N slots and no slot holds both a key and an error |
| `Results.CopyBatch` | put.go:61-68 | `copy(groupedKeys[lo:hi], putKeys[i])` extends the finished prefix from `Lo(i)` to `Lo(i+1)` and leaves the rest nil |
| `Results.SpreadEntry` | put.go:81-86 | one entry of a per-key error array extends the finished prefix of both arrays by one position |
| `Results.SpreadMulti` | put.go:80-87 | spreading a per-key error array extends the finished prefix of both arrays by one sub-batch |
| `Results.Replicate` | put.go:88-92 | copying a wholesale error over `[lo, hi)` extends the finished prefix by one sub-batch and records no keys |
| `Results.SkipNil` | put.go:80-92 | a sub-batch whose own error is nil matches neither branch: its key and error slots stay nil |
| `Results.MergeResults` | put.go:59-95 | the array-based merge, sub-batch by sub-batch, returns exactly `Merge` of the sub-batch outcomes |
| `Results.FlattenPrefix` | put.go:61-68 | the first `c` key arrays, one key per input, concatenate to positions `[0, Hi(c-1))`, position `k` holding entry `k - Lo(k/500)` of array `k/500` |
| `Results.SuccessIsConcatenation` | put.go:59-69 | when every sub-batch error is nil and each returned one key per input, the result is the concatenation of the sub-batch key arrays in order, N long, with a nil error |
| `Results.PerKeyErrorSpread` | put.go:80-87 | entry `j` of sub-batch `i`'s per-key error array lands at `Lo(i)+j`: a nil entry records `putKeys[i][j]` and no error, a non-nil entry records the error and no key |
| `Results.WholesaleErrorReplicated` | put.go:88-92 | a wholesale error of sub-batch `i` is recorded at every position of `[Lo(i), Hi(i))`, with no key there |
| `Results.SucceededBatchDropped` | put.go:72-95 | in the failure path a sub-batch that itself succeeded leaves every one of its positions with neither a key nor an error |
| `Results.SucceededBatchDroppedWitness` | put.go:72-95 | with 501 keys, sub-batch 0 succeeding and sub-batch 1 failing wholesale, position 0 holds neither a key nor an error |
| `Results.IntendedFailureKey` | put.go:72-95 | the corrected key slot agrees with the code wherever the code records a key, keeps the keys of a succeeded sub-batch, and never sits beside an error |
| `Results.IntendedExactlyOne` | put.go:72-95 | with the corrected key slot (a succeeded sub-batch keeps its keys) and full store replies, every position of a failed request holds exactly one of a key and an error |
| `Client.LockProtocol` | put.go:123-153 | without a cache context no call is made; otherwise the locks are set first, each phase occurs at most once and in order (set, write, delete, report), the store is written exactly when lock set and hook succeed, the locks are deleted on every path, a failed delete is reported, and every call concerns only this sub-batch |
| `Client.BatchEvents` | put.go:125-152 | one sub-batch makes at most four calls, and none at all exactly when it gets no cache context |
| `Client.BatchWritesOwn` | put.go:140-152 | the store write of a sub-batch carries exactly that sub-batch's keys and values |
| `Client.BatchUnlocks` | put.go:132-138 | a sub-batch that obtained a cache context deletes the locks of its own keys |
| `Client.BatchStoreWrites` | put.go:125-152 | the store writes of one sub-batch are exactly one write of its keys and values when lock set and hook succeed, and none otherwise |
| `Client.BatchOutcome` | put.go:125-152 | the store's reply is returned unchanged when the store is reached; a context or lock-set failure returns no keys and that error; a hook failure returns the input keys and its error |
| `Client.DeleteFailureInvisible` | put.go:132-138 | the value returned by a sub-batch does not depend on whether the lock delete failed |
| `Client.NilErrorOnlyFromStore` | put.go:125-152 | a sub-batch returns a nil error exactly when the store was reached and answered nil; any earlier failure is a wholesale error |
| `Client.SubBatch` | put.go:46-55 | the slice handed to sub-batch `i` holds between 1 and 500 elements, `Size(i)` of them |
| `Client.DispatchStep` | put.go:45-56 | running sub-batch `i` extends the key and error slots by its own outcome and the trace by its own calls |
| `Client.DispatchShaped` | put.go:80-87 | the sub-batch outcomes fit the merge: one per sub-batch, per-key error arrays no longer than their sub-batch, with a returned key beside each nil entry |
| `Client.AllStoredInOrder` | put.go:39-69 | when every sub-batch reaches the store and the store accepts all keys, the batch result is the store's keys in input order with a nil error |
| `Client.StoreWritesWithinLimit` | put.go:39-56 | every store write the dispatch issues carries between 1 and 500 keys and as many values |
| `Client.EveryLockReleased` | put.go:45-57 | every sub-batch that obtained a cache context deletes its locks during the dispatch |
| `Client.ReachingLists` | put.go:45-56 | the sub-batches that reach the store, listed in increasing order, are exactly those among the first `c` whose lock set and hook succeed |
| `Client.DispatchWritesStep` | put.go:45-56 | running sub-batch `c-1` appends to the dispatch's store writes exactly its own write, if it reaches the store |
| `Client.ExpectedWritesIndexed` | put.go:45-56 | the m-th expected store write is the write of the m-th sub-batch that reaches the store, with that sub-batch's keys and values |
| `Client.DispatchStoreWrites` | put.go:39-57 | the store writes of the dispatch are, in sub-batch order, one write per sub-batch that reaches the store, carrying its own keys and values |
| `Client.WrittenPrefix` | put.go:45-56 | when every sub-batch reaches the store, the first `c` sub-batches write `c` times and their written keys concatenate to the first `Hi(c-1)` input keys |
| `Client.EveryKeyWrittenOnce` | put.go:39-57 | when every sub-batch reaches the store, the dispatch writes `ceil(N/500)` times and the written keys concatenate to the input keys, so each key is written exactly once and in order |
| `Client.Collapse` | put.go:112-119 | a key is returned only on a nil error (`keys[0]`); a `MultiError` yields its entry 0; any other error is returned unchanged |
| `Client.CollapseAgreesWithMerge` | put.go:102-120 | `Put`'s collapse agrees with position 0 of the batch merge of the same one-key outcome, unless a per-key error array reports entry 0 nil |
| `Client.Client.ReleaseLocks` | put.go:132-138 | the deferred cleanup appends one lock delete and, when it fails, one report |
| `Client.Client.PutBatch` | put.go:123-153 | `putMulti` appends exactly the lock-protocol trace and returns the sub-batch outcome |
| `Client.Client.DispatchOne` | put.go:52-55 | sub-batch `i`'s outcome goes to slot `i` of the result arrays; earlier slots keep theirs and later slots stay untouched |
| `Client.Client.Dispatch` | put.go:39-57 | every sub-batch runs `putMulti`, slot `i` holding sub-batch `i`'s keys and error |
| `Client.Client.PutMulti` | put.go:27-96 | empty input returns `(nil, nil)` with no call; a validation error is returned with no call; otherwise the trace is the sub-batch traces and the result is the merge of the sub-batch outcomes |
| `Client.Client.Put` | put.go:102-120 | a validation error is returned with no call; otherwise one `putMulti` runs on the single key and its outcome is collapsed |

## Left out

- Goroutines and `sync.WaitGroup` (put.go:43-57): the dispatch is a sequential loop. Each iteration writes only its own slot, so the order of completion cannot change the result.
- Client.Client.PutMulti: the trace lists each sub-batch's calls in sub-batch order. The source runs sub-batches concurrently, so their calls may interleave.
- `reflect` (`reflect.ValueOf`, `v.Slice`, `vals.Interface()`): values are a plain sequence.
- `checkKeysValues` is not part of this model. Its verdict is the parameter `checkErr`. When it passes, the values are assumed to match the keys in number.
- `getCacheLocks` is not part of this model. A lock call is identified by the entity keys it locks; the derived lock keys and items are not modelled.
- `cacher.NewContext`, `SetMulti`, `DeleteMulti`, `datastore.PutMulti` and `onError` are foreign clients. Their answers are inputs (`BatchEnv`), and the calls are events.
- Context cancellation is not modelled; a cancelled call is just another failing answer.
- Cache and hook errors are treated as wholesale errors, never as a `datastore.MultiError`.
- The `errors.Wrap` message around a failed delete (put.go:136) is decoration; the reported event carries the delete error itself.
- `putMultiHook` is an optional pre-store failure. `None` stands for both "no hook" and "hook returned nil", and running the hook is not an event.
- A per-key error array is assumed to be no longer than its sub-batch, and to come with a returned key at each of its nil entries. The source indexes `putKeys[i][j]` at put.go:83 without a check.
- `isErrorsNil` is not part of this model; `Results.AllNil` is the scan its name and its use at put.go:59 call for.
- `Put` on a nil store error with no keys, or on an empty `MultiError`, would panic at put.go:114 or 116; `Put` requires that this does not happen.

## Findings

| source | as written | input that shows it | evidently intended | confidence | as-written member | corrected member |
|---|---|---|---|---|---|---|
| put.go:74-93 | in the failure path a sub-batch whose own error is nil matches neither branch, so its keys are never copied into the result | 501 keys; sub-batch 0 succeeds with 500 keys, sub-batch 1 fails wholesale; position 0 ends with neither a key nor an error | a succeeded sub-batch keeps its keys, so every position holds exactly one of a key and an error | not executed | `Results.SucceededBatchDropped` | `Results.IntendedExactlyOne` |

`PutMulti` is modelled as the code behaves. The corrected key slot is
`Results.IntendedFailureKey`, which `Results.IntendedExactlyOne` is about.
