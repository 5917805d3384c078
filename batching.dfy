/**
 * The batch splitter of the write path: an N-key request is cut into
 * contiguous sub-batches of at most `Limit` keys, sub-batch `i` covering the
 * positions `[Lo(i), Hi(i, n))` of the caller's keys.
 */
module Batching {

  /** Most entities the backing store accepts in one multi-put call. */
  const Limit: nat := 500

  /** Number of sub-batches for a non-empty request of `n` keys. */
  function CallCount(n: nat): (c: nat)
    requires n > 0
    ensures c > 0
    ensures (c - 1) * Limit < n <= c * Limit
  {
    (n - 1) / Limit + 1
  }

  /** First position covered by sub-batch `i`. */
  function Lo(i: nat): (r: nat)
    ensures BatchOf(r) == i
  {
    i * Limit
  }

  /** One past the last position covered by sub-batch `i`, clipped to `n`. */
  function Hi(i: nat, n: nat): (r: nat)
    ensures r <= n && r <= Lo(i) + Limit
    ensures Lo(i) < n ==> Lo(i) < r
  {
    if (i + 1) * Limit > n then n else (i + 1) * Limit
  }

  /** Number of keys in sub-batch `i`. */
  function Size(i: nat, n: nat): int
  {
    Hi(i, n) - Lo(i)
  }

  /** The sub-batch that position `k` falls in. */
  function BatchOf(k: nat): nat
  {
    k / Limit
  }

  /** Every sub-batch is non-empty, inside `[0, n)` and within the store's limit. */
  lemma RangeWellFormed(n: nat, i: nat)
    requires n > 0 && i < CallCount(n)
    ensures Lo(i) < Hi(i, n) <= n
    ensures 0 < Size(i, n) <= Limit
  {
  }

  /** The sub-batches tile `[0, n)` in order: the first starts at 0, each
      starts where the previous ends, and the last ends at `n`. */
  lemma RangesTile(n: nat, i: nat)
    requires n > 0 && i < CallCount(n)
    ensures Lo(0) == 0
    ensures i + 1 < CallCount(n) ==> Hi(i, n) == Lo(i + 1)
    ensures i + 1 == CallCount(n) ==> Hi(i, n) == n
  {
  }

  /** Distinct sub-batches are disjoint, the earlier one lying wholly below. */
  lemma RangesDisjoint(n: nat, i: nat, i': nat)
    requires n > 0 && i < i' < CallCount(n)
    ensures Hi(i, n) <= Lo(i')
  {
  }

  /** Each position of `[0, n)` lies in exactly one sub-batch, namely `BatchOf(k)`. */
  lemma ExactCover(n: nat, i: nat, k: nat)
    requires n > 0 && i < CallCount(n) && k < n
    ensures BatchOf(k) < CallCount(n)
    ensures Lo(i) <= k < Hi(i, n) <==> BatchOf(k) == i
  {
  }

  /** Position `k` lies in sub-batch `BatchOf(k)`. */
  lemma BatchOfLocates(n: nat, k: nat)
    requires k < n
    ensures BatchOf(k) < CallCount(n)
    ensures Lo(BatchOf(k)) <= k < Hi(BatchOf(k), n)
  {
  }
}
