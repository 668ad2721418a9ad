/**
  Payment pools: the Collected table summed per matching key. The allocator
  builds one pool per matching column and draws money out of them; a key with no
  entry reads as zero available.
 */
module Pools {
  import opened Tables

  type Pool = map<Key, int>

  /** Money available under key `k`; a key the pool never saw reads as zero. */
  function Avail(p: Pool, k: Key): int
  {
    if k in p then p[k] else 0
  }

  /** Adds `amount` to the entry for `k`, creating it if absent. */
  function Credit(p: Pool, k: Key, amount: int): (q: Pool)
    ensures q.Keys == p.Keys + {k}
    ensures Avail(q, k) == Avail(p, k) + amount
    ensures forall k' :: k' != k ==> Avail(q, k') == Avail(p, k')
  {
    p[k := Avail(p, k) + amount]
  }

  /** The grouped sum of PAID by column `c`, accumulated in table order. */
  function BuildPool(rows: seq<CollectedRow>, c: Column): Pool
  {
    if |rows| == 0 then map[]
    else
      var last := rows[|rows| - 1];
      Credit(BuildPool(rows[..|rows| - 1], c), CollectedKey(last, c), last.paid)
  }

  /** Reference definition: the total PAID over every row whose column `c` holds `k`. */
  function SumFor(rows: seq<CollectedRow>, c: Column, k: Key): int
  {
    if |rows| == 0 then 0
    else (if CollectedKey(rows[0], c) == k then rows[0].paid else 0) + SumFor(rows[1..], c, k)
  }

  lemma {:induction false} SumForAppend(rows: seq<CollectedRow>, r: CollectedRow, c: Column, k: Key)
    ensures SumFor(rows + [r], c, k) == SumFor(rows, c, k) + (if CollectedKey(r, c) == k then r.paid else 0)
    decreases |rows|
  {
    if |rows| == 0 {
      assert rows + [r] == [r];
      assert [r][1..] == [];
    } else {
      assert (rows + [r])[0] == rows[0];
      assert (rows + [r])[1..] == rows[1..] + [r];
      SumForAppend(rows[1..], r, c, k);
    }
  }

  /** Every pool entry is exactly the grouped sum of the collected payments under that key. */
  lemma {:induction false} PoolIsGroupedSum(rows: seq<CollectedRow>, c: Column, k: Key)
    ensures Avail(BuildPool(rows, c), k) == SumFor(rows, c, k)
    decreases |rows|
  {
    if |rows| > 0 {
      var prefix := rows[..|rows| - 1];
      var last := rows[|rows| - 1];
      PoolIsGroupedSum(prefix, c, k);
      assert prefix + [last] == rows;
      SumForAppend(prefix, last, c, k);
    }
  }

  /** A key in the pool is one some collected row carries, and the other way round. */
  lemma {:induction false} PoolKeysAreCollectedKeys(rows: seq<CollectedRow>, c: Column, k: Key)
    ensures k in BuildPool(rows, c) <==> exists i :: 0 <= i < |rows| && CollectedKey(rows[i], c) == k
    decreases |rows|
  {
    if |rows| > 0 {
      var prefix := rows[..|rows| - 1];
      PoolKeysAreCollectedKeys(prefix, c, k);
      if k in BuildPool(prefix, c) {
        var i :| 0 <= i < |prefix| && CollectedKey(prefix[i], c) == k;
        assert rows[i] == prefix[i];
      }
      if exists i :: 0 <= i < |rows| && CollectedKey(rows[i], c) == k {
        var i :| 0 <= i < |rows| && CollectedKey(rows[i], c) == k;
        if i < |prefix| {
          assert prefix[i] == rows[i];
        }
      }
    }
  }

  /** When every payment is non-negative, so is every grouped sum. */
  lemma {:induction false} SumForNonNegative(rows: seq<CollectedRow>, c: Column, k: Key)
    requires forall i :: 0 <= i < |rows| ==> rows[i].paid >= 0
    ensures SumFor(rows, c, k) >= 0
    decreases |rows|
  {
    if |rows| > 0 {
      assert forall i :: 0 <= i < |rows[1..]| ==> rows[1..][i] == rows[i + 1];
      SumForNonNegative(rows[1..], c, k);
    }
  }

  /** When every payment is non-negative, so is every pool entry. */
  lemma {:induction false} PoolNonNegative(rows: seq<CollectedRow>, c: Column, k: Key)
    requires forall i :: 0 <= i < |rows| ==> rows[i].paid >= 0
    ensures Avail(BuildPool(rows, c), k) >= 0
  {
    PoolIsGroupedSum(rows, c, k);
    SumForNonNegative(rows, c, k);
  }
}
