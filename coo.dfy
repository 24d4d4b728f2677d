/**
 * Sparse matrices in coordinate (COO) form: a list of (row, column, value)
 * triplets whose meaning is the matrix whose (r, c) entry is the sum of the
 * values of all triplets at (r, c). A key may repeat; repeated values add.
 */
module Coo {

  datatype Triplet = Triplet(row: nat, col: nat, val: real)

  /** The matrix entry at (r, c) the triplets stand for. */
  function Entry(ts: seq<Triplet>, r: nat, c: nat): real {
    if |ts| == 0 then 0.0
    else (if ts[0].row == r && ts[0].col == c then ts[0].val else 0.0) + Entry(ts[1..], r, c)
  }

  function Key(t: Triplet): (nat, nat) {
    (t.row, t.col)
  }

  /** Every key occurs at most once. */
  predicate DistinctKeys(ts: seq<Triplet>) {
    forall i, j :: 0 <= i < j < |ts| ==> Key(ts[i]) != Key(ts[j])
  }

  function Keys(ts: seq<Triplet>): set<(nat, nat)> {
    set t | t in ts :: Key(t)
  }

  /** Concatenating triplet lists adds the matrices they stand for. */
  lemma {:induction false} EntryAppend(ts: seq<Triplet>, us: seq<Triplet>, r: nat, c: nat)
    ensures Entry(ts + us, r, c) == Entry(ts, r, c) + Entry(us, r, c)
    decreases |ts|
  {
    if |ts| > 0 {
      assert (ts + us)[0] == ts[0];
      assert (ts + us)[1..] == ts[1..] + us;
      EntryAppend(ts[1..], us, r, c);
    } else {
      assert ts + us == us;
    }
  }

  /** `eliminate_zeros`: drop the triplets whose value is zero, keeping the order of the rest. */
  function NonZero(ts: seq<Triplet>): (nz: seq<Triplet>)
    ensures |nz| <= |ts|
    ensures forall t :: t in nz <==> t in ts && t.val != 0.0
  {
    if |ts| == 0 then []
    else (if ts[0].val != 0.0 then [ts[0]] else []) + NonZero(ts[1..])
  }

  /** Dropping zero triplets does not change the matrix. */
  lemma {:induction false} NonZeroEntry(ts: seq<Triplet>, r: nat, c: nat)
    ensures Entry(NonZero(ts), r, c) == Entry(ts, r, c)
    decreases |ts|
  {
    if |ts| > 0 {
      var head: seq<Triplet> := if ts[0].val != 0.0 then [ts[0]] else [];
      EntryAppend(head, NonZero(ts[1..]), r, c);
      NonZeroEntry(ts[1..], r, c);
    }
  }

  /** Add triplet t into a list with distinct keys: into the entry of its key if present, else at the end. */
  function Insert(ms: seq<Triplet>, t: Triplet): (res: seq<Triplet>)
    ensures 1 <= |res| <= |ms| + 1
  {
    if |ms| == 0 then [t]
    else if Key(ms[0]) == Key(t) then [Triplet(t.row, t.col, ms[0].val + t.val)] + ms[1..]
    else [ms[0]] + Insert(ms[1..], t)
  }

  lemma {:induction false} InsertEntry(ms: seq<Triplet>, t: Triplet, r: nat, c: nat)
    ensures Entry(Insert(ms, t), r, c) == Entry(ms, r, c) + Entry([t], r, c)
    decreases |ms|
  {
    if |ms| > 0 && Key(ms[0]) != Key(t) {
      InsertEntry(ms[1..], t, r, c);
      assert Insert(ms, t)[1..] == Insert(ms[1..], t);
    } else if |ms| > 0 {
      assert Insert(ms, t)[1..] == ms[1..];
    }
  }

  lemma KeysCons(t: Triplet, ms: seq<Triplet>)
    ensures Keys([t] + ms) == {Key(t)} + Keys(ms)
  {
    assert forall u :: u in [t] + ms <==> u == t || u in ms;
  }

  lemma {:induction false} InsertKeys(ms: seq<Triplet>, t: Triplet)
    ensures Keys(Insert(ms, t)) == Keys(ms) + {Key(t)}
    decreases |ms|
  {
    if |ms| > 0 {
      assert ms == [ms[0]] + ms[1..];
      KeysCons(ms[0], ms[1..]);
      if Key(ms[0]) != Key(t) {
        InsertKeys(ms[1..], t);
        KeysCons(ms[0], Insert(ms[1..], t));
      } else {
        KeysCons(Triplet(t.row, t.col, ms[0].val + t.val), ms[1..]);
      }
    }
  }

  lemma {:induction false} InsertDistinct(ms: seq<Triplet>, t: Triplet)
    requires DistinctKeys(ms)
    ensures DistinctKeys(Insert(ms, t))
    decreases |ms|
  {
    if |ms| > 0 && Key(ms[0]) != Key(t) {
      InsertDistinct(ms[1..], t);
      InsertKeys(ms[1..], t);
      var res := Insert(ms, t);
      forall j | 0 < j < |res| ensures Key(res[0]) != Key(res[j]) {
        assert res[j] in Insert(ms[1..], t);
        assert Key(res[j]) in Keys(ms[1..]) + {Key(t)};
      }
    }
  }

  /**
   * `sum_duplicates`: one triplet per key, carrying the sum of that key's
   * values. Built from the back, so distinct keys come out last-first; the
   * order of the result is not part of what the model promises. It never
   * holds more triplets than it was given, and is empty only for no input.
   */
  function Merged(ts: seq<Triplet>): (m: seq<Triplet>)
    ensures |m| <= |ts|
    ensures |ts| > 0 ==> |m| > 0
    decreases |ts|
  {
    if |ts| == 0 then [] else Insert(Merged(ts[1..]), ts[0])
  }

  /** Merging duplicates keeps every entry of the matrix. */
  lemma {:induction false} MergedEntry(ts: seq<Triplet>, r: nat, c: nat)
    ensures Entry(Merged(ts), r, c) == Entry(ts, r, c)
    decreases |ts|
  {
    if |ts| > 0 {
      InsertEntry(Merged(ts[1..]), ts[0], r, c);
      MergedEntry(ts[1..], r, c);
    }
  }

  /** After merging, every key occurs once, and exactly the input's keys occur. */
  lemma {:induction false} MergedKeys(ts: seq<Triplet>)
    ensures DistinctKeys(Merged(ts))
    ensures Keys(Merged(ts)) == Keys(ts)
    decreases |ts|
  {
    if |ts| > 0 {
      MergedKeys(ts[1..]);
      InsertDistinct(Merged(ts[1..]), ts[0]);
      InsertKeys(Merged(ts[1..]), ts[0]);
      assert forall u :: u in ts <==> u == ts[0] || u in ts[1..] by {
        assert ts == [ts[0]] + ts[1..];
      }
    }
  }

  /**
   * `eliminate_zeros` runs before `sum_duplicates`, so values that cancel
   * while merging leave an explicit zero behind: the case of a single
   * block's triplets, which are finalised without going through a sparse sum.
   */
  lemma CancellingValuesLeaveZero()
    ensures Merged(NonZero([Triplet(0, 0, 1.0), Triplet(0, 0, -1.0)])) == [Triplet(0, 0, 0.0)]
  {
    assert NonZero([Triplet(0, 0, 1.0), Triplet(0, 0, -1.0)]) == [Triplet(0, 0, 1.0), Triplet(0, 0, -1.0)] by {
      assert [Triplet(0, 0, 1.0), Triplet(0, 0, -1.0)][1..] == [Triplet(0, 0, -1.0)];
    }
  }

  /** A sparse matrix in COO form, finalised in place. */
  class CooMatrix {
    var entries: seq<Triplet>

    constructor (ts: seq<Triplet>)
      ensures entries == ts
    {
      entries := ts;
    }

    /** The matrix this object stands for. */
    function At(r: nat, c: nat): real
      reads this
    {
      Entry(entries, r, c)
    }

    /** Drops the stored zeros; the matrix is unchanged. */
    method EliminateZeros()
      modifies this
      ensures entries == NonZero(old(entries))
      ensures forall t :: t in entries ==> t.val != 0.0
      ensures forall r: nat, c: nat :: At(r, c) == old(At(r, c))
    {
      forall r: nat, c: nat ensures Entry(NonZero(entries), r, c) == Entry(entries, r, c) {
        NonZeroEntry(entries, r, c);
      }
      entries := NonZero(entries);
    }

    /** Merges repeated keys; the matrix is unchanged and every key is stored once. */
    method SumDuplicates()
      modifies this
      ensures entries == Merged(old(entries))
      ensures DistinctKeys(entries) && Keys(entries) == Keys(old(entries))
      ensures forall r: nat, c: nat :: At(r, c) == old(At(r, c))
    {
      forall r: nat, c: nat ensures Entry(Merged(entries), r, c) == Entry(entries, r, c) {
        MergedEntry(entries, r, c);
      }
      MergedKeys(entries);
      entries := Merged(entries);
    }

    /** `+=` with another matrix: the triplets are appended, the matrices add. */
    method AddInPlace(other: seq<Triplet>)
      modifies this
      ensures entries == old(entries) + other
      ensures forall r: nat, c: nat :: At(r, c) == old(At(r, c)) + Entry(other, r, c)
    {
      forall r: nat, c: nat ensures Entry(entries + other, r, c) == Entry(entries, r, c) + Entry(other, r, c) {
        EntryAppend(entries, other, r, c);
      }
      entries := entries + other;
    }
  }

  /** The triplets of a sum of matrices: all blocks' triplets, block by block. */
  function SumBlocks(bs: seq<seq<Triplet>>): (ts: seq<Triplet>)
    ensures forall t :: t in ts <==> exists b :: b in bs && t in b
  {
    if |bs| == 0 then [] else bs[0] + SumBlocks(bs[1..])
  }

  /** The (r, c) entries of the blocks, added up. */
  function BlockEntrySum(bs: seq<seq<Triplet>>, r: nat, c: nat): real {
    if |bs| == 0 then 0.0 else Entry(bs[0], r, c) + BlockEntrySum(bs[1..], r, c)
  }

  /** The entry of the summed matrix is the sum of the blocks' entries: contributions add, never overwrite. */
  lemma {:induction false} SumBlocksEntry(bs: seq<seq<Triplet>>, r: nat, c: nat)
    ensures Entry(SumBlocks(bs), r, c) == BlockEntrySum(bs, r, c)
    decreases |bs|
  {
    if |bs| > 0 {
      EntryAppend(bs[0], SumBlocks(bs[1..]), r, c);
      SumBlocksEntry(bs[1..], r, c);
    }
  }
}
