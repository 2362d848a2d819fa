/**
The pending list cut into batches. Ascending ids are cut into blocks of `k`; taking the
lowest few of a set that consists of whole blocks takes whole blocks again.
*/
module Blocks {
  import opened Ingest

  predicate InOrder(s: seq<EntryId>) {
    forall i, j | 0 <= i < j < |s| :: s[i] < s[j]
  }

  function Cut(q: seq<EntryId>, k: nat): seq<seq<EntryId>>
    requires 1 <= k
  {
    if q == [] then [] else if |q| <= k then [q] else [q[..k]] + Cut(q[k..], k)
  }

  /** Blocks of `k`, only the last of which may be smaller, of ascending ids below `n`. */
  ghost predicate Blocked(bs: seq<seq<EntryId>>, k: nat, n: nat) {
    && (forall j | 0 <= j < |bs| :: 1 <= |bs[j]| <= k && InOrder(bs[j]) && (j + 1 < |bs| ==> |bs[j]| == k))
    && (forall j, p | 0 <= j < |bs| && 0 <= p < |bs[j]| :: bs[j][p] < n)
    && (forall i, j, p, r | 0 <= i < j < |bs| && 0 <= p < |bs[i]| && 0 <= r < |bs[j]| :: bs[i][p] < bs[j][r])
  }

  ghost predicate At(bs: seq<seq<EntryId>>, id: EntryId, j: int, p: int) {
    0 <= j < |bs| && 0 <= p < |bs[j]| && bs[j][p] == id
  }

  /** Elements are ordered by block, then by place. */
  lemma Locate(bs: seq<seq<EntryId>>, k: nat, n: nat, i: nat, r: nat, j: nat, p: nat)
    requires Blocked(bs, k, n) && i < |bs| && r < |bs[i]| && j < |bs| && p < |bs[j]|
    ensures bs[i][r] < bs[j][p] <==> i < j || (i == j && r < p)
    ensures bs[i][r] == bs[j][p] <==> i == j && r == p
  {
  }

  ghost predicate InSome(bs: seq<seq<EntryId>>, id: EntryId) {
    exists j, p :: At(bs, id, j, p)
  }

  lemma {:induction false} CutBlocked(q: seq<EntryId>, k: nat, n: nat)
    requires 1 <= k && InOrder(q) && forall i | 0 <= i < |q| :: q[i] < n
    ensures Blocked(Cut(q, k), k, n)
    ensures forall id: EntryId :: id in q <==> InSome(Cut(q, k), id)
  {
    if q == [] {
    } else if |q| <= k {
      assert forall i | 0 <= i < |q| :: At([q], q[i], 0, i);
    } else {
      var rest := Cut(q[k..], k);
      CutBlocked(q[k..], k, n);
      CutMore(q, k, n, rest);
    }
  }

  lemma CutMore(q: seq<EntryId>, k: nat, n: nat, rest: seq<seq<EntryId>>)
    requires 1 <= k < |q| && InOrder(q) && forall i | 0 <= i < |q| :: q[i] < n
    requires Blocked(rest, k, n) && forall id: EntryId :: id in q[k..] <==> InSome(rest, id)
    ensures Blocked([q[..k]] + rest, k, n)
    ensures forall id: EntryId :: id in q <==> InSome([q[..k]] + rest, id)
  {
    var bs := [q[..k]] + rest;
    assert forall j | 0 < j < |bs| :: bs[j] == rest[j - 1];
    forall j, p, r | 0 < j < |bs| && 0 <= p < k && 0 <= r < |bs[j]| ensures bs[0][p] < bs[j][r] {
      FirstIsLower(q, k, rest, p, j - 1, r);
    }
    forall id: EntryId ensures id in q <==> InSome(bs, id) {
      hide Blocked;
      InOneMore(q[..k], rest, id);
      assert q == q[..k] + q[k..];
    }
  }

  lemma FirstIsLower(q: seq<EntryId>, k: nat, rest: seq<seq<EntryId>>, p: nat, j: nat, r: nat)
    requires p < k < |q| && InOrder(q) && j < |rest| && r < |rest[j]|
    requires forall id: EntryId :: id in q[k..] <==> InSome(rest, id)
    ensures q[..k][p] < rest[j][r]
  {
    assert At(rest, rest[j][r], j, r);
    assert InSome(rest, rest[j][r]);
    var i :| 0 <= i < |q[k..]| && q[k..][i] == rest[j][r];
    assert q[p] < q[k + i];
  }

  lemma InOneMore(first: seq<EntryId>, rest: seq<seq<EntryId>>, id: EntryId)
    ensures InSome([first] + rest, id) <==> id in first || InSome(rest, id)
  {
    var bs := [first] + rest;
    if id in first {
      var p :| 0 <= p < |first| && first[p] == id;
      assert At(bs, id, 0, p);
    }
    if InSome(rest, id) {
      var j, p :| At(rest, id, j, p);
      assert At(bs, id, j + 1, p);
    }
    if InSome(bs, id) && id !in first {
      var j, p :| At(bs, id, j, p);
      assert At(rest, id, j - 1, p);
    }
  }

  // ---------- whole blocks ----------

  /** Each block is in the set or out of it, and below `n` there is nothing else. */
  ghost predicate Whole(ids: set<EntryId>, bs: seq<seq<EntryId>>, n: nat) {
    && (forall id <- ids :: id < n ==> InSome(bs, id))
    && (forall j, p | 0 <= j < |bs| && 0 <= p < |bs[j]| :: bs[j][p] in ids <==> bs[j][0] in ids)
  }

  ghost predicate Present(ids: set<EntryId>, bs: seq<seq<EntryId>>, j: nat)
    requires j < |bs|
  {
    bs[j] != [] && bs[j][0] in ids
  }

  ghost function PresentBelow(ids: set<EntryId>, bs: seq<seq<EntryId>>, j: nat): (m: nat)
    requires j <= |bs|
    ensures m <= j
  {
    if j == 0 then 0 else PresentBelow(ids, bs, j - 1) + (if Present(ids, bs, j - 1) then 1 else 0)
  }

  lemma {:induction false} SameAscending(a: seq<EntryId>, b: seq<EntryId>)
    requires InOrder(a) && InOrder(b) && forall id: EntryId :: id in a <==> id in b
    ensures a == b
  {
    if a == [] {
      var first := if b == [] then 0 else b[0];
      assert first in b ==> first in a;
    } else {
      assert a[0] in b;
      var m, n := |a| - 1, |b| - 1;
      assert a[m] in b && b[n] in a;
      assert a[m] == b[n];
      forall id: EntryId ensures id in a[..m] <==> id in b[..n] {
        assert id in a[..m] <==> id in a && id != a[m] by { Except(a, id); }
        assert id in b[..n] <==> id in b && id != b[n] by { Except(b, id); }
      }
      SameAscending(a[..m], b[..n]);
      assert a == a[..m] + [a[m]] && b == b[..n] + [b[n]];
    }
  }

  lemma Except(a: seq<EntryId>, id: EntryId)
    requires a != [] && InOrder(a)
    ensures id in a[..|a| - 1] <==> id in a && id != a[|a| - 1]
  {
    assert a == a[..|a| - 1] + [a[|a| - 1]];
  }

  /** An id of some block that lies between two of block `j` is in block `j`. */
  lemma Between(bs: seq<seq<EntryId>>, k: nat, n: nat, id: EntryId, j: nat, p: nat)
    requires Blocked(bs, k, n) && j < |bs| && p < |bs[j]| && InSome(bs, id)
    ensures id in bs[j][..p] <==> bs[j][0] <= id < bs[j][p]
  {
    var i, r :| At(bs, id, i, r);
    Locate(bs, k, n, i, r, j, 0);
    Locate(bs, k, n, i, r, j, p);
    if i == j && r < p {
      assert bs[j][..p][r] == id;
    }
    if id in bs[j][..p] {
      var m :| 0 <= m < p && bs[j][m] == id;
      Locate(bs, k, n, i, r, j, m);
    }
  }

  /** The place of an element: all of the lower blocks' come first, then its own block's. */
  lemma PlaceInBlock(ids: set<EntryId>, bs: seq<seq<EntryId>>, k: nat, n: nat, j: nat, p: nat)
    requires Blocked(bs, k, n) && Whole(ids, bs, n) && j < |bs| && p < |bs[j]| && Present(ids, bs, j)
    ensures Ascending(ids, bs[j][p]) == Ascending(ids, bs[j][0]) + bs[j][..p]
  {
    var low, all, mine := Ascending(ids, bs[j][0]), Ascending(ids, bs[j][p]), bs[j][..p];
    Locate(bs, k, n, j, 0, j, p);
    assert bs[j][p] < n;
    forall id: EntryId ensures id in mine <==> id in ids && bs[j][0] <= id < bs[j][p] {
      if id in mine {
        var r :| 0 <= r < p && bs[j][r] == id;
        assert At(bs, id, j, r) && InSome(bs, id) && id in ids;
        Between(bs, k, n, id, j, p);
      } else if id in ids && id < n {
        Between(bs, k, n, id, j, p);
      }
    }
    assert InOrder(bs[j]);
    hide Whole, Blocked;
    Together(ids, low, mine, bs[j][0], bs[j][p]);
  }

  lemma Together(ids: set<EntryId>, low: seq<EntryId>, mine: seq<EntryId>, from: EntryId, to: EntryId)
    requires from <= to && low == Ascending(ids, from) && InOrder(mine)
    requires forall id: EntryId :: id in mine <==> id in ids && from <= id < to
    ensures Ascending(ids, to) == low + mine
  {
    var all := Ascending(ids, to);
    hide Ascending;
    forall i | 0 <= i < |mine| ensures from <= mine[i] { assert mine[i] in mine; }
    forall id: EntryId ensures id in all <==> id in low + mine {
    }
    SameAscending(all, low + mine);
  }

  /** Between the first of a block and the first of the next lies the block. */
  lemma BlockBetween(bs: seq<seq<EntryId>>, k: nat, n: nat, id: EntryId, j: nat)
    requires Blocked(bs, k, n) && j + 1 < |bs| && InSome(bs, id)
    ensures id in bs[j] <==> bs[j][0] <= id < bs[j + 1][0]
  {
    var i, r :| At(bs, id, i, r);
    Locate(bs, k, n, i, r, j, 0);
    Locate(bs, k, n, i, r, j + 1, 0);
    if id in bs[j] {
      var m :| 0 <= m < |bs[j]| && bs[j][m] == id;
      Locate(bs, k, n, i, r, j, m);
    }
  }

  lemma InBlock(bs: seq<seq<EntryId>>, id: EntryId, j: nat)
    requires j < |bs| && id in bs[j]
    ensures InSome(bs, id)
  {
    var r :| 0 <= r < |bs[j]| && bs[j][r] == id;
    assert At(bs, id, j, r);
  }

  lemma OfBlock(ids: set<EntryId>, bs: seq<seq<EntryId>>, k: nat, n: nat, j: nat, id: EntryId)
    requires Blocked(bs, k, n) && Whole(ids, bs, n) && j + 1 < |bs| && bs[j] != [] && bs[j + 1] != [] && bs[j + 1][0] < n
    ensures Present(ids, bs, j) && id in bs[j] <==> id in ids && bs[j][0] <= id < bs[j + 1][0]
  {
    if id in bs[j] {
      InBlock(bs, id, j);
    }
    assert id in bs[j] ==> (id in ids <==> bs[j][0] in ids);
    assert id in ids && id < n ==> InSome(bs, id);
    hide Whole, Blocked, InSome;
    if InSome(bs, id) {
      BlockBetween(bs, k, n, id, j);
    }
  }

  /** What lies below the next block is what lies below this one, and this one if present. */
  lemma NextBlock(ids: set<EntryId>, bs: seq<seq<EntryId>>, k: nat, n: nat, j: nat)
    requires Blocked(bs, k, n) && Whole(ids, bs, n) && j + 1 < |bs|
    ensures |Ascending(ids, bs[j + 1][0])| == |Ascending(ids, bs[j][0])| + (if Present(ids, bs, j) then k else 0)
  {
    var mine := if Present(ids, bs, j) then bs[j] else [];
    assert InOrder(mine) && |bs[j]| == k && bs[j + 1][0] < n;
    Locate(bs, k, n, j, 0, j + 1, 0);
    hide Whole, Blocked;
    forall id: EntryId ensures id in mine <==> id in ids && bs[j][0] <= id < bs[j + 1][0] {
      OfBlock(ids, bs, k, n, j, id);
    }
    Together(ids, Ascending(ids, bs[j][0]), mine, bs[j][0], bs[j + 1][0]);
  }

  lemma Least(bs: seq<seq<EntryId>>, k: nat, n: nat, id: EntryId)
    requires Blocked(bs, k, n) && 0 < |bs| && InSome(bs, id)
    ensures bs[0][0] <= id
  {
    var m, r :| At(bs, id, m, r);
    Locate(bs, k, n, m, r, 0, 0);
  }

  lemma {:induction false} NoneLower(ids: set<EntryId>, from: nat)
    requires forall id <- ids :: from <= id
    ensures Ascending(ids, from) == []
  {
    if from > 0 {
      NoneLower(ids, from - 1);
    }
  }

  lemma FirstBlock(ids: set<EntryId>, bs: seq<seq<EntryId>>, k: nat, n: nat)
    requires Blocked(bs, k, n) && Whole(ids, bs, n) && 0 < |bs|
    ensures Ascending(ids, bs[0][0]) == []
  {
    assert bs[0][0] < n;
    forall id | id in ids ensures bs[0][0] <= id {
      if id < n {
        Least(bs, k, n, id);
      }
    }
    NoneLower(ids, bs[0][0]);
  }

  lemma {:induction false} RankOfBlock(ids: set<EntryId>, bs: seq<seq<EntryId>>, k: nat, n: nat, j: nat)
    requires Blocked(bs, k, n) && Whole(ids, bs, n) && j < |bs|
    ensures |Ascending(ids, bs[j][0])| == k * PresentBelow(ids, bs, j)
  {
    hide Ascending, Whole, Blocked, Present;
    if j == 0 {
      FirstBlock(ids, bs, k, n);
      assert k * PresentBelow(ids, bs, 0) == 0;
    } else {
      RankOfBlock(ids, bs, k, n, j - 1);
      NextBlock(ids, bs, k, n, j - 1);
      var m := PresentBelow(ids, bs, j - 1);
      assert k * (m + 1) == k * m + k;
    }
  }

  lemma BelowLimit(k: nat, m: nat, p: nat, limit: nat)
    requires p < k
    ensures k * m + p < limit * k <==> m < limit
  {
    if m < limit {
      assert k * (m + 1) <= k * limit;
    } else {
      assert k * limit <= k * m;
    }
  }

  /** Exactly the present blocks with fewer than `limit` present ones below them. */
  lemma LowestBlocks(ids: set<EntryId>, bs: seq<seq<EntryId>>, k: nat, n: nat, limit: nat, j: nat, p: nat)
    requires Blocked(bs, k, n) && Whole(ids, bs, n) && j < |bs| && p < |bs[j]|
    ensures bs[j][p] in Lowest(ids, limit * k) <==> Present(ids, bs, j) && PresentBelow(ids, bs, j) < limit
  {
    if Present(ids, bs, j) {
      RankOfBlock(ids, bs, k, n, j);
      PlaceInBlock(ids, bs, k, n, j, p);
      var low := |Ascending(ids, bs[j][0])|;
      assert |Ascending(ids, bs[j][p])| == low + p;
      BelowLimit(k, PresentBelow(ids, bs, j), p, limit);
      hide Ascending;
    }
  }

  lemma LowestIsWhole(ids: set<EntryId>, bs: seq<seq<EntryId>>, k: nat, n: nat, limit: nat)
    requires Blocked(bs, k, n) && Whole(ids, bs, n)
    ensures Whole(Lowest(ids, limit * k), bs, n)
  {
    var low := Lowest(ids, limit * k);
    forall j, p | 0 <= j < |bs| && 0 <= p < |bs[j]| ensures bs[j][p] in low <==> bs[j][0] in low {
      LowestBlocks(ids, bs, k, n, limit, j, p);
      LowestBlocks(ids, bs, k, n, limit, j, 0);
    }
  }
}
