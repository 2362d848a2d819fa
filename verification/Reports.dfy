/**
What a stream of chunks reports of one thing (its model, usage or finish reason): which
of many reports is kept. `none` is what a chunk that reports nothing has.
*/
module Reports {

  /** No report at the indices from `lo` up to `hi`. */
  predicate Nothing<T(==)>(xs: seq<T>, none: T, lo: int, hi: int)
    requires 0 <= lo && hi <= |xs|
  {
    forall i | lo <= i < hi :: xs[i] == none
  }

  predicate FirstAt<T(==)>(xs: seq<T>, none: T, x: T, i: int) {
    0 <= i < |xs| && xs[i] == x && Nothing(xs, none, 0, i)
  }

  predicate LastAt<T(==)>(xs: seq<T>, none: T, x: T, i: int) {
    0 <= i < |xs| && xs[i] == x && Nothing(xs, none, i + 1, |xs|)
  }

  /** `x` is the first report, or `none` if there is none. */
  ghost predicate First<T>(xs: seq<T>, none: T, x: T) {
    if x == none then Nothing(xs, none, 0, |xs|) else exists i :: FirstAt(xs, none, x, i)
  }

  /** `x` is the last report, or `none` if there is none. */
  ghost predicate Last<T>(xs: seq<T>, none: T, x: T) {
    if x == none then Nothing(xs, none, 0, |xs|) else exists i :: LastAt(xs, none, x, i)
  }

  /** A parser keeps the first report by taking a new one only while it has none. */
  lemma KeepsFirst<T>(xs: seq<T>, none: T, x: T, next: T)
    requires First(xs, none, x)
    ensures First(xs + [next], none, if x == none then next else x)
  {
    var all := xs + [next];
    if x != none {
      var i :| FirstAt(xs, none, x, i);
      assert FirstAt(all, none, x, i);
    } else if next != none {
      assert FirstAt(all, none, next, |xs|);
    }
  }

  /** And the last by taking every new one. */
  lemma KeepsLast<T>(xs: seq<T>, none: T, x: T, next: T)
    requires Last(xs, none, x)
    ensures Last(xs + [next], none, if next == none then x else next)
  {
    var all := xs + [next];
    if next != none {
      assert LastAt(all, none, next, |xs|);
    } else if x != none {
      var i :| LastAt(xs, none, x, i);
      assert LastAt(all, none, x, i);
    }
  }

  lemma OneFirst<T>(xs: seq<T>, none: T, a: T, b: T)
    requires First(xs, none, a) && First(xs, none, b)
    ensures a == b
  {
    var i := if a != none then var i :| FirstAt(xs, none, a, i); i else |xs|;
    var j := if b != none then var j :| FirstAt(xs, none, b, j); j else |xs|;
  }

  lemma OneLast<T>(xs: seq<T>, none: T, a: T, b: T)
    requires Last(xs, none, a) && Last(xs, none, b)
    ensures a == b
  {
    var i := if a != none then var i :| LastAt(xs, none, a, i); i else -1;
    var j := if b != none then var j :| LastAt(xs, none, b, j); j else -1;
  }
}
