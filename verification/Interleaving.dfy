/**
Several texts that arrive in pieces of one stream. A parser that appends what arrives gives
the texts one after the other for sure exactly when they arrive one after the other.
*/
module Interleaving {

  /** A piece of the text with this number. */
  datatype Piece = Piece(rank: nat, text: string)

  /** All pieces in order of arrival. */
  function Arrived(ps: seq<Piece>): string {
    if ps == [] then "" else Arrived(ps[..|ps| - 1]) + ps[|ps| - 1].text
  }

  /** One of the texts. */
  function Ranked(ps: seq<Piece>, rank: nat): string {
    if ps == [] then ""
    else
      var p := ps[|ps| - 1];
      Ranked(ps[..|ps| - 1], rank) + (if p.rank == rank then p.text else "")
  }

  /** The first `n` texts, one after the other. */
  function ByRank(ps: seq<Piece>, n: nat): string {
    if n == 0 then "" else ByRank(ps, n - 1) + Ranked(ps, n - 1)
  }

  predicate RanksBelow(ps: seq<Piece>, n: nat) {
    forall i | 0 <= i < |ps| :: ps[i].rank < n
  }

  /** No text goes on once a later one has begun. */
  predicate OneAfterAnother(ps: seq<Piece>) {
    forall i, j | 0 <= i < j < |ps| && ps[i].text != "" && ps[j].text != "" :: ps[i].rank <= ps[j].rank
  }

  lemma {:induction false} NoneOfRank(ps: seq<Piece>, rank: nat)
    requires forall i | 0 <= i < |ps| && ps[i].text != "" :: ps[i].rank != rank
    ensures Ranked(ps, rank) == ""
  {
    if ps != [] {
      var init := ps[..|ps| - 1];
      assert forall i | 0 <= i < |init| :: init[i] == ps[i];
      NoneOfRank(init, rank);
    }
  }

  /** A piece that is of the last text there is goes to the end. */
  lemma {:induction false} LastPiece(init: seq<Piece>, p: Piece, n: nat)
    requires p.text != "" ==> forall k | p.rank < k < n :: Ranked(init, k) == ""
    ensures ByRank(init + [p], n) == ByRank(init, n) + (if p.rank < n then p.text else "")
  {
    var ps := init + [p];
    assert ps[..|ps| - 1] == init;
    if n > 0 {
      LastPiece(init, p, n - 1);
      ByRankStep(ps, n);
      ByRankStep(init, n);
      hide ByRank;
      var before, text := ByRank(init, n - 1), Ranked(init, n - 1);
      assert (before + text) + p.text == before + (text + p.text);
      assert p.text == "" ==> before + p.text == before && text + p.text == text;
      assert p.rank < n - 1 && p.text != "" ==> text == "";
      assert text == "" ==> before + text == before && (before + p.text) + text == before + p.text;
      assert text + "" == text && before + "" == before;
    }
  }

  lemma ByRankStep(ps: seq<Piece>, n: nat)
    requires n > 0
    ensures ByRank(ps, n) == ByRank(ps, n - 1) + Ranked(ps, n - 1)
  {
  }

  /** Texts that arrive one after the other are read one after the other. */
  lemma {:induction false} InOrderAgrees(ps: seq<Piece>, n: nat)
    requires RanksBelow(ps, n) && OneAfterAnother(ps)
    ensures Arrived(ps) == ByRank(ps, n)
  {
    if ps == [] {
      NothingByRank(n);
    } else {
      var init, p := ps[..|ps| - 1], ps[|ps| - 1];
      assert ps == init + [p];
      assert forall i | 0 <= i < |init| :: init[i] == ps[i];
      InOrderAgrees(init, n);
      if p.text != "" {
        forall k | p.rank < k < n ensures Ranked(init, k) == "" {
          NoneOfRank(init, k);
        }
      }
      hide ByRank, Ranked;
      LastPiece(init, p, n);
    }
  }

  lemma {:induction false} NothingByRank(n: nat)
    ensures ByRank([], n) == ""
  {
    if n > 0 {
      NothingByRank(n - 1);
    }
  }

  // ---------- lengths ----------

  lemma {:induction false} OneMoreLength(init: seq<Piece>, p: Piece, n: nat)
    ensures |ByRank(init + [p], n)| == |ByRank(init, n)| + (if p.rank < n then |p.text| else 0)
  {
    assert (init + [p])[..|init + [p]| - 1] == init;
    if n > 0 {
      OneMoreLength(init, p, n - 1);
    }
  }

  /** Nothing is lost or made up by either reading. */
  lemma {:induction false} SameLength(ps: seq<Piece>, n: nat)
    requires RanksBelow(ps, n)
    ensures |Arrived(ps)| == |ByRank(ps, n)|
  {
    if ps == [] {
      NothingByRank(n);
    } else {
      var init, p := ps[..|ps| - 1], ps[|ps| - 1];
      assert ps == init + [p];
      assert forall i | 0 <= i < |init| :: init[i] == ps[i];
      SameLength(init, n);
      OneMoreLength(init, p, n);
    }
  }

  // ---------- only then ----------

  /** The same pieces with other characters. */
  ghost predicate SameShape(ps: seq<Piece>, qs: seq<Piece>) {
    |ps| == |qs| && forall i | 0 <= i < |ps| :: ps[i].rank == qs[i].rank && |ps[i].text| == |qs[i].text|
  }

  function Repeated(x: char, n: nat): string {
    seq(n, _ => x)
  }

  /** Texts from number `cut` on are all x, the others all y. */
  function Lettered(ps: seq<Piece>, cut: nat): seq<Piece> {
    seq(|ps|, i requires 0 <= i < |ps| =>
      Piece(ps[i].rank, Repeated(if ps[i].rank >= cut then 'x' else 'y', |ps[i].text|)))
  }

  predicate Only(s: string, x: char) {
    forall i | 0 <= i < |s| :: s[i] == x
  }

  predicate XsLast(s: string) {
    forall a, b | 0 <= a < b < |s| && s[a] == 'x' :: s[b] == 'x'
  }

  lemma {:induction false} RankedLetter(ps: seq<Piece>, cut: nat, rank: nat)
    ensures Only(Ranked(Lettered(ps, cut), rank), if rank >= cut then 'x' else 'y')
  {
    if ps != [] {
      RankedLetter(ps[..|ps| - 1], cut, rank);
      assert Lettered(ps, cut)[..|ps| - 1] == Lettered(ps[..|ps| - 1], cut);
    }
  }

  lemma {:induction false} ByRankXsLast(ps: seq<Piece>, cut: nat, n: nat)
    ensures XsLast(ByRank(Lettered(ps, cut), n))
    ensures n <= cut ==> Only(ByRank(Lettered(ps, cut), n), 'y')
  {
    if n > 0 {
      ByRankXsLast(ps, cut, n - 1);
      RankedLetter(ps, cut, n - 1);
      hide Ranked, Lettered;
    }
  }

  /** Where piece `i` begins. */
  lemma {:induction false} PieceAt(ps: seq<Piece>, i: nat) returns (at: nat)
    requires i < |ps|
    ensures at + |ps[i].text| <= |Arrived(ps)| && Arrived(ps)[at..at + |ps[i].text|] == ps[i].text
    ensures at == |Arrived(ps[..i])|
  {
    var init, p := ps[..|ps| - 1], ps[|ps| - 1];
    if i == |ps| - 1 {
      at := |Arrived(init)|;
    } else {
      at := PieceAt(init, i);
      assert init[..i] == ps[..i];
      var m := at + |ps[i].text|;
      assert Arrived(ps)[at..m] == Arrived(init)[at..m];
    }
  }

  lemma {:induction false} ArrivedGrows(ps: seq<Piece>, i: nat, j: nat)
    requires i < j <= |ps|
    ensures |Arrived(ps[..i])| + |ps[i].text| <= |Arrived(ps[..j])|
  {
    assert ps[..j][..j - 1] == ps[..j - 1];
    if i < j - 1 {
      ArrivedGrows(ps, i, j - 1);
    }
  }

  lemma OutOfOrder(ps: seq<Piece>, i: nat, j: nat)
    requires i < j < |ps| && ps[i].text != "" && ps[j].text != "" && ps[j].rank < ps[i].rank
    ensures !XsLast(Arrived(Lettered(ps, ps[i].rank)))
  {
    var qs := Lettered(ps, ps[i].rank);
    var all := Arrived(qs);
    var a := PieceAt(qs, i);
    var b := PieceAt(qs, j);
    ArrivedGrows(qs, i, j);
    assert qs[i].text[0] == 'x' && qs[j].text[0] == 'y';
    assert all[a..a + |qs[i].text|][0] == 'x' && all[b..b + |qs[j].text|][0] == 'y';
    assert all[a] == 'x' && all[b] == 'y' && a < b;
  }

  /** For all that streams cut like this one may say, reading in order of arrival gives the
      texts one after the other, if and only if they arrive so. */
  lemma AgreesIffOneAfterAnother(ps: seq<Piece>, n: nat)
    requires RanksBelow(ps, n)
    ensures (forall qs | SameShape(ps, qs) :: Arrived(qs) == ByRank(qs, n)) <==> OneAfterAnother(ps)
  {
    if OneAfterAnother(ps) {
      forall qs: seq<Piece> | SameShape(ps, qs) ensures Arrived(qs) == ByRank(qs, n) {
        assert forall i | 0 <= i < |ps| :: ps[i].text == "" <==> qs[i].text == "";
        InOrderAgrees(qs, n);
      }
    } else {
      var i, j :| 0 <= i < j < |ps| && ps[i].text != "" && ps[j].text != "" && ps[i].rank > ps[j].rank;
      var qs := Lettered(ps, ps[i].rank);
      assert SameShape(ps, qs);
      OutOfOrder(ps, i, j);
      ByRankXsLast(ps, ps[i].rank, n);
    }
  }
}
