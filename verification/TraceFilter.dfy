/**
The dynamic SQL of the trace repository (internal/storage/postgres/trace_repo.go):
the `?` to `$n` rewriting and the filters of List and ListGroups, against an
evaluator of the WHERE text with argument k bound to $k.
*/
module TraceFilter {
  import opened Wrappers
  import opened Text

  // ---------- rows, values and conditions ----------

  datatype Arg = Str(s: string) | Num(n: int)

  datatype Row = Row(projectId: string, traceId: string, userId: string, sessionId: string, traceName: string,
                     model: string, status: string, createdAt: int)

  datatype Column = ProjectId | TraceId | UserId | SessionId | TraceName | Model | Status | CreatedAt

  datatype Op = Eq | Ge | Le

  datatype Cond = Cond(column: Column, op: Op, value: Arg)

  function ColumnName(c: Column): string {
    match c
    case ProjectId => "project_id"
    case TraceId => "trace_id"
    case UserId => "user_id"
    case SessionId => "session_id"
    case TraceName => "trace_name"
    case Model => "model"
    case Status => "status"
    case CreatedAt => "created_at"
  }

  function OpText(op: Op): string {
    match op
    case Eq => "="
    case Ge => ">="
    case Le => "<="
  }

  function Get(row: Row, c: Column): Arg {
    match c
    case ProjectId => Str(row.projectId)
    case TraceId => Str(row.traceId)
    case UserId => Str(row.userId)
    case SessionId => Str(row.sessionId)
    case TraceName => Str(row.traceName)
    case Model => Str(row.model)
    case Status => Str(row.status)
    case CreatedAt => Num(row.createdAt)
  }

  /** None where Postgres would reject the comparison. */
  function Compare(op: Op, a: Arg, b: Arg): Option<bool> {
    if a.Str? && b.Str? && op == Eq then Some(a.s == b.s)
    else if a.Num? && b.Num? then Some(match op case Eq => a.n == b.n case Ge => a.n >= b.n case Le => a.n <= b.n)
    else None
  }

  // ---------- toPg ----------

  function Mark(c: char): nat {
    if c == '?' then 1 else 0
  }

  function Piece(c: char, n: nat): string {
    if c == '?' then "$" + Dec(n + 1) else [c]
  }

  /** Each `?` becomes the next `$n`, counting from `n + 1`. */
  function Rewritten(q: string, n: nat): string {
    if q == "" then "" else Piece(q[0], n) + Rewritten(q[1..], n + Mark(q[0]))
  }

  function Marks(q: string): nat {
    if q == "" then 0 else Mark(q[0]) + Marks(q[1..])
  }

  method ToPg(q: string) returns (b: string)
    ensures b == Rewritten(q, 0)
  {
    hide Rewritten, Dec;
    b := "";
    var n := 0;
    assert q[0..] == q && "" + Rewritten(q, 0) == Rewritten(q, 0);
    for i := 0 to |q|
      invariant b + Rewritten(q[i..], n) == Rewritten(q, 0)
    {
      RewrittenStep(q, i, b, n);
      if q[i] == '?' {
        n := n + 1;
        b := b + ("$" + Dec(n));
        continue;
      }
      b := b + [q[i]];
    }
    RewrittenEnd(b, n);
    assert q[|q|..] == "";
  }

  lemma RewrittenStep(q: string, i: nat, b: string, n: nat)
    requires i < |q|
    ensures b + Rewritten(q[i..], n) == b + Piece(q[i], n) + Rewritten(q[i + 1..], n + Mark(q[i]))
  {
    hide Piece, Mark;
    assert q[i..][1..] == q[i + 1..];
  }

  lemma RewrittenEnd(b: string, n: nat)
    ensures b + Rewritten("", n) == b
  {
  }

  /** Rewriting a concatenation carries the count from one part to the next. */
  lemma {:induction false} RewrittenJoins(a: string, b: string, n: nat)
    ensures Rewritten(a + b, n) == Rewritten(a, n) + Rewritten(b, n + Marks(a))
    ensures Marks(a + b) == Marks(a) + Marks(b)
  {
    hide Piece, Mark;
    if a == "" {
      assert a + b == b;
    } else {
      assert (a + b)[1..] == a[1..] + b;
      var m := n + Mark(a[0]);
      RewrittenJoins(a[1..], b, m);
      var head, x, y := Piece(a[0], n), Rewritten(a[1..], m), Rewritten(b, m + Marks(a[1..]));
      assert head + (x + y) == (head + x) + y;
    }
  }

  lemma {:induction false} UnmarkedStays(q: string, n: nat)
    requires '?' !in q
    ensures Rewritten(q, n) == q && Marks(q) == 0
  {
    if q != "" {
      UnmarkedStays(q[1..], n);
    }
  }

  // ---------- the placeholders of a finished query ----------

  predicate All(s: string, p: char -> bool) {
    forall i | 0 <= i < |s| :: p(s[i])
  }

  /** How far a text goes on in one kind of character. */
  function Span(s: string, p: char -> bool): (k: nat)
    ensures k <= |s| && All(s[..k], p) && (k < |s| ==> !p(s[k]))
  {
    if s == "" || !p(s[0]) then 0 else 1 + Span(s[1..], p)
  }

  lemma {:induction false} SpanStops(s: string, rest: string, p: char -> bool)
    requires All(s, p) && (rest != "" ==> !p(rest[0]))
    ensures Span(s + rest, p) == |s| && (s + rest)[..|s|] == s && (s + rest)[|s|..] == rest
  {
    if s == "" {
      assert s + rest == rest;
    } else {
      assert (s + rest)[1..] == s[1..] + rest;
      SpanStops(s[1..], rest, p);
    }
  }

  /** The numbers that follow the dollar signs, in order, as Postgres reads them. */
  function Placeholders(s: string): seq<nat>
    decreases |s|
  {
    if s == "" then []
    else if s[0] != '$' then Placeholders(s[1..])
    else
      var k := Span(s[1..], IsDigit);
      (if k == 0 then [] else [Value(s[1..][..k])]) + Placeholders(s[1..][k..])
  }

  function Numbers(from: nat, count: nat): seq<nat> {
    seq(count, i => from + i)
  }

  /** A query under construction: no `$` of its own, and no digit right after a `?`. */
  predicate Clean(q: string) {
    '$' !in q && forall i | 0 <= i < |q| - 1 && q[i] == '?' :: !IsDigit(q[i + 1])
  }

  lemma CleanJoins(a: string, b: string)
    requires Clean(a) && Clean(b)
    requires a != "" && b != "" ==> a[|a| - 1] != '?' || !IsDigit(b[0])
    ensures Clean(a + b)
  {
  }

  lemma NumberRead(digits: string, rest: string)
    requires digits != "" && AllDigits(digits) && (rest != "" ==> !IsDigit(rest[0]))
    ensures Placeholders("$" + digits + rest) == [Value(digits)] + Placeholders(rest)
  {
    hide Value;
    SpanStops(digits, rest, IsDigit);
    assert ("$" + digits + rest)[1..] == digits + rest;
  }

  lemma DollarRead(n: nat, rest: string)
    requires rest != "" ==> !IsDigit(rest[0])
    ensures Placeholders("$" + Dec(n) + rest) == [n] + Placeholders(rest)
  {
    DecReads(n);
    hide *;
    NumberRead(Dec(n), rest);
  }

  /** A rewritten query reads as $1, $2, ... with one number for each `?`. */
  lemma {:induction false} PlaceholdersCount(q: string, n: nat)
    requires Clean(q)
    ensures Placeholders(Rewritten(q, n)) == Numbers(n + 1, Marks(q))
  {
    if q == "" {
      hide Dec;
      assert Numbers(n + 1, 0) == [];
    } else {
      var rest, m := q[1..], n + Mark(q[0]);
      PieceRead(q, n);
      CleanTail(q);
      PlaceholdersCount(rest, m);
      NumbersJoin(n + 1, Mark(q[0]), Marks(rest));
      hide Rewritten, Clean, Placeholders, Numbers, Dec;
    }
  }

  lemma CleanTail(q: string)
    requires Clean(q) && q != ""
    ensures Clean(q[1..])
  {
  }

  lemma NumbersJoin(from: nat, a: nat, b: nat)
    ensures Numbers(from, a) + Numbers(from + a, b) == Numbers(from, a + b)
  {
  }

  lemma PieceRead(q: string, n: nat)
    requires Clean(q) && q != ""
    ensures var m := n + Mark(q[0]);
            Placeholders(Rewritten(q, n)) == Numbers(n + 1, Mark(q[0])) + Placeholders(Rewritten(q[1..], m))
  {
    var rest, m := q[1..], n + Mark(q[0]);
    var tail := Rewritten(rest, m);
    assert Rewritten(q, n) == Piece(q[0], n) + tail;
    if q[0] == '?' {
      NoDigitNext(q, m);
    } else {
      assert q[0] != '$';
    }
    hide Rewritten, Clean, Placeholders, Dec, Numbers;
    NumbersFew(n + 1);
    if q[0] == '?' {
      DollarRead(n + 1, tail);
    } else {
      OtherRead(q[0], tail);
      assert [] + Placeholders(tail) == Placeholders(tail);
    }
  }

  lemma NumbersFew(from: nat)
    ensures Numbers(from, 0) == [] && Numbers(from, 1) == [from]
  {
  }

  lemma NoDigitNext(q: string, m: nat)
    requires Clean(q) && q != "" && q[0] == '?'
    ensures Rewritten(q[1..], m) != "" ==> !IsDigit(Rewritten(q[1..], m)[0])
  {
    hide Dec;
    if q[1..] != "" {
      assert q[1..][0] == q[1];
    }
  }

  lemma OtherRead(c: char, tail: string)
    requires c != '$'
    ensures Placeholders([c] + tail) == Placeholders(tail)
  {
    assert ([c] + tail)[1..] == tail;
  }

  // ---------- the WHERE text and its meaning ----------

  function CondText(c: Cond): string {
    ColumnName(c.column) + OpText(c.op) + "?"
  }

  /** strings.Join(_, " AND ") */
  function Joined(parts: seq<string>): string {
    if parts == [] then ""
    else if |parts| == 1 then parts[0]
    else parts[0] + " AND " + Joined(parts[1..])
  }

  function Clause(parts: seq<string>): string {
    if parts == [] then "" else " WHERE " + Joined(parts)
  }

  function Texts(conds: seq<Cond>): seq<string> {
    seq(|conds|, i requires 0 <= i < |conds| => CondText(conds[i]))
  }

  function Args(conds: seq<Cond>): seq<Arg> {
    seq(|conds|, i requires 0 <= i < |conds| => conds[i].value)
  }

  function Field(row: Row, name: string): Option<Arg> {
    if name == "project_id" then Some(Str(row.projectId))
    else if name == "trace_id" then Some(Str(row.traceId))
    else if name == "user_id" then Some(Str(row.userId))
    else if name == "session_id" then Some(Str(row.sessionId))
    else if name == "trace_name" then Some(Str(row.traceName))
    else if name == "model" then Some(Str(row.model))
    else if name == "status" then Some(Str(row.status))
    else if name == "created_at" then Some(Num(row.createdAt))
    else None
  }

  predicate Letter(c: char) {
    'a' <= c <= 'z' || c == '_'
  }

  predicate NotSpace(c: char) {
    c != ' '
  }

  function Bound(s: string, args: seq<Arg>): Option<Arg> {
    if s == "" || s[0] != '$' || s[1..] == "" || !AllDigits(s[1..]) then None
    else
      var k := Value(s[1..]);
      if 1 <= k <= |args| then Some(args[k - 1]) else None
  }

  function OpAndRest(s: string): (Option<Op>, string) {
    if "=" <= s then (Some(Eq), s[1..])
    else if ">=" <= s then (Some(Ge), s[2..])
    else if "<=" <= s then (Some(Le), s[2..])
    else (None, s)
  }

  /** One comparison, `name op $k`. */
  function EvalCond(s: string, args: seq<Arg>, row: Row): Option<bool> {
    var k := Span(s, Letter);
    var field, (op, right) := Field(row, s[..k]), OpAndRest(s[k..]);
    var bound := Bound(right, args);
    if field.Some? && op.Some? && bound.Some? then Compare(op.value, field.value, bound.value) else None
  }

  function EvalAll(s: string, args: seq<Arg>, row: Row): Option<bool>
    decreases |s|
  {
    var k := Span(s, NotSpace);
    var first := EvalCond(s[..k], args, row);
    if k == |s| then first
    else if !(" AND " <= s[k..]) then None
    else
      var others := EvalAll(s[k + 5..], args, row);
      if first.Some? && others.Some? then Some(first.value && others.value) else None
  }

  function EvalClause(s: string, args: seq<Arg>, row: Row): Option<bool> {
    if s == "" then Some(true) else if " WHERE " <= s then EvalAll(s[7..], args, row) else None
  }

  // ---------- the text means its conditions ----------

  lemma NamesAreWords(c: Column)
    ensures All(ColumnName(c), Letter)
    ensures forall row: Row :: Field(row, ColumnName(c)) == Some(Get(row, c))
  {
    var name := ColumnName(c);
    assert |name| == 10 ==> name[0] == match c { case ProjectId => 'p' case SessionId => 's' case TraceName => 't' case _ => 'c' };
  }

  function Numbered(c: Cond, k: nat): string {
    ColumnName(c.column) + OpText(c.op) + "$" + Dec(k)
  }

  predicate Plain(c: char) {
    c != '?' && c != '$' && c != ' '
  }

  lemma LeftIsPlain(c: Cond)
    ensures All(ColumnName(c.column) + OpText(c.op), Plain)
  {
    NamesAreWords(c.column);
    var name := ColumnName(c.column);
    hide ColumnName;
    assert forall i | 0 <= i < |name| :: Letter(name[i]);
  }

  lemma CondRewritten(c: Cond, n: nat)
    ensures Rewritten(CondText(c), n) == Numbered(c, n + 1) && Marks(CondText(c)) == 1
    ensures Clean(CondText(c)) && All(Numbered(c, n + 1), NotSpace)
  {
    LeftIsPlain(c);
    var left := ColumnName(c.column) + OpText(c.op);
    assert CondText(c) == left + "?" && Numbered(c, n + 1) == left + "$" + Dec(n + 1);
    hide *;
    PlainThenMark(left, n);
    PlainThenNumber(left, n + 1);
  }

  lemma PlainThenMark(left: string, n: nat)
    requires All(left, Plain)
    ensures Rewritten(left + "?", n) == left + "$" + Dec(n + 1) && Marks(left + "?") == 1 && Clean(left + "?")
  {
    hide Dec, Rewritten, Marks;
    assert forall i | 0 <= i < |left| :: Plain(left[i]);
    UnmarkedStays(left, n);
    RewrittenJoins(left, "?", n);
    MarkAlone(n);
    assert left + ("$" + Dec(n + 1)) == left + "$" + Dec(n + 1);
  }

  lemma PlainThenNumber(left: string, k: nat)
    requires All(left, Plain)
    ensures All(left + "$" + Dec(k), NotSpace)
  {
    DecReads(k);
    var digits := Dec(k);
    hide Dec;
    assert forall i | 0 <= i < |left| :: Plain(left[i]);
    assert forall i | 0 <= i < |digits| :: IsDigit(digits[i]);
  }

  lemma MarkAlone(n: nat)
    ensures Rewritten("?", n) == "$" + Dec(n + 1) && Marks("?") == 1
  {
    hide Dec;
    assert "?"[1..] == "";
    assert "$" + Dec(n + 1) + "" == "$" + Dec(n + 1);
  }

  lemma OpReads(op: Op, right: string)
    ensures OpText(op) + right != "" && !Letter((OpText(op) + right)[0])
    ensures OpAndRest(OpText(op) + right) == (Some(op), right)
  {
    var s := OpText(op) + right;
    assert s[0] == OpText(op)[0];
    assert s[|OpText(op)|..] == right;
  }

  lemma BoundReads(k: nat, args: seq<Arg>)
    requires 1 <= k <= |args|
    ensures Bound("$" + Dec(k), args) == Some(args[k - 1])
  {
    DecReads(k);
    hide Dec;
    assert ("$" + Dec(k))[1..] == Dec(k);
  }

  lemma NumberedMeans(c: Cond, k: nat, args: seq<Arg>, row: Row)
    requires 1 <= k <= |args| && args[k - 1] == c.value
    ensures EvalCond(Numbered(c, k), args, row) == Compare(c.op, Get(row, c.column), c.value)
  {
    var name, right := ColumnName(c.column), "$" + Dec(k);
    NamesAreWords(c.column);
    BoundReads(k, args);
    OpReads(c.op, right);
    assert Numbered(c, k) == name + (OpText(c.op) + right);
    hide *;
    EvalParts(name, OpText(c.op) + right, args, row);
  }

  lemma EvalParts(name: string, rest: string, args: seq<Arg>, row: Row)
    requires All(name, Letter) && rest != "" && !Letter(rest[0])
    ensures var field, (op, right) := Field(row, name), OpAndRest(rest);
            var bound := Bound(right, args);
            EvalCond(name + rest, args, row) ==
            if field.Some? && op.Some? && bound.Some? then Compare(op.value, field.value, bound.value) else None
  {
    hide Field, Bound, OpAndRest, Compare;
    SpanStops(name, rest, Letter);
  }

  ghost predicate Comparable(c: Cond) {
    match c.column
    case CreatedAt => c.value.Num?
    case _ => c.value.Str? && c.op == Eq
  }

  predicate Holds(c: Cond, row: Row) {
    Compare(c.op, Get(row, c.column), c.value) == Some(true)
  }

  predicate AllHold(conds: seq<Cond>, row: Row) {
    forall i | 0 <= i < |conds| :: Holds(conds[i], row)
  }

  function JoinedRewritten(conds: seq<Cond>, n: nat): string
    requires conds != []
  {
    Numbered(conds[0], n + 1) + (if |conds| == 1 then "" else " AND " + JoinedRewritten(conds[1..], n + 1))
  }

  lemma {:induction false} JoinedRewrites(conds: seq<Cond>, n: nat)
    requires conds != []
    ensures Rewritten(Joined(Texts(conds)), n) == JoinedRewritten(conds, n)
    ensures Marks(Joined(Texts(conds))) == |conds| && Clean(Joined(Texts(conds)))
    decreases |conds|
  {
    CondRewritten(conds[0], n);
    var first := CondText(conds[0]);
    if |conds| == 1 {
      hide CondText, Numbered, Rewritten, Marks, Clean;
      assert Numbered(conds[0], n + 1) + "" == Numbered(conds[0], n + 1);
    } else {
      var others := Joined(Texts(conds[1..]));
      JoinedRewrites(conds[1..], n + 1);
      TextsStep(conds);
      hide *;
      AndThen(first, others, n);
      JoinedRewrittenStep(conds, n);
    }
  }

  lemma TextsStep(conds: seq<Cond>)
    requires |conds| > 1
    ensures Joined(Texts(conds)) == CondText(conds[0]) + " AND " + Joined(Texts(conds[1..]))
  {
    hide CondText;
    assert Texts(conds)[1..] == Texts(conds[1..]);
  }

  lemma JoinedRewrittenStep(conds: seq<Cond>, n: nat)
    requires |conds| > 1
    ensures JoinedRewritten(conds, n) == Numbered(conds[0], n + 1) + (" AND " + JoinedRewritten(conds[1..], n + 1))
  {
  }

  lemma AndThen(first: string, others: string, n: nat)
    requires Clean(first) && Clean(others)
    ensures Rewritten(first + " AND " + others, n) ==
            Rewritten(first, n) + (" AND " + Rewritten(others, n + Marks(first)))
    ensures Marks(first + " AND " + others) == Marks(first) + Marks(others)
    ensures Clean(first + " AND " + others)
  {
    hide Rewritten, Marks;
    UnmarkedStays(" AND ", n + Marks(first));
    RewrittenJoins(first, " AND " + others, n);
    RewrittenJoins(" AND ", others, n + Marks(first));
    assert first + " AND " + others == first + (" AND " + others);
    CleanJoins(" AND ", others);
    CleanJoins(first, " AND " + others);
  }

  lemma {:induction false} JoinedMeans(conds: seq<Cond>, n: nat, args: seq<Arg>, row: Row)
    requires conds != [] && n + |conds| <= |args|
    requires forall i | 0 <= i < |conds| :: Comparable(conds[i]) && args[n + i] == conds[i].value
    ensures EvalAll(JoinedRewritten(conds, n), args, row) == Some(AllHold(conds, row))
    decreases |conds|
  {
    var first := Numbered(conds[0], n + 1);
    assert args[n + 0] == conds[0].value && Comparable(conds[0]);
    FirstMeans(conds[0], n, args, row);
    AllHoldStep(conds, row);
    if |conds| == 1 {
      hide Numbered, EvalCond, EvalAll, Holds, Comparable;
      EvalLast(first, args, row);
      assert conds[1..] == [];
    } else {
      assert forall i | 0 <= i < |conds| - 1 :: args[n + 1 + i] == args[n + (i + 1)] && conds[1..][i] == conds[i + 1];
      hide Numbered, EvalCond, EvalAll, Holds, AllHold, Comparable, JoinedRewritten;
      JoinedMeans(conds[1..], n + 1, args, row);
      JoinedRewrittenStep(conds, n);
      EvalAnd(first, JoinedRewritten(conds[1..], n + 1), args, row);
    }
  }

  lemma Decided(c: Cond, row: Row)
    requires Comparable(c)
    ensures Compare(c.op, Get(row, c.column), c.value) == Some(Holds(c, row))
  {
  }

  lemma FirstMeans(c: Cond, n: nat, args: seq<Arg>, row: Row)
    requires n < |args| && args[n] == c.value && Comparable(c)
    ensures EvalCond(Numbered(c, n + 1), args, row) == Some(Holds(c, row)) && All(Numbered(c, n + 1), NotSpace)
  {
    hide *;
    CondRewritten(c, n);
    NumberedMeans(c, n + 1, args, row);
    Decided(c, row);
  }

  lemma AllHoldStep(conds: seq<Cond>, row: Row)
    requires conds != []
    ensures AllHold(conds, row) <==> Holds(conds[0], row) && AllHold(conds[1..], row)
  {
    hide Holds;
    assert forall i | 0 < i < |conds| :: conds[1..][i - 1] == conds[i];
  }

  lemma EvalLast(first: string, args: seq<Arg>, row: Row)
    requires All(first, NotSpace)
    ensures EvalAll(first + "", args, row) == EvalCond(first, args, row)
  {
    hide EvalCond;
    SpanStops(first, "", NotSpace);
  }

  lemma EvalAnd(first: string, others: string, args: seq<Arg>, row: Row)
    requires All(first, NotSpace) && EvalCond(first, args, row).Some? && EvalAll(others, args, row).Some?
    ensures EvalAll(first + (" AND " + others), args, row) ==
            Some(EvalCond(first, args, row).value && EvalAll(others, args, row).value)
  {
    hide EvalCond;
    var s := first + (" AND " + others);
    SpanStops(first, " AND " + others, NotSpace);
    assert s[|first| + 5..] == others;
  }

  /** The rewritten clause, with argument k bound to $k, accepts exactly the rows that meet
      every condition; it has one `?` for each. */
  lemma ClauseMeans(conds: seq<Cond>, more: seq<Arg>, row: Row)
    requires forall i | 0 <= i < |conds| :: Comparable(conds[i])
    ensures EvalClause(Rewritten(Clause(Texts(conds)), 0), Args(conds) + more, row) == Some(AllHold(conds, row))
    ensures Marks(Clause(Texts(conds))) == |conds| && Clean(Clause(Texts(conds)))
  {
    if conds != [] {
      var joined := Joined(Texts(conds));
      JoinedRewrites(conds, 0);
      JoinedMeans(conds, 0, Args(conds) + more, row);
      assert Clause(Texts(conds)) == " WHERE " + joined;
      hide Joined, Rewritten, Marks, EvalAll, AllHold, Clause, Texts, JoinedRewritten, Clean;
      WhereThen(joined);
      var s := " WHERE " + JoinedRewritten(conds, 0);
      assert s[7..] == JoinedRewritten(conds, 0);
    } else {
      hide AllHold;
      assert AllHold([], row) by { NothingToHold(row); }
    }
  }

  lemma NothingToHold(row: Row)
    ensures AllHold([], row)
  {
  }

  lemma WhereThen(joined: string)
    requires Clean(joined)
    ensures Rewritten(" WHERE " + joined, 0) == " WHERE " + Rewritten(joined, 0)
    ensures Marks(" WHERE " + joined) == Marks(joined) && Clean(" WHERE " + joined)
  {
    hide Rewritten, Marks;
    UnmarkedStays(" WHERE ", 0);
    RewrittenJoins(" WHERE ", joined, 0);
    CleanJoins(" WHERE ", joined);
  }
}
