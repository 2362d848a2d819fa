/**
Which groups the query of ListGroups returns (internal/storage/postgres/trace_repo.go):
the rows that pass WHERE are grouped, and HAVING compares the worst status of those.
*/
module TraceGroups {
  import opened TraceFilter
  import opened TraceQueries

  datatype Span = Span(id: string, row: Row)

  /** The group id: a span without a trace id is a group of its own. */
  function GroupId(s: Span): string {
    if s.row.traceId != "" then s.row.traceId else s.id
  }

  function Severity(s: Span): (r: nat)
    ensures 1 <= r <= 3
  {
    if s.row.status == "error" then 3 else if s.row.status == "aborted" then 2 else 1
  }

  function Worst(spans: seq<Span>): nat {
    if spans == [] then 0
    else
      var before, last := Worst(spans[..|spans| - 1]), Severity(spans[|spans| - 1]);
      if last > before then last else before
  }

  /** The outer CASE. */
  function StatusOf(spans: seq<Span>): string {
    if Worst(spans) == 3 then "error" else if Worst(spans) == 2 then "aborted" else "success"
  }

  /** The spans of one group that pass WHERE. */
  function Members(table: seq<Span>, f: GroupFilter, gid: string): seq<Span> {
    if table == [] then []
    else
      var s := table[|table| - 1];
      Members(table[..|table| - 1], f, gid) + (if GroupId(s) == gid && Grouped(f, s.row) then [s] else [])
  }

  /** GROUP BY makes a group of the rows there are, HAVING compares its status. */
  predicate Returned(table: seq<Span>, f: GroupFilter, gid: string) {
    var spans := Members(table, f, gid);
    spans != [] && (f.status != "" ==> StatusOf(spans) == f.status)
  }

  /** The same filter without the model. */
  function AnyModel(f: GroupFilter): GroupFilter {
    f.(model := "")
  }

  /** The filter as it is described: a model matches if any span of the group has it, and
      the status is the worst of the group's spans. */
  ghost predicate Described(table: seq<Span>, f: GroupFilter, gid: string) {
    var spans := Members(table, AnyModel(f), gid);
    && (exists s <- spans :: f.model != "" ==> s.row.model == f.model)
    && (f.status != "" ==> StatusOf(spans) == f.status)
  }

  lemma {:induction false} MembersAre(table: seq<Span>, f: GroupFilter, gid: string, s: Span)
    ensures s in Members(table, f, gid) <==> s in table && GroupId(s) == gid && Grouped(f, s.row)
  {
    if table != [] {
      var n := |table| - 1;
      MembersAre(table[..n], f, gid, s);
      hide Grouped, GroupId;
      assert table == table[..n] + [table[n]];
    }
  }

  // The worst severity is that of some span, and no span's is worse.

  lemma {:induction false} WorstIsReached(spans: seq<Span>) returns (s: Span)
    requires spans != []
    ensures s in spans && Severity(s) == Worst(spans)
  {
    var n := |spans| - 1;
    s := spans[n];
    if n > 0 && Severity(s) <= Worst(spans[..n]) {
      s := WorstIsReached(spans[..n]);
    }
  }

  lemma {:induction false} WorstIsBound(spans: seq<Span>, s: Span)
    requires s in spans
    ensures Severity(s) <= Worst(spans)
  {
    var n := |spans| - 1;
    if s != spans[n] {
      assert spans == spans[..n] + [spans[n]];
      WorstIsBound(spans[..n], s);
    }
  }

  /** The spans that pass are some of those that pass without the model, so the status is
      that of a part of the group, and never a worse one. */
  lemma PartOfGroup(table: seq<Span>, f: GroupFilter, gid: string)
    ensures forall s <- Members(table, f, gid) :: s in Members(table, AnyModel(f), gid)
    ensures Members(table, f, gid) != [] <==>
            exists s <- Members(table, AnyModel(f), gid) :: f.model != "" ==> s.row.model == f.model
    ensures Worst(Members(table, f, gid)) <= Worst(Members(table, AnyModel(f), gid))
  {
    var part, whole := Members(table, f, gid), Members(table, AnyModel(f), gid);
    forall s: Span
      ensures s in part <==> s in whole && (f.model != "" ==> s.row.model == f.model)
    {
      MembersAre(table, f, gid, s);
      MembersAre(table, AnyModel(f), gid, s);
    }
    hide Members, Severity, Worst;
    if part != [] {
      assert part[0] in whole;
      var s := WorstIsReached(part);
      WorstIsBound(whole, s);
    } else {
      assert Worst(part) == 0 by { NoneIsZero(); }
    }
  }

  lemma NoneIsZero()
    ensures Worst([]) == 0
  {
  }

  lemma StatusTells(a: seq<Span>, b: seq<Span>)
    requires a != [] && b != []
    ensures StatusOf(a) == StatusOf(b) <==> Worst(a) == Worst(b)
  {
    var s := WorstIsReached(a);
    var t := WorstIsReached(b);
    hide Worst, Severity;
  }

  /** A group has failed if any of its spans has, else it was aborted if any was, and else it
      is a success. */
  lemma StatusIsWorst(spans: seq<Span>)
    requires spans != []
    ensures StatusOf(spans) == "error" <==> exists s <- spans :: s.row.status == "error"
    ensures StatusOf(spans) == "aborted" <==>
            (exists s <- spans :: s.row.status == "aborted") && forall s <- spans :: s.row.status != "error"
    ensures StatusOf(spans) == "success" <==> forall s <- spans :: s.row.status != "error" && s.row.status != "aborted"
  {
    var worst := WorstIsReached(spans);
    forall s | s in spans ensures Severity(s) <= Worst(spans) {
      WorstIsBound(spans, s);
    }
    hide Worst;
  }

  /** Filtering by model narrows the spans that a group's status is taken from. So a group
      is returned as described unless a status is asked for, the group has spans of the
      model whose worst status is less than the group's, and it is one of these two that
      is asked for. */
  lemma ReturnedIffDescribed(table: seq<Span>, f: GroupFilter, gid: string)
    ensures var part, whole := Members(table, f, gid), Members(table, AnyModel(f), gid);
            (Returned(table, f, gid) <==> Described(table, f, gid))
            <==> !(part != [] && f.status in {StatusOf(part), StatusOf(whole)} && Worst(part) < Worst(whole))
  {
    var part, whole := Members(table, f, gid), Members(table, AnyModel(f), gid);
    PartOfGroup(table, f, gid);
    if part != [] {
      StatusTells(part, whole);
    }
    hide Members, Worst;
  }

  /** So the failure of a call to another model hides the group from a search for failures
      of traces that use this model. */
  lemma FailureOfAnotherModelIsMissed(table: seq<Span>, f: GroupFilter, gid: string, other: Span)
    requires f.status == "error" && Members(table, f, gid) != []
    requires forall s <- Members(table, f, gid) :: s.row.status != "error"
    requires other in Members(table, AnyModel(f), gid) && other.row.status == "error"
    ensures Described(table, f, gid) && !Returned(table, f, gid)
  {
    var part, whole := Members(table, f, gid), Members(table, AnyModel(f), gid);
    PartOfGroup(table, f, gid);
    WorstIsBound(whole, other);
    var s := WorstIsReached(part);
    var t := WorstIsReached(whole);
  }
}
