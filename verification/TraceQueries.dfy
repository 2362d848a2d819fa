/**
The queries of List and ListGroups (internal/storage/postgres/trace_repo.go). The
fixed SQL around the dynamic parts (column lists, the group id, the status CASE) is a
parameter, of which only the absence of placeholders matters.
*/
module TraceQueries {
  import opened Wrappers
  import opened Text
  import opened TraceFilter

  datatype Query = Query(text: string, args: seq<Arg>)

  datatype ListFilter = ListFilter(
    projectId: string, traceId: string, userId: string, sessionId: string, model: string, status: string,
    startMs: int, endMs: int, limit: int, offset: int)

  datatype GroupFilter = GroupFilter(
    projectId: string, userId: string, sessionId: string, traceName: string, status: string, model: string,
    startMs: int, endMs: int, limit: int, offset: int)

  /** The rows that a filter asks for: every field that is set must match. */
  predicate Listed(f: ListFilter, row: Row) {
    && (f.projectId != "" ==> row.projectId == f.projectId)
    && (f.traceId != "" ==> row.traceId == f.traceId)
    && (f.userId != "" ==> row.userId == f.userId)
    && (f.sessionId != "" ==> row.sessionId == f.sessionId)
    && (f.model != "" ==> row.model == f.model)
    && (f.status != "" ==> row.status == f.status)
    && (f.startMs > 0 ==> row.createdAt >= f.startMs)
    && (f.endMs > 0 ==> row.createdAt <= f.endMs)
  }

  /** The same before grouping; the status is that of the group, in HAVING. */
  predicate Grouped(f: GroupFilter, row: Row) {
    && (f.projectId != "" ==> row.projectId == f.projectId)
    && (f.userId != "" ==> row.userId == f.userId)
    && (f.sessionId != "" ==> row.sessionId == f.sessionId)
    && (f.traceName != "" ==> row.traceName == f.traceName)
    && (f.model != "" ==> row.model == f.model)
    && (f.startMs > 0 ==> row.createdAt >= f.startMs)
    && (f.endMs > 0 ==> row.createdAt <= f.endMs)
  }

  predicate Fixed(s: string) {
    '?' !in s && '$' !in s
  }

  function Limit(limit: int): int {
    if limit <= 0 then 50 else limit
  }

  // ---------- the conditions of a filter ----------

  function When(isSet: bool, c: Cond): seq<Cond> {
    if isSet then [c] else []
  }

  function ListConds(f: ListFilter): seq<Cond> {
    When(f.projectId != "", Cond(ProjectId, Eq, Str(f.projectId))) +
    When(f.traceId != "", Cond(TraceId, Eq, Str(f.traceId))) +
    When(f.userId != "", Cond(UserId, Eq, Str(f.userId))) +
    When(f.sessionId != "", Cond(SessionId, Eq, Str(f.sessionId))) +
    When(f.model != "", Cond(Model, Eq, Str(f.model))) +
    When(f.status != "", Cond(Status, Eq, Str(f.status))) +
    When(f.startMs > 0, Cond(CreatedAt, Ge, Num(f.startMs))) +
    When(f.endMs > 0, Cond(CreatedAt, Le, Num(f.endMs)))
  }

  function GroupConds(f: GroupFilter): seq<Cond> {
    When(f.projectId != "", Cond(ProjectId, Eq, Str(f.projectId))) +
    When(f.userId != "", Cond(UserId, Eq, Str(f.userId))) +
    When(f.sessionId != "", Cond(SessionId, Eq, Str(f.sessionId))) +
    When(f.traceName != "", Cond(TraceName, Eq, Str(f.traceName))) +
    When(f.model != "", Cond(Model, Eq, Str(f.model))) +
    When(f.startMs > 0, Cond(CreatedAt, Ge, Num(f.startMs))) +
    When(f.endMs > 0, Cond(CreatedAt, Le, Num(f.endMs)))
  }

  lemma HoldJoins(a: seq<Cond>, b: seq<Cond>, row: Row)
    ensures AllHold(a + b, row) <==> AllHold(a, row) && AllHold(b, row)
  {
    hide Holds;
    assert forall i | 0 <= i < |a| :: (a + b)[i] == a[i];
    assert forall i | 0 <= i < |b| :: (a + b)[|a| + i] == b[i];
  }

  lemma AlsoHolds(conds: seq<Cond>, isSet: bool, c: Cond, row: Row)
    ensures AllHold(conds + When(isSet, c), row) <==> AllHold(conds, row) && (isSet ==> Holds(c, row))
  {
    hide Holds;
    HoldJoins(conds, When(isSet, c), row);
    assert AllHold([c], row) <==> Holds(c, row) by {
      assert [c][0] == c;
    }
  }

  lemma EachListed(f: ListFilter, row: Row)
    ensures Listed(f, row) <==>
            && (f.projectId != "" ==> Holds(Cond(ProjectId, Eq, Str(f.projectId)), row))
            && (f.traceId != "" ==> Holds(Cond(TraceId, Eq, Str(f.traceId)), row))
            && (f.userId != "" ==> Holds(Cond(UserId, Eq, Str(f.userId)), row))
            && (f.sessionId != "" ==> Holds(Cond(SessionId, Eq, Str(f.sessionId)), row))
            && (f.model != "" ==> Holds(Cond(Model, Eq, Str(f.model)), row))
            && (f.status != "" ==> Holds(Cond(Status, Eq, Str(f.status)), row))
            && (f.startMs > 0 ==> Holds(Cond(CreatedAt, Ge, Num(f.startMs)), row))
            && (f.endMs > 0 ==> Holds(Cond(CreatedAt, Le, Num(f.endMs)), row))
  {
  }

  /** The conditions say of a row what the filter asks for. */
  lemma ListCondsMean(f: ListFilter, row: Row)
    ensures AllHold(ListConds(f), row) <==> Listed(f, row)
  {
    EachListed(f, row);
    hide AllHold, When, Holds, Listed;
    var c1 := When(f.projectId != "", Cond(ProjectId, Eq, Str(f.projectId)));
    var c2 := c1 + When(f.traceId != "", Cond(TraceId, Eq, Str(f.traceId)));
    var c3 := c2 + When(f.userId != "", Cond(UserId, Eq, Str(f.userId)));
    var c4 := c3 + When(f.sessionId != "", Cond(SessionId, Eq, Str(f.sessionId)));
    var c5 := c4 + When(f.model != "", Cond(Model, Eq, Str(f.model)));
    var c6 := c5 + When(f.status != "", Cond(Status, Eq, Str(f.status)));
    var c7 := c6 + When(f.startMs > 0, Cond(CreatedAt, Ge, Num(f.startMs)));
    NothingHolds(row);
    assert [] + c1 == c1;
    AlsoHolds([], f.projectId != "", Cond(ProjectId, Eq, Str(f.projectId)), row);
    AlsoHolds(c1, f.traceId != "", Cond(TraceId, Eq, Str(f.traceId)), row);
    AlsoHolds(c2, f.userId != "", Cond(UserId, Eq, Str(f.userId)), row);
    AlsoHolds(c3, f.sessionId != "", Cond(SessionId, Eq, Str(f.sessionId)), row);
    AlsoHolds(c4, f.model != "", Cond(Model, Eq, Str(f.model)), row);
    AlsoHolds(c5, f.status != "", Cond(Status, Eq, Str(f.status)), row);
    AlsoHolds(c6, f.startMs > 0, Cond(CreatedAt, Ge, Num(f.startMs)), row);
    AlsoHolds(c7, f.endMs > 0, Cond(CreatedAt, Le, Num(f.endMs)), row);
  }

  lemma GroupCondsMean(f: GroupFilter, row: Row)
    ensures AllHold(GroupConds(f), row) <==> Grouped(f, row)
  {
    hide AllHold, When;
    var c1 := When(f.projectId != "", Cond(ProjectId, Eq, Str(f.projectId)));
    var c2 := c1 + When(f.userId != "", Cond(UserId, Eq, Str(f.userId)));
    var c3 := c2 + When(f.sessionId != "", Cond(SessionId, Eq, Str(f.sessionId)));
    var c4 := c3 + When(f.traceName != "", Cond(TraceName, Eq, Str(f.traceName)));
    var c5 := c4 + When(f.model != "", Cond(Model, Eq, Str(f.model)));
    var c6 := c5 + When(f.startMs > 0, Cond(CreatedAt, Ge, Num(f.startMs)));
    NothingHolds(row);
    assert [] + c1 == c1;
    AlsoHolds([], f.projectId != "", Cond(ProjectId, Eq, Str(f.projectId)), row);
    AlsoHolds(c1, f.userId != "", Cond(UserId, Eq, Str(f.userId)), row);
    AlsoHolds(c2, f.sessionId != "", Cond(SessionId, Eq, Str(f.sessionId)), row);
    AlsoHolds(c3, f.traceName != "", Cond(TraceName, Eq, Str(f.traceName)), row);
    AlsoHolds(c4, f.model != "", Cond(Model, Eq, Str(f.model)), row);
    AlsoHolds(c5, f.startMs > 0, Cond(CreatedAt, Ge, Num(f.startMs)), row);
    AlsoHolds(c6, f.endMs > 0, Cond(CreatedAt, Le, Num(f.endMs)), row);
  }

  lemma NothingHolds(row: Row)
    ensures AllHold([], row)
  {
  }

  // ---------- the builders ----------

  /** `where` and `args` hold `conds`. */
  ghost predicate Collected(where: seq<string>, args: seq<Arg>, conds: seq<Cond>) {
    && where == Texts(conds) && args == Args(conds)
    && forall i | 0 <= i < |conds| :: Comparable(conds[i])
  }

  /** One `if field is set` of the builders. */
  method Add(where: seq<string>, args: seq<Arg>, isSet: bool, c: Cond, ghost conds: seq<Cond>)
    returns (where': seq<string>, args': seq<Arg>)
    requires Collected(where, args, conds) && Comparable(c)
    ensures Collected(where', args', conds + When(isSet, c))
  {
    where', args' := where, args;
    if isSet {
      where', args' := where + [CondText(c)], args + [c.value];
    }
  }

  method ListWhere(f: ListFilter) returns (where: seq<string>, args: seq<Arg>)
    ensures Collected(where, args, ListConds(f))
  {
    hide Collected, When;
    NothingCollected();
    where, args := [], [];
    ghost var c0: seq<Cond> := [];
    where, args := Add(where, args, f.projectId != "", Cond(ProjectId, Eq, Str(f.projectId)), c0);
    ghost var c1 := When(f.projectId != "", Cond(ProjectId, Eq, Str(f.projectId)));
    assert c0 + c1 == c1;
    where, args := Add(where, args, f.traceId != "", Cond(TraceId, Eq, Str(f.traceId)), c1);
    ghost var c2 := c1 + When(f.traceId != "", Cond(TraceId, Eq, Str(f.traceId)));
    where, args := Add(where, args, f.userId != "", Cond(UserId, Eq, Str(f.userId)), c2);
    ghost var c3 := c2 + When(f.userId != "", Cond(UserId, Eq, Str(f.userId)));
    where, args := Add(where, args, f.sessionId != "", Cond(SessionId, Eq, Str(f.sessionId)), c3);
    ghost var c4 := c3 + When(f.sessionId != "", Cond(SessionId, Eq, Str(f.sessionId)));
    where, args := Add(where, args, f.model != "", Cond(Model, Eq, Str(f.model)), c4);
    ghost var c5 := c4 + When(f.model != "", Cond(Model, Eq, Str(f.model)));
    where, args := Add(where, args, f.status != "", Cond(Status, Eq, Str(f.status)), c5);
    ghost var c6 := c5 + When(f.status != "", Cond(Status, Eq, Str(f.status)));
    where, args := Add(where, args, f.startMs > 0, Cond(CreatedAt, Ge, Num(f.startMs)), c6);
    ghost var c7 := c6 + When(f.startMs > 0, Cond(CreatedAt, Ge, Num(f.startMs)));
    where, args := Add(where, args, f.endMs > 0, Cond(CreatedAt, Le, Num(f.endMs)), c7);
  }

  method GroupWhere(f: GroupFilter) returns (where: seq<string>, args: seq<Arg>)
    ensures Collected(where, args, GroupConds(f))
  {
    hide Collected, When;
    NothingCollected();
    where, args := [], [];
    ghost var c0: seq<Cond> := [];
    where, args := Add(where, args, f.projectId != "", Cond(ProjectId, Eq, Str(f.projectId)), c0);
    ghost var c1 := When(f.projectId != "", Cond(ProjectId, Eq, Str(f.projectId)));
    assert c0 + c1 == c1;
    where, args := Add(where, args, f.userId != "", Cond(UserId, Eq, Str(f.userId)), c1);
    ghost var c2 := c1 + When(f.userId != "", Cond(UserId, Eq, Str(f.userId)));
    where, args := Add(where, args, f.sessionId != "", Cond(SessionId, Eq, Str(f.sessionId)), c2);
    ghost var c3 := c2 + When(f.sessionId != "", Cond(SessionId, Eq, Str(f.sessionId)));
    where, args := Add(where, args, f.traceName != "", Cond(TraceName, Eq, Str(f.traceName)), c3);
    ghost var c4 := c3 + When(f.traceName != "", Cond(TraceName, Eq, Str(f.traceName)));
    where, args := Add(where, args, f.model != "", Cond(Model, Eq, Str(f.model)), c4);
    ghost var c5 := c4 + When(f.model != "", Cond(Model, Eq, Str(f.model)));
    where, args := Add(where, args, f.startMs > 0, Cond(CreatedAt, Ge, Num(f.startMs)), c5);
    ghost var c6 := c5 + When(f.startMs > 0, Cond(CreatedAt, Ge, Num(f.startMs)));
    where, args := Add(where, args, f.endMs > 0, Cond(CreatedAt, Le, Num(f.endMs)), c6);
  }

  lemma NothingCollected()
    ensures Collected([], [], [])
  {
  }

  // ---------- putting queries together ----------

  /** Text under construction whose placeholders number `count` so far. */
  ghost predicate Built(q: string, pg: string, count: nat) {
    Clean(q) && Marks(q) == count && Rewritten(q, 0) == pg
  }

  lemma Start(fixed: string)
    requires Fixed(fixed)
    ensures Built(fixed, fixed, 0)
  {
    UnmarkedStays(fixed, 0);
  }

  lemma Attach(q: string, pg: string, count: nat, part: string)
    requires Built(q, pg, count) && Clean(part) && (part != "" ==> !IsDigit(part[0]))
    ensures Built(q + part, pg + Rewritten(part, count), count + Marks(part))
  {
    RewrittenJoins(q, part, 0);
    CleanJoins(q, part);
  }

  lemma AttachFixed(q: string, pg: string, count: nat, part: string)
    requires Built(q, pg, count) && Fixed(part) && part != "" && !IsDigit(part[0])
    ensures Built(q + part, pg + part, count)
  {
    Attach(q, pg, count, part);
    UnmarkedStays(part, count);
  }

  /** A fixed text with one placeholder at its end. */
  lemma AttachMarked(q: string, pg: string, count: nat, part: string)
    requires Built(q, pg, count) && Fixed(part) && part != "" && !IsDigit(part[0])
    ensures Built(q + (part + "?"), pg + (part + "$" + Dec(count + 1)), count + 1)
  {
    UnmarkedStays(part, count);
    RewrittenJoins(part, "?", count);
    MarkAlone(count);
    CleanJoins(part, "?");
    Attach(q, pg, count, part + "?");
    assert part + ("$" + Dec(count + 1)) == part + "$" + Dec(count + 1);
  }

  /** The finished query has one placeholder for each argument. */
  ghost predicate WellBound(q: Query) {
    Placeholders(q.text) == Numbers(1, |q.args|)
  }

  lemma Finish(q: string, pg: string, args: seq<Arg>)
    requires Built(q, pg, |args|)
    ensures Rewritten(q, 0) == pg && WellBound(Query(pg, args))
  {
    PlaceholdersCount(q, 0);
  }

  lemma ClauseIsFirst(where: seq<string>, args: seq<Arg>, conds: seq<Cond>, head: string)
    requires Collected(where, args, conds) && Fixed(head)
    ensures Built(head + Clause(where), head + Rewritten(Clause(where), 0), |args|)
  {
    Start(head);
    ClauseMeans(conds, [], Row("", "", "", "", "", "", "", 0));
    hide Rewritten, Marks, Clean;
    assert Clause(where) != "" ==> Clause(where)[0] == ' ';
    Attach(head, head, 0, Clause(where));
  }

  /** The WHERE text decides rows as `wanted` does, whatever arguments follow its own. */
  ghost predicate Selects(clause: string, args: seq<Arg>, wanted: Row -> bool) {
    forall row: Row :: EvalClause(clause, args, row) == Some(wanted(row))
  }

  lemma ClauseSelects(where: seq<string>, args: seq<Arg>, conds: seq<Cond>, more: seq<Arg>, wanted: Row -> bool)
    requires Collected(where, args, conds) && forall row: Row :: AllHold(conds, row) <==> wanted(row)
    ensures Selects(Rewritten(Clause(where), 0), args + more, wanted)
  {
    forall row: Row ensures EvalClause(Rewritten(Clause(where), 0), args + more, row) == Some(wanted(row)) {
      ClauseMeans(conds, more, row);
    }
  }

  function PageText(head: string, clause: string, upTo: string, n: nat): string {
    head + clause + upTo + ("$" + Dec(n + 1) + " OFFSET $" + Dec(n + 2))
  }

  /** LIMIT and OFFSET take the two placeholders after the `count` in use. */
  lemma Paging(q: string, head: string, clause: string, upTo: string, count: nat)
    requires Built(q, head + clause, count) && Fixed(upTo) && upTo != "" && !IsDigit(upTo[0])
    ensures Built(q + upTo + "? OFFSET ?", PageText(head, clause, upTo, count), count + 2)
  {
    var pg := head + clause;
    hide Built, Dec;
    AttachMarked(q, pg, count, upTo);
    var q1, pg1 := q + (upTo + "?"), pg + (upTo + "$" + Dec(count + 1));
    AttachMarked(q1, pg1, count + 1, " OFFSET ");
    assert q1 + (" OFFSET " + "?") == q + upTo + "? OFFSET ?";
    assert pg1 + (" OFFSET " + "$" + Dec(count + 2)) ==
           pg + upTo + ("$" + Dec(count + 1) + " OFFSET $" + Dec(count + 2));
  }

  const COUNT_ROWS := "SELECT COUNT(1) FROM traces"

  function Newest(traceId: string): string {
    " ORDER BY created_at " + (if traceId != "" then "ASC" else "DESC") + " LIMIT "
  }

  /** The WHERE text of some conditions, as Postgres gets it. */
  function Where(conds: seq<Cond>): string {
    Rewritten(Clause(Texts(conds)), 0)
  }

  /** What the count and the page query are. */
  ghost predicate ListQueries(f: ListFilter, cols: string, count: Query, page: Query) {
    var clause := Where(ListConds(f));
    && count.text == COUNT_ROWS + clause
    && page.text == PageText("SELECT " + cols + " FROM traces", clause, Newest(f.traceId), |count.args|)
    && page.args == count.args + [Num(Limit(f.limit)), Num(f.offset)]
    && Selects(clause, count.args, row => Listed(f, row)) && Selects(clause, page.args, row => Listed(f, row))
    && WellBound(count) && WellBound(page)
  }

  /** The two queries, written out. */
  lemma ListReads(f: ListFilter, cols: string, count: Query, page: Query)
    requires ListQueries(f, cols, count, page)
    ensures var clause, n := Where(ListConds(f)), |count.args|;
            && count.text == "SELECT COUNT(1) FROM traces" + clause
            && page.text == "SELECT " + cols + " FROM traces" + clause +
                            (" ORDER BY created_at " + (if f.traceId == "" then "DESC" else "ASC") + " LIMIT ") +
                            ("$" + Dec(n + 1) + " OFFSET $" + Dec(n + 2))
            && page.args == count.args + [Num(if f.limit > 0 then f.limit else 50), Num(f.offset)]
  {
    hide Where, ListConds, Dec, Selects, WellBound, Listed;
  }

  /** Both queries accept exactly the rows that match every set field, and every argument
      has its placeholder; LIMIT and OFFSET take the last two. */
  method List(f: ListFilter, cols: string) returns (count: Query, page: Query)
    requires Fixed(cols)
    ensures ListQueries(f, cols, count, page)
    ensures var clause, n := Where(ListConds(f)), |count.args|;
            && count.text == "SELECT COUNT(1) FROM traces" + clause
            && page.text == "SELECT " + cols + " FROM traces" + clause +
                            (" ORDER BY created_at " + (if f.traceId == "" then "DESC" else "ASC") + " LIMIT ") +
                            ("$" + Dec(n + 1) + " OFFSET $" + Dec(n + 2))
            && page.args == count.args + [Num(if f.limit > 0 then f.limit else 50), Num(f.offset)]
  {
    var where, args := ListWhere(f);
    ghost var conds := ListConds(f);
    assert where == Texts(conds);
    hide Rewritten, Clause, Collected, AllHold, Listed, Selects, WellBound, Dec, PageText, Fixed, ListConds, Texts;
    var whereText := Clause(where);

    var countText := ToPg(COUNT_ROWS + whereText);
    count := Query(countText, args);

    var limit := f.limit;
    if limit <= 0 {
      limit := 50;
    }
    var order := "DESC";
    if f.traceId != "" {
      order := "ASC";
    }
    var head, upTo := "SELECT " + cols + " FROM traces", " ORDER BY created_at " + order + " LIMIT ";
    var pageText := ToPg(head + whereText + upTo + "? OFFSET ?");
    page := Query(pageText, args + [Num(limit), Num(f.offset)]);

    FixedParts(cols, f.traceId);
    CountText(where, args, conds, COUNT_ROWS);
    PageTextIs(where, args, conds, head, upTo, [Num(limit), Num(f.offset)]);
    ListSelects(where, args, f, [Num(limit), Num(f.offset)]);
    ListReads(f, cols, count, page);
  }

  lemma FixedParts(cols: string, traceId: string)
    requires Fixed(cols)
    ensures Fixed(COUNT_ROWS) && Fixed("SELECT " + cols + " FROM traces")
    ensures Fixed(Newest(traceId)) && Newest(traceId) != "" && !IsDigit(Newest(traceId)[0])
  {
    assert Newest(traceId)[0] == ' ';
  }

  lemma CountText(where: seq<string>, args: seq<Arg>, conds: seq<Cond>, head: string)
    requires Collected(where, args, conds) && Fixed(head)
    ensures Rewritten(head + Clause(where), 0) == head + Rewritten(Clause(where), 0)
    ensures WellBound(Query(head + Rewritten(Clause(where), 0), args))
  {
    hide *;
    ClauseIsFirst(where, args, conds, head);
    Finish(head + Clause(where), head + Rewritten(Clause(where), 0), args);
  }

  lemma PageTextIs(where: seq<string>, args: seq<Arg>, conds: seq<Cond>, head: string, upTo: string, more: seq<Arg>)
    requires Collected(where, args, conds) && Fixed(head) && |more| == 2
    requires Fixed(upTo) && upTo != "" && !IsDigit(upTo[0])
    ensures var page := PageText(head, Rewritten(Clause(where), 0), upTo, |args|);
            && Rewritten(head + Clause(where) + upTo + "? OFFSET ?", 0) == page
            && WellBound(Query(page, args + more))
  {
    hide *;
    var clause := Rewritten(Clause(where), 0);
    ClauseIsFirst(where, args, conds, head);
    Paging(head + Clause(where), head, clause, upTo, |args|);
    Finish(head + Clause(where) + upTo + "? OFFSET ?", PageText(head, clause, upTo, |args|), args + more);
  }

  lemma ListSelects(where: seq<string>, args: seq<Arg>, f: ListFilter, more: seq<Arg>)
    requires Collected(where, args, ListConds(f))
    ensures Selects(Rewritten(Clause(where), 0), args, row => Listed(f, row))
    ensures Selects(Rewritten(Clause(where), 0), args + more, row => Listed(f, row))
  {
    hide Collected, AllHold, Listed, Rewritten, Clause, Selects, ListConds;
    forall row: Row ensures AllHold(ListConds(f), row) <==> Listed(f, row) {
      ListCondsMean(f, row);
    }
    ClauseSelects(where, args, ListConds(f), [], row => Listed(f, row));
    ClauseSelects(where, args, ListConds(f), more, row => Listed(f, row));
    assert args + [] == args;
  }

  // ---------- groups ----------

  /** The fixed parts of the group queries: all before the WHERE text, and the status CASE. */
  datatype GroupSql = GroupSql(countHead: string, pageHead: string, statusCase: string)

  const GROUP_BY := " GROUP BY gid"
  const GROUP_BY_LINE := "\n\t\tGROUP BY gid"
  const COUNT_TAIL := ") AS g"
  const LATEST := "\n\t\tORDER BY started_at DESC\n\t\tLIMIT "

  predicate FixedSql(sql: GroupSql) {
    Fixed(sql.countHead) && Fixed(sql.pageHead) && Fixed(sql.statusCase)
  }

  function HavingText(sql: GroupSql, status: string): string {
    if status == "" then "" else " HAVING " + sql.statusCase + " = " + "?"
  }

  /** HAVING takes the placeholder after those of the WHERE text, if there is a status. */
  function Having(sql: GroupSql, status: string, n: nat): string {
    if status == "" then "" else " HAVING " + sql.statusCase + " = " + "$" + Dec(n + 1)
  }

  function StatusArgs(status: string): seq<Arg> {
    if status == "" then [] else [Str(status)]
  }

  /** The arguments of the WHERE text come first, then the status, then the page. */
  ghost predicate GroupQueries(f: GroupFilter, sql: GroupSql, count: Query, page: Query) {
    var clause, where := Where(GroupConds(f)), Args(GroupConds(f));
    var having := Having(sql, f.status, |where|);
    && count.text == sql.countHead + clause + GROUP_BY + having + COUNT_TAIL
    && page.text == PageText(sql.pageHead + clause + GROUP_BY_LINE, having, LATEST, |count.args|)
    && count.args == where + StatusArgs(f.status)
    && page.args == count.args + [Num(Limit(f.limit)), Num(f.offset)]
    && Selects(clause, count.args, row => Grouped(f, row)) && Selects(clause, page.args, row => Grouped(f, row))
    && WellBound(count) && WellBound(page)
  }

  lemma FixedGroupParts()
    ensures Fixed(GROUP_BY) && GROUP_BY != "" && !IsDigit(GROUP_BY[0])
    ensures Fixed(GROUP_BY_LINE) && GROUP_BY_LINE != "" && !IsDigit(GROUP_BY_LINE[0])
    ensures Fixed(COUNT_TAIL) && COUNT_TAIL != "" && !IsDigit(COUNT_TAIL[0])
  {
  }

  lemma FixedOrder()
    ensures Fixed(LATEST) && LATEST != "" && !IsDigit(LATEST[0])
  {
  }

  lemma AttachHaving(q: string, pg: string, where: seq<Arg>, sql: GroupSql, status: string)
    requires Built(q, pg, |where|) && FixedSql(sql)
    ensures Built(q + HavingText(sql, status), pg + Having(sql, status, |where|), |where + StatusArgs(status)|)
  {
    var part := " HAVING " + sql.statusCase + " = ";
    hide Built, Dec;
    if status == "" {
      assert q + "" == q && pg + "" == pg;
    } else {
      assert part[0] == ' ' && Fixed(part);
      AttachMarked(q, pg, |where|, part);
    }
  }

  /** Up to and with HAVING, which both queries share but for the layout before it. */
  lemma GroupHead(where: seq<string>, args: seq<Arg>, conds: seq<Cond>, head: string, groupBy: string, sql: GroupSql, status: string)
    requires Collected(where, args, conds) && Fixed(head) && FixedSql(sql)
    requires Fixed(groupBy) && groupBy != "" && !IsDigit(groupBy[0])
    ensures Built(head + Clause(where) + groupBy + HavingText(sql, status),
                  head + Rewritten(Clause(where), 0) + groupBy + Having(sql, status, |args|), |args + StatusArgs(status)|)
  {
    hide *;
    var clause := Rewritten(Clause(where), 0);
    ClauseIsFirst(where, args, conds, head);
    AttachFixed(head + Clause(where), head + clause, |args|, groupBy);
    AttachHaving(head + Clause(where) + groupBy, head + clause + groupBy, args, sql, status);
  }

  lemma GroupTexts(where: seq<string>, args: seq<Arg>, conds: seq<Cond>, sql: GroupSql, status: string, more: seq<Arg>)
    requires Collected(where, args, conds) && FixedSql(sql) && |more| == 2
    ensures var clause, having := Rewritten(Clause(where), 0), Having(sql, status, |args|);
            var count := sql.countHead + clause + GROUP_BY + having + COUNT_TAIL;
            var page := PageText(sql.pageHead + clause + GROUP_BY_LINE, having, LATEST, |args + StatusArgs(status)|);
            && Rewritten(sql.countHead + Clause(where) + GROUP_BY + HavingText(sql, status) + COUNT_TAIL, 0) == count
            && Rewritten(sql.pageHead + Clause(where) + GROUP_BY_LINE + HavingText(sql, status) + LATEST + "? OFFSET ?", 0) == page
            && WellBound(Query(count, args + StatusArgs(status)))
            && WellBound(Query(page, args + StatusArgs(status) + more))
  {
    FixedGroupParts();
    FixedOrder();
    assert Fixed(sql.countHead) && Fixed(sql.pageHead);
    hide *;
    var clause, having, bound := Rewritten(Clause(where), 0), Having(sql, status, |args|), args + StatusArgs(status);
    GroupHead(where, args, conds, sql.countHead, GROUP_BY, sql, status);
    var q1 := sql.countHead + Clause(where) + GROUP_BY + HavingText(sql, status);
    AttachFixed(q1, sql.countHead + clause + GROUP_BY + having, |bound|, COUNT_TAIL);
    Finish(q1 + COUNT_TAIL, sql.countHead + clause + GROUP_BY + having + COUNT_TAIL, bound);
    GroupHead(where, args, conds, sql.pageHead, GROUP_BY_LINE, sql, status);
    var q2, head := sql.pageHead + Clause(where) + GROUP_BY_LINE + HavingText(sql, status), sql.pageHead + clause + GROUP_BY_LINE;
    Paging(q2, head, having, LATEST, |bound|);
    Finish(q2 + LATEST + "? OFFSET ?", PageText(head, having, LATEST, |bound|), bound + more);
  }

  lemma GroupSelects(where: seq<string>, args: seq<Arg>, f: GroupFilter, status: seq<Arg>, more: seq<Arg>)
    requires Collected(where, args, GroupConds(f))
    ensures Selects(Rewritten(Clause(where), 0), args + status, row => Grouped(f, row))
    ensures Selects(Rewritten(Clause(where), 0), args + status + more, row => Grouped(f, row))
  {
    hide Collected, AllHold, Grouped, Rewritten, Clause, Selects, GroupConds;
    forall row: Row ensures AllHold(GroupConds(f), row) <==> Grouped(f, row) {
      GroupCondsMean(f, row);
    }
    ClauseSelects(where, args, GroupConds(f), status, row => Grouped(f, row));
    ClauseSelects(where, args, GroupConds(f), status + more, row => Grouped(f, row));
    assert args + (status + more) == args + status + more;
  }

  method HavingStatus(status: string, sql: GroupSql) returns (having: string, havingArgs: seq<Arg>)
    ensures having == HavingText(sql, status) && havingArgs == StatusArgs(status)
  {
    having, havingArgs := "", [];
    if status != "" {
      having := " HAVING " + sql.statusCase + " = " + "?";
      havingArgs := [Str(status)];
    }
  }

  /** The WHERE text accepts exactly the rows that match every set field but the status,
      which is bound in HAVING; every argument of both queries has its placeholder. */
  method ListGroups(f: GroupFilter, sql: GroupSql) returns (count: Query, page: Query)
    requires FixedSql(sql)
    ensures GroupQueries(f, sql, count, page)
    ensures var clause, where := Where(GroupConds(f)), Args(GroupConds(f));
            var having := if f.status == "" then "" else " HAVING " + sql.statusCase + " = " + "$" + Dec(|where| + 1);
            && count.text == sql.countHead + clause + " GROUP BY gid" + having + ") AS g"
            && page.text == sql.pageHead + clause + "\n\t\tGROUP BY gid" + having + "\n\t\tORDER BY started_at DESC\n\t\tLIMIT " +
                            ("$" + Dec(|count.args| + 1) + " OFFSET $" + Dec(|count.args| + 2))
            && count.args == where + (if f.status == "" then [] else [Str(f.status)])
            && page.args == count.args + [Num(if f.limit > 0 then f.limit else 50), Num(f.offset)]
  {
    var where, args := GroupWhere(f);
    ghost var conds := GroupConds(f);
    assert where == Texts(conds) && args == Args(conds);
    hide Rewritten, Clause, Collected, AllHold, Grouped, Selects, WellBound, Dec, PageText, FixedSql, Having, HavingText, StatusArgs, GroupConds, Texts, Args;
    var whereText := Clause(where);

    var having, havingArgs := HavingStatus(f.status, sql);
    var countText := ToPg(sql.countHead + whereText + GROUP_BY + having + COUNT_TAIL);
    count := Query(countText, args + havingArgs);

    var limit := f.limit;
    if limit <= 0 {
      limit := 50;
    }
    var pageText := ToPg(sql.pageHead + whereText + GROUP_BY_LINE + having + LATEST + "? OFFSET ?");
    page := Query(pageText, args + havingArgs + [Num(limit), Num(f.offset)]);

    GroupTexts(where, args, conds, sql, f.status, [Num(limit), Num(f.offset)]);
    GroupSelects(where, args, f, havingArgs, [Num(limit), Num(f.offset)]);
  }
}
