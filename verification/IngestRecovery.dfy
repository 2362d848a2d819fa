/**
The other half: after an outage, an entry whose block has a route is acknowledged in some
run without deletions. So the entries without a route are exactly those that are lost.
*/
module IngestRecovery {
  import opened Ingest
  import opened IngestLimits
  import opened Blocks
  import opened IngestOutage

  /** The blocks are the pending list. */
  ghost predicate Covers(c: Config, s: State, bs: seq<seq<EntryId>>) {
    && Blocked(bs, c.batchSize, s.next)
    && (forall id: EntryId :: id in s.pending <==> InSome(bs, id))
    && (forall j, p | 0 <= j < |bs| && 0 <= p < |bs[j]| :: bs[j][p] in s.pending)
  }

  // ---------- claiming block after block ----------

  function FirstBlocks(bs: seq<seq<EntryId>>, m: nat): set<EntryId>
    requires m <= |bs|
  {
    if m == 0 then {} else FirstBlocks(bs, m - 1) + IdSet(bs[m - 1])
  }

  function Refreshed(s: State, done: set<EntryId>): State {
    s.(pending := map id | id in s.pending :: if id in done then Delivery(0, s.now) else s.pending[id])
  }

  lemma {:induction false} InFirstBlocks(bs: seq<seq<EntryId>>, k: nat, n: nat, m: nat, j: nat, p: nat)
    requires Blocked(bs, k, n) && m <= |bs| && j < |bs| && p < |bs[j]|
    ensures bs[j][p] in FirstBlocks(bs, m) <==> j < m
  {
    if m > 0 {
      InFirstBlocks(bs, k, n, m - 1, j, p);
      hide FirstBlocks;
      if bs[j][p] in IdSet(bs[m - 1]) {
        var r :| 0 <= r < |bs[m - 1]| && bs[m - 1][r] == bs[j][p];
        Locate(bs, k, n, m - 1, r, j, p);
      }
    }
  }

  lemma {:induction false} PresentCount(ids: set<EntryId>, bs: seq<seq<EntryId>>, k: nat, n: nat, from: nat, to: nat, j: nat)
    requires Blocked(bs, k, n) && j <= |bs|
    requires forall i | 0 <= i < |bs| :: Present(ids, bs, i) <==> from <= i < to
    ensures from == 0 && j <= to ==> PresentBelow(ids, bs, j) == j
    ensures from == 0 && to < j ==> PresentBelow(ids, bs, j) == to
    ensures j <= from ==> PresentBelow(ids, bs, j) == 0
    ensures from < j && from < to ==> PresentBelow(ids, bs, j) >= 1
  {
    if j > 0 {
      PresentCount(ids, bs, k, n, from, to, j - 1);
      hide Blocked, Present;
    }
  }

  /** After `m` claims at the same moment, the next one takes the next block. */
  lemma ClaimedInOrder(c: Config, s: State, bs: seq<seq<EntryId>>, m: nat)
    requires 1 <= c.batchSize && 1 <= c.minIdle && Accounted(s) && Outage(c, s) && Covers(c, s, bs)
    requires m < |bs| && m < SCAN
    ensures ClaimedIds(c, Refreshed(s, FirstBlocks(bs, m))) == bs[m]
    ensures s.batches == map[]
  {
    var t := Refreshed(s, FirstBlocks(bs, m));
    assert t.pending.Keys == s.pending.Keys;
    var window := Lowest(t.pending.Keys, SCAN * c.batchSize);
    forall j: nat, p: nat | j < |bs| && p < |bs[j]| ensures bs[j][p] in Idle(c, t, window) <==> m <= j < SCAN {
      InWindow(c, s, bs, m, j, p);
    }
    assert Idle(c, t, window) <= t.pending.Keys;
    hide Accounted, Outage, Refreshed, FirstBlocks, Idle;
    LowestIdle(c, t, Idle(c, t, window), bs, m);
  }

  lemma WindowIs(ids: set<EntryId>, bs: seq<seq<EntryId>>, k: nat, n: nat, j: nat, p: nat)
    requires Blocked(bs, k, n) && Whole(ids, bs, n) && j < |bs| && p < |bs[j]|
    requires forall i | 0 <= i < |bs| :: Present(ids, bs, i)
    ensures bs[j][p] in Lowest(ids, SCAN * k) <==> j < SCAN
  {
    PresentCount(ids, bs, k, n, 0, |bs|, j);
    LowestBlocks(ids, bs, k, n, SCAN, j, p);
    hide Blocked, Whole, Ascending, Lowest;
  }

  lemma AllPresent(c: Config, s: State, bs: seq<seq<EntryId>>)
    requires Covers(c, s, bs)
    ensures forall i | 0 <= i < |bs| :: Present(s.pending.Keys, bs, i)
  {
  }

  lemma InWindow(c: Config, s: State, bs: seq<seq<EntryId>>, m: nat, j: nat, p: nat)
    requires 1 <= c.minIdle && Outage(c, s) && Covers(c, s, bs)
    requires m < |bs| && m < SCAN && j < |bs| && p < |bs[j]|
    ensures var t := Refreshed(s, FirstBlocks(bs, m));
            bs[j][p] in Idle(c, t, Lowest(t.pending.Keys, SCAN * c.batchSize)) <==> m <= j < SCAN
  {
    var t := Refreshed(s, FirstBlocks(bs, m));
    assert t.pending.Keys == s.pending.Keys && bs[j][p] in s.pending;
    InFirstBlocks(bs, c.batchSize, s.next, m, j, p);
    AllPresent(c, s, bs);
    WholeAtOutage(c, s, bs);
    hide Present, Whole, FirstBlocks, Lowest;
    WindowIs(s.pending.Keys, bs, c.batchSize, s.next, j, p);
    hide Covers;
  }

  lemma LowestIdle(c: Config, t: State, idle: set<EntryId>, bs: seq<seq<EntryId>>, m: nat)
    requires Blocked(bs, c.batchSize, t.next) && m < |bs| && m < SCAN
    requires idle == Idle(c, t, Lowest(t.pending.Keys, SCAN * c.batchSize))
    requires forall id <- idle :: InSome(bs, id)
    requires forall j: nat, p: nat | j < |bs| && p < |bs[j]| :: bs[j][p] in idle <==> m <= j < SCAN
    ensures ClaimedIds(c, t) == bs[m]
  {
    assert Whole(idle, bs, t.next);
    assert forall i | 0 <= i < |bs| :: Present(idle, bs, i) <==> m <= i < SCAN;
    var taken := Lowest(idle, 1 * c.batchSize);
    forall j: nat, p: nat | j < |bs| && p < |bs[j]| ensures bs[j][p] in taken <==> j == m {
      hide Whole, Present, Ascending, Lowest;
      PresentCount(idle, bs, c.batchSize, t.next, m, SCAN, j);
      LowestBlocks(idle, bs, c.batchSize, t.next, 1, j, p);
    }
    assert 1 * c.batchSize == c.batchSize && taken == Claimable(c, t);
    assert taken <= idle;
    hide Whole, Present, Lowest, Idle, Claimable;
    OnlyBlock(bs, c.batchSize, t.next, taken, m);
  }

  lemma OnlyBlock(bs: seq<seq<EntryId>>, k: nat, n: nat, taken: set<EntryId>, m: nat)
    requires Blocked(bs, k, n) && m < |bs| && forall id <- taken :: InSome(bs, id)
    requires forall j: nat, p: nat | j < |bs| && p < |bs[j]| :: bs[j][p] in taken <==> j == m
    ensures Ascending(taken, n) == bs[m]
  {
    var all := Ascending(taken, n);
    forall id: EntryId ensures id in all <==> id in bs[m] {
      if id in all {
        assert id in taken;
        var j, p :| At(bs, id, j, p);
        assert j == m;
      }
      if id in bs[m] {
        var p :| 0 <= p < |bs[m]| && bs[m][p] == id;
        assert id in taken && id < n;
      }
    }
    SameAscending(all, bs[m]);
  }

  /** A run without deletions from `from` that ends in `s`. */
  ghost predicate Leads(c: Config, from: State, steps: seq<Step>, s: State) {
    Legal(c, from, steps) && NoDeletions(steps) && Run(c, from, steps) == s
  }

  lemma Go(c: Config, from: State, steps: seq<Step>, s: State, step: Step) returns (steps': seq<Step>, s': State)
    requires Leads(c, from, steps, s) && Enabled(c, s, step) && !step.DeleteRows?
    ensures s' == Apply(c, s, step) && Leads(c, from, steps', s')
  {
    hide Enabled, Apply;
    steps', s' := Extend(c, from, steps, s, step);
  }

  lemma Wait(c: Config, from: State, steps: seq<Step>, s: State, elapsed: nat) returns (steps': seq<Step>, s': State)
    requires Leads(c, from, steps, s)
    ensures s' == s.(now := s.now + elapsed) && Leads(c, from, steps', s')
  {
    hide Leads;
    steps', s' := Go(c, from, steps, s, Tick(elapsed));
  }

  lemma ClaimThem(c: Config, from: State, steps: seq<Step>, s: State, ids: seq<EntryId>, replyLost: bool)
    returns (steps': seq<Step>)
    requires Leads(c, from, steps, s) && ClaimedIds(c, s) == ids && ids != [] && s.batches == map[]
    ensures Leads(c, from, steps', s.(pending := s.pending + Owners(ids, 0, s.now),
                    batches := if replyLost then map[] else map[0 := Batch(0, s.now, ids, Received)]))
  {
    hide ClaimedIds, Leads;
    var t: State;
    steps', t := Go(c, from, steps, s, Claim(0, 0, replyLost));
  }

  /** Claims whose replies are lost: the first `m` blocks are idle no longer. */
  lemma {:induction false} ClaimFirst(c: Config, from: State, steps: seq<Step>, s: State, bs: seq<seq<EntryId>>, m: nat)
    returns (steps': seq<Step>)
    requires 1 <= c.batchSize && 1 <= c.minIdle && Accounted(s) && Outage(c, s) && Covers(c, s, bs)
    requires m <= |bs| && m <= SCAN && Leads(c, from, steps, s)
    ensures Leads(c, from, steps', Refreshed(s, FirstBlocks(bs, m)))
  {
    hide *;
    if m == 0 {
      steps' := steps;
      NothingRefreshed(s, bs);
    } else {
      var before := Refreshed(s, FirstBlocks(bs, m - 1));
      steps' := ClaimFirst(c, from, steps, s, bs, m - 1);
      ClaimedInOrder(c, s, bs, m - 1);
      BlockPending(c, s, bs, m - 1);
      AlsoRefreshed(c, s, bs, m);
      steps' := ClaimThem(c, from, steps', before, bs[m - 1], true);
    }
  }

  lemma NothingRefreshed(s: State, bs: seq<seq<EntryId>>)
    ensures Refreshed(s, FirstBlocks(bs, 0)) == s
  {
    assert Refreshed(s, {}).pending == s.pending;
  }

  lemma BlockPending(c: Config, s: State, bs: seq<seq<EntryId>>, j: nat)
    requires Covers(c, s, bs) && j < |bs| && Accounted(s)
    ensures bs[j] != [] && InOrder(bs[j]) && IdSet(bs[j]) <= s.pending.Keys && Within(bs[j], |s.stream|)
  {
  }

  lemma AlsoRefreshed(c: Config, s: State, bs: seq<seq<EntryId>>, m: nat)
    requires 0 < m <= |bs| && IdSet(bs[m - 1]) <= s.pending.Keys
    ensures var before := Refreshed(s, FirstBlocks(bs, m - 1));
            && before.now == s.now && before.batches == s.batches
            && Refreshed(s, FirstBlocks(bs, m)) ==
               before.(pending := before.pending + Owners(bs[m - 1], 0, s.now), batches := s.batches)
  {
    var before, after := Refreshed(s, FirstBlocks(bs, m - 1)), Refreshed(s, FirstBlocks(bs, m));
    assert FirstBlocks(bs, m) == FirstBlocks(bs, m - 1) + IdSet(bs[m - 1]);
    hide FirstBlocks;
    var block := bs[m - 1];
    assert forall id <- block :: id in IdSet(block);
    assert before.pending + Owners(bs[m - 1], 0, s.now) == after.pending;
  }

  // ---------- inserting a sound block ----------

  /** A moment later than any that a key could have. */
  ghost predicate Fresh(s: State, at: nat) {
    && s.floor <= at && s.now <= at
    && (forall k | k in s.rows :: k.createdAt < at)
    && (forall id | 0 <= id < |s.stream| && s.stream[id].Decoded? :: s.stream[id].ev.requestIn < at)
  }

  lemma {:induction false} Above(times: set<nat>) returns (t: nat)
    ensures forall x <- times :: x < t
  {
    if times == {} {
      t := 0;
    } else {
      var x :| x in times;
      var rest := Above(times - {x});
      t := if x < rest then rest else x + 1;
      assert forall y <- times :: y == x || y in times - {x};
    }
  }

  lemma FreshTime(s: State) returns (at: nat)
    ensures Fresh(s, at) && s.now <= at
  {
    var rows: set<nat> := set k <- s.rows :: k.createdAt;
    var stamps: set<nat> := set id: nat | id < |s.stream| && s.stream[id].Decoded? :: s.stream[id].ev.requestIn;
    at := Above(rows + stamps + {s.floor, s.now});
    assert forall k | k in s.rows :: k.createdAt in rows;
    assert forall id: nat | id < |s.stream| && s.stream[id].Decoded? :: s.stream[id].ev.requestIn in stamps;
  }

  /** The clock read once a tick from `at` on. */
  function Ticks(at: nat, n: nat): (r: seq<nat>)
    ensures |r| == n && forall i | 0 <= i < n :: r[i] == at + i
  {
    seq(n, i => at + i)
  }

  lemma {:induction false} KeysDiffer(stream: seq<Payload>, ids: seq<EntryId>, at: seq<nat>)
    requires Within(ids, |stream|) && |at| == |ids|
    requires forall i, j | 0 <= i < j < |ids| && stream[ids[i]].Decoded? && stream[ids[j]].Decoded? ::
               KeyOf(stream[ids[i]].ev, at[i]) != KeyOf(stream[ids[j]].ev, at[j])
    ensures DistinctKeys(Rows(stream, ids, at))
  {
    if ids != [] {
      KeysDiffer(stream, ids[1..], at[1..]);
      if stream[ids[0]].Decoded? {
        var rest := Rows(stream, ids[1..], at[1..]);
        RowsOf(stream, ids[1..], at[1..]);
        hide KeyOf;
        forall i | 0 <= i < |rest| ensures rest[i].0 != KeyOf(stream[ids[0]].ev, at[0]) {
          assert rest[i] in rest;
          var p :| 0 <= p < |ids[1..]| && stream[ids[1..][p]] == Decoded(rest[i].1)
                   && rest[i].0 == KeyOf(rest[i].1, at[1..][p]);
          assert ids[1..][p] == ids[p + 1] && at[1..][p] == at[p + 1];
        }
      }
    }
  }

  /** Stamped entries that are no twins, and clocks that no key can have. */
  lemma FreshKeysDiffer(s: State, block: seq<EntryId>, at: nat, i: nat, j: nat)
    requires Within(block, |s.stream|) && InOrder(block) && !Clash(s, block, block) && Fresh(s, at) && i < j < |block|
    requires s.stream[block[i]].Decoded? && s.stream[block[j]].Decoded?
    ensures KeyOf(s.stream[block[i]].ev, at + i) != KeyOf(s.stream[block[j]].ev, at + j)
  {
    assert !Twins(s, block[i], block[j]);
  }

  lemma RowComesFrom(s: State, block: seq<EntryId>, at: nat, row: Row) returns (p: nat)
    requires Within(block, |s.stream|) && row in Rows(s.stream, block, Ticks(at, |block|))
    ensures p < |block| && block[p] < |s.stream|
    ensures s.stream[block[p]] == Decoded(row.1) && row.0 == KeyOf(row.1, at + p)
  {
    var times := Ticks(at, |block|);
    RowsOf(s.stream, block, times);
    hide Rows, KeyOf;
    p :| 0 <= p < |block| && s.stream[block[p]] == Decoded(row.1) && row.0 == KeyOf(row.1, times[p]);
  }

  lemma FreeAndFresh(s: State, block: seq<EntryId>, at: nat, p: nat)
    requires Within(block, |s.stream|) && p < |block| && s.stream[block[p]].Decoded?
    requires !SomeTaken(s, block) && Fresh(s, at)
    ensures var key := KeyOf(s.stream[block[p]].ev, at + p); key !in s.rows && s.floor <= key.createdAt
  {
    assert Stamped(s, block[p]) ==> !Taken(s, block[p]);
  }

  lemma SoundInserts(s: State, block: seq<EntryId>, at: nat)
    requires Within(block, |s.stream|) && InOrder(block) && !Unsound(s, block) && Fresh(s, at)
    ensures Insertable(s.rows, s.floor, Rows(s.stream, block, Ticks(at, |block|)))
  {
    var times := Ticks(at, |block|);
    var rows := Rows(s.stream, block, times);
    assert !Clash(s, block, block) && !SomeTaken(s, block);
    hide Rows, Clash, SomeTaken, KeyOf, Fresh, Unsound, Within, InOrder;
    forall i, j | 0 <= i < j < |block| && s.stream[block[i]].Decoded? && s.stream[block[j]].Decoded?
      ensures KeyOf(s.stream[block[i]].ev, times[i]) != KeyOf(s.stream[block[j]].ev, times[j])
    {
      FreshKeysDiffer(s, block, at, i, j);
    }
    KeysDiffer(s.stream, block, times);
    forall i | 0 <= i < |rows| ensures rows[i].0 !in s.rows && s.floor <= rows[i].0.createdAt {
      var p := RowComesFrom(s, block, at, rows[i]);
      FreeAndFresh(s, block, at, p);
    }
  }

  /** What is left after a block has been acknowledged: an outage again, without it. */
  ghost predicate Cleared(c: Config, s: State, t: State, block: seq<EntryId>, at: nat) {
    && Outage(c, t) && t.stream == s.stream && t.next == s.next && t.floor == s.floor
    && t.pending.Keys == s.pending.Keys - IdSet(block)
    && IdSet(block) <= t.acked
    && (forall k | k in t.rows :: k in s.rows || KeyFrom(s, block, at, k))
  }

  /** The key of some entry of the block, with the clock that it was given. */
  ghost predicate KeyFrom(s: State, block: seq<EntryId>, at: nat, k: RowKey) {
    exists i | 0 <= i < |block| ::
      block[i] < |s.stream| && s.stream[block[i]].Decoded? && k == KeyOf(s.stream[block[i]].ev, at + i)
  }

  // The steps of the one batch in hand, and what they do.

  lemma Transforms(c: Config, s: State, since: nat, block: seq<EntryId>, at: seq<nat>)
    requires Within(block, |s.stream|) && Readings(at, |block|, since, s.now)
    requires s.batches == map[0 := Batch(0, since, block, Received)]
    ensures |at| == |block| && Enabled(c, s, Transform(0, at))
    ensures Apply(c, s, Transform(0, at)) == s.(batches := map[0 := Batch(0, since, block,
              if Rows(s.stream, block, at) == [] then Counted else Transformed(at))])
  {
    hide Rows;
    var t := Apply(c, s, Transform(0, at));
    assert t.batches.Keys == {0};
  }

  lemma Copies(c: Config, s: State, since: nat, block: seq<EntryId>, at: seq<nat>)
    requires Within(block, |s.stream|) && |at| == |block|
    requires s.batches == map[0 := Batch(0, since, block, Transformed(at))]
    requires Insertable(s.rows, s.floor, Rows(s.stream, block, at))
    ensures Enabled(c, s, Copy(0, Committed))
    ensures var rows, t := Rows(s.stream, block, at), Apply(c, s, Copy(0, Committed));
            t == s.(rows := WithRows(s.rows, rows), commits := t.commits,
                    batches := map[0 := Batch(0, since, block, Inserted(at))])
  {
    hide Rows, WithRows, Insertable;
    assert Apply(c, s, Copy(0, Committed)).batches.Keys == {0};
  }

  lemma Counts(c: Config, s: State, since: nat, block: seq<EntryId>, at: seq<nat>)
    requires Within(block, |s.stream|) && |at| == |block|
    requires s.batches == map[0 := Batch(0, since, block, Inserted(at))]
    ensures Enabled(c, s, Count(0, {}))
    ensures var t := Apply(c, s, Count(0, {}));
            t == s.(counted := t.counted, batches := map[0 := Batch(0, since, block, Counted)])
  {
    hide Rows, Samples;
    assert Apply(c, s, Count(0, {})).batches.Keys == {0};
  }

  lemma Acks(c: Config, s: State, since: nat, block: seq<EntryId>)
    requires Within(block, |s.stream|) && s.batches == map[0 := Batch(0, since, block, Counted)]
    ensures Enabled(c, s, Ack(0, true))
    ensures var done := set id | id in block && id in s.pending;
            Apply(c, s, Ack(0, true)) == s.(pending := s.pending - done, acked := s.acked + done, batches := map[])
  {
    assert Apply(c, s, Ack(0, true)).batches.Keys == {};
  }

  /** A batch in hand goes through: transformed, inserted, acknowledged. */
  lemma PutThrough(c: Config, from: State, steps: seq<Step>, s: State, since: nat, block: seq<EntryId>, at: seq<nat>)
    returns (steps': seq<Step>, t: State)
    requires Leads(c, from, steps, s) && Within(block, |s.stream|) && Readings(at, |block|, since, s.now)
    requires s.batches == map[0 := Batch(0, since, block, Received)] && |at| == |block|
    requires Insertable(s.rows, s.floor, Rows(s.stream, block, at))
    ensures Leads(c, from, steps', t)
    ensures var done := set id | id in block && id in s.pending;
            && t.pending == s.pending - done && t.acked == s.acked + done && t.batches == map[]
            && t.now == s.now && t.stream == s.stream && t.next == s.next && t.floor == s.floor
            && t.rows == WithRows(s.rows, Rows(s.stream, block, at))
  {
    hide *;
    steps', t := PutIn(c, from, steps, s, since, block, at);
    Acks(c, t, since, block);
    steps', t := Go(c, from, steps', t, Ack(0, true));
  }

  lemma PutIn(c: Config, from: State, steps: seq<Step>, s: State, since: nat, block: seq<EntryId>, at: seq<nat>)
    returns (steps': seq<Step>, t: State)
    requires Leads(c, from, steps, s) && Within(block, |s.stream|) && Readings(at, |block|, since, s.now)
    requires s.batches == map[0 := Batch(0, since, block, Received)] && |at| == |block|
    requires Insertable(s.rows, s.floor, Rows(s.stream, block, at))
    ensures Leads(c, from, steps', t)
    ensures t == s.(rows := t.rows, commits := t.commits, counted := t.counted,
                    batches := map[0 := Batch(0, since, block, Counted)])
    ensures t.rows == WithRows(s.rows, Rows(s.stream, block, at))
  {
    hide *;
    Transforms(c, s, since, block, at);
    steps', t := Go(c, from, steps, s, Transform(0, at));
    if Rows(s.stream, block, at) == [] {
      NoRows(s.rows);
    } else {
      Copies(c, t, since, block, at);
      steps', t := Go(c, from, steps', t, Copy(0, Committed));
      Counts(c, t, since, block, at);
      steps', t := Go(c, from, steps', t, Count(0, {}));
    }
  }

  lemma NoRows(rows: map<RowKey, Event>)
    ensures WithRows(rows, []) == rows
  {
  }

  lemma AckBlock(c: Config, from: State, steps: seq<Step>, s: State, bs: seq<seq<EntryId>>, m: nat)
    returns (steps': seq<Step>, t: State, at: nat)
    requires 1 <= c.batchSize && 1 <= c.minIdle && Accounted(s) && Outage(c, s) && Covers(c, s, bs)
    requires m < |bs| && m < SCAN && !Unsound(s, bs[m]) && Leads(c, from, steps, s)
    ensures Leads(c, from, steps', t) && Cleared(c, s, t, bs[m], at) && Fresh(s, at)
  {
    hide *;
    var block := bs[m];
    at := FreshTime(s);
    BlockPending(c, s, bs, m);
    SoundInserts(s, block, at);
    steps' := ClaimFirst(c, from, steps, s, bs, m);
    ClaimedInOrder(c, s, bs, m);
    AlsoRefreshed(c, s, bs, m + 1);
    var before, after := Refreshed(s, FirstBlocks(bs, m)), Refreshed(s, FirstBlocks(bs, m + 1));
    RefreshedIs(s, FirstBlocks(bs, m));
    RefreshedIs(s, FirstBlocks(bs, m + 1));
    steps' := ClaimThem(c, from, steps', before, block, false);
    t := after.(batches := map[0 := Batch(0, s.now, block, Received)]);
    FreshIs(s, at, |block|);
    steps', t := Wait(c, from, steps', t, at + |block| - s.now);
    steps', t := PutThrough(c, from, steps', t, s.now, block, Ticks(at, |block|));
    var done := t;
    steps', t := Wait(c, from, steps', t, c.minIdle);
    BlockCleared(c, s, done, t, block, at, after.pending);
  }

  lemma FreshIs(s: State, at: nat, n: nat)
    requires Fresh(s, at)
    ensures s.now <= at && Readings(Ticks(at, n), n, s.now, at + n)
  {
  }

  lemma RefreshedIs(s: State, done: set<EntryId>)
    requires Accounted(s)
    ensures var t := Refreshed(s, done);
            && t == s.(pending := t.pending) && t.pending.Keys == s.pending.Keys
            && forall id | id in t.pending :: t.pending[id].at <= s.now
  {
  }

  lemma BlockCleared(c: Config, s: State, done: State, t: State, block: seq<EntryId>, at: nat, pending: map<EntryId, Delivery>)
    requires Within(block, |s.stream|) && IdSet(block) <= s.pending.Keys
    requires pending.Keys == s.pending.Keys && (forall id | id in pending :: pending[id].at <= s.now)
    requires Fresh(s, at) && Insertable(s.rows, s.floor, Rows(s.stream, block, Ticks(at, |block|)))
    requires var gone := set id | id in block && id in pending;
             && done.pending == pending - gone && done.acked == s.acked + gone && done.batches == map[]
             && done.now == at + |block| && done.stream == s.stream && done.next == s.next && done.floor == s.floor
             && done.rows == WithRows(s.rows, Rows(s.stream, block, Ticks(at, |block|)))
    requires t == done.(now := at + |block| + c.minIdle)
    ensures Cleared(c, s, t, block, at)
  {
    hide *;
    FreshIs(s, at, |block|);
    KeysAfter(s, t.rows, block, at);
    ClearsIt(c, s, done, t, block, at, pending);
  }

  lemma KeysAfter(s: State, after: map<RowKey, Event>, block: seq<EntryId>, at: nat)
    requires Within(block, |s.stream|) && Insertable(s.rows, s.floor, Rows(s.stream, block, Ticks(at, |block|)))
    requires after == WithRows(s.rows, Rows(s.stream, block, Ticks(at, |block|)))
    ensures forall k | k in after :: k in s.rows || KeyFrom(s, block, at, k)
  {
    WithRowsHolds(s.rows, Rows(s.stream, block, Ticks(at, |block|)));
    hide *;
    forall k | k in after && k !in s.rows ensures KeyFrom(s, block, at, k) {
      var p := RowComesFrom(s, block, at, (k, after[k]));
      IsKeyFrom(s, block, at, p);
    }
  }

  lemma IsKeyFrom(s: State, block: seq<EntryId>, at: nat, p: nat)
    requires Within(block, |s.stream|) && p < |block| && s.stream[block[p]].Decoded?
    ensures KeyFrom(s, block, at, KeyOf(s.stream[block[p]].ev, at + p))
  {
    hide KeyOf;
  }

  lemma ClearsIt(c: Config, s: State, done: State, t: State, block: seq<EntryId>, at: nat, pending: map<EntryId, Delivery>)
    requires IdSet(block) <= s.pending.Keys && pending.Keys == s.pending.Keys
    requires (forall id | id in pending :: pending[id].at <= s.now) && s.now <= at
    requires var gone := set id | id in block && id in pending;
             && done.pending == pending - gone && done.acked == s.acked + gone && done.batches == map[]
             && done.stream == s.stream && done.next == s.next && done.floor == s.floor
    requires t == done.(now := at + |block| + c.minIdle)
    requires forall k | k in t.rows :: k in s.rows || KeyFrom(s, block, at, k)
    ensures Cleared(c, s, t, block, at)
  {
    hide KeyFrom;
    assert forall id | id in block :: id in IdSet(block);
    assert IdSet(block) == set id | id in block && id in pending;
  }

  // ---------- making room in the window ----------

  lemma SoundKept(c: Config, s: State, t: State, block: seq<EntryId>, at: nat, other: seq<EntryId>)
    requires Cleared(c, s, t, block, at) && Fresh(s, at) && Within(other, |s.stream|)
    requires (forall i | 0 <= i < |other| :: other[i] !in block) && !Clash(s, block, other) && !Unsound(s, other)
    ensures !Unsound(t, other)
  {
    ClearedIs(c, s, t, block, at);
    SameClash(s, t, other, other);
    assert !SomeTaken(s, other) && !Clash(s, other, other);
    hide Cleared, Clash;
    forall i | 0 <= i < |other| && Stamped(t, other[i]) ensures !Taken(t, other[i]) {
      assert Stamped(s, other[i]) && !Taken(s, other[i]);
      StillFree(c, s, t, block, at, other, i);
    }
  }

  lemma StillFree(c: Config, s: State, t: State, block: seq<EntryId>, at: nat, other: seq<EntryId>, p: nat)
    requires Cleared(c, s, t, block, at) && Fresh(s, at) && p < |other| && other[p] !in block && !Clash(s, block, other)
    requires Stamped(s, other[p]) && !Taken(s, other[p])
    ensures !Taken(t, other[p])
  {
    forall i | 0 <= i < |block| && block[i] < |s.stream| && s.stream[block[i]].Decoded?
      ensures KeyOf(s.stream[other[p]].ev, 0) != KeyOf(s.stream[block[i]].ev, at + i)
    {
      assert !Twins(s, block[i], other[p]);
    }
  }

  lemma SameClash(s: State, t: State, a: seq<EntryId>, b: seq<EntryId>)
    requires t.stream == s.stream
    ensures Clash(t, a, b) <==> Clash(s, a, b)
  {
    assert forall i, j | 0 <= i < |a| && 0 <= j < |b| :: Twins(t, a[i], b[j]) <==> Twins(s, a[i], b[j]);
  }

  function Without(bs: seq<seq<EntryId>>, i: nat): (r: seq<seq<EntryId>>)
    requires i < |bs|
    ensures |r| == |bs| - 1
    ensures forall j | 0 <= j < i :: r[j] == bs[j]
    ensures forall j | i <= j < |r| :: r[j] == bs[j + 1]
  {
    bs[..i] + bs[i + 1..]
  }

  lemma WithoutBlocked(bs: seq<seq<EntryId>>, k: nat, n: nat, i: nat)
    requires Blocked(bs, k, n) && i + 1 < |bs|
    ensures Blocked(Without(bs, i), k, n)
  {
    var r := Without(bs, i);
    forall j, m, p, q | 0 <= j < m < |r| && 0 <= p < |r[j]| && 0 <= q < |r[m]| ensures r[j][p] < r[m][q] {
      var j', m' := if j < i then j else j + 1, if m < i then m else m + 1;
      assert bs[j'][p] < bs[m'][q];
    }
    forall j | 0 <= j < |r| ensures 1 <= |r[j]| <= k && InOrder(r[j]) && (j + 1 < |r| ==> |r[j]| == k) {
      var j' := if j < i then j else j + 1;
      assert r[j] == bs[j'];
    }
    forall j, p | 0 <= j < |r| && 0 <= p < |r[j]| ensures r[j][p] < n {
      var j' := if j < i then j else j + 1;
      assert bs[j'][p] < n;
    }
  }

  lemma InWithout(bs: seq<seq<EntryId>>, k: nat, n: nat, i: nat, id: EntryId)
    requires Blocked(bs, k, n) && i < |bs|
    ensures InSome(Without(bs, i), id) <==> InSome(bs, id) && id !in bs[i]
  {
    hide Blocked;
    var r := Without(bs, i);
    if InSome(r, id) {
      var j, p :| At(r, id, j, p);
      OnlyElsewhere(bs, k, n, i, id, if j < i then j else j + 1, p);
    }
    if InSome(bs, id) && id !in bs[i] {
      var j, p :| At(bs, id, j, p);
      assert j != i;
      assert At(r, id, if j < i then j else j - 1, p);
    }
  }

  lemma OnlyElsewhere(bs: seq<seq<EntryId>>, k: nat, n: nat, i: nat, id: EntryId, j: nat, p: nat)
    requires Blocked(bs, k, n) && i < |bs| && At(bs, id, j, p) && j != i
    ensures InSome(bs, id) && id !in bs[i]
  {
    hide Blocked;
    forall q | 0 <= q < |bs[i]| ensures bs[i][q] != id {
      Locate(bs, k, n, j, p, i, q);
    }
  }

  lemma CoverIff(c: Config, s: State, t: State, bs: seq<seq<EntryId>>, i: nat, id: EntryId)
    requires Covers(c, s, bs) && i < |bs| && t.pending.Keys == s.pending.Keys - IdSet(bs[i])
    ensures id in t.pending <==> InSome(Without(bs, i), id)
  {
    InWithout(bs, c.batchSize, s.next, i, id);
    var block := bs[i];
    assert id in block <==> id in IdSet(block);
    assert id in s.pending <==> InSome(bs, id);
    hide Covers, InSome, Without;
    assert id in t.pending <==> id in t.pending.Keys;
  }

  lemma CoversWithout(c: Config, s: State, t: State, bs: seq<seq<EntryId>>, i: nat)
    requires Covers(c, s, bs) && i + 1 < |bs| && t.next == s.next && t.pending.Keys == s.pending.Keys - IdSet(bs[i])
    ensures Covers(c, t, Without(bs, i))
  {
    var r := Without(bs, i);
    WithoutBlocked(bs, c.batchSize, s.next, i);
    hide Blocked, InSome, Without;
    forall id: EntryId ensures id in t.pending <==> InSome(r, id) {
      CoverIff(c, s, t, bs, i, id);
    }
    forall j, p | 0 <= j < |r| && 0 <= p < |r[j]| ensures r[j][p] in t.pending {
      ElementInSome(r, j, p);
      CoverIff(c, s, t, bs, i, r[j][p]);
    }
  }

  lemma ElementInSome(bs: seq<seq<EntryId>>, j: nat, p: nat)
    requires j < |bs| && p < |bs[j]|
    ensures InSome(bs, bs[j][p])
  {
    assert At(bs, bs[j][p], j, p);
  }

  /** Acknowledging one block leaves another sound one sound, unless it excludes it. */
  lemma SoundStill(c: Config, s: State, t: State, bs: seq<seq<EntryId>>, i: nat, at: nat, m: nat)
    requires Covers(c, s, bs) && Accounted(s) && i < |bs| && m < |bs| && m != i && !Clash(s, bs[i], bs[m])
    requires Cleared(c, s, t, bs[i], at) && Fresh(s, at) && !Unsound(s, bs[m])
    ensures !Unsound(t, bs[m])
  {
    hide *;
    Apart(c, s, bs, i, m);
    BlockPending(c, s, bs, m);
    SoundKept(c, s, t, bs[i], at, bs[m]);
  }

  lemma ClearedIs(c: Config, s: State, t: State, block: seq<EntryId>, at: nat)
    requires Cleared(c, s, t, block, at)
    ensures Outage(c, t) && t.stream == s.stream && t.next == s.next
    ensures t.pending.Keys == s.pending.Keys - IdSet(block) && IdSet(block) <= t.acked
  {
    hide Outage;
  }

  lemma Apart(c: Config, s: State, bs: seq<seq<EntryId>>, i: nat, m: nat)
    requires Covers(c, s, bs) && i < |bs| && m < |bs| && m != i
    ensures forall p | 0 <= p < |bs[m]| :: bs[m][p] !in bs[i]
  {
    var a, b := bs[m], bs[i];
    forall p: nat, q: nat | p < |a| && q < |b| ensures a[p] != b[q] {
      Locate(bs, c.batchSize, s.next, m, p, i, q);
    }
    hide Covers, Blocked;
  }

  // ---------- following a route ----------

  /** The rest of a route once its first block is gone. */
  function Rest(route: seq<nat>): (r: seq<nat>)
    requires InOrder(route) && route != []
    ensures |r| == |route| - 1 && forall m | 0 <= m < |r| :: r[m] + 1 == route[m + 1]
  {
    seq(|route| - 1, m requires 0 <= m < |route| - 1 => assert route[0] < route[m + 1]; route[m + 1] - 1)
  }

  /** A route starts among the first ten blocks. */
  lemma {:induction false} FirstIsNear(route: seq<nat>)
    requires InOrder(route) && route != []
    ensures route[0] + |route| - 1 <= route[|route| - 1]
  {
    if |route| > 1 {
      FirstIsNear(route[..|route| - 1]);
    }
  }

  lemma RestIsSound(c: Config, s: State, t: State, bs: seq<seq<EntryId>>, route: seq<nat>, at: nat, j: nat, m: nat)
    requires Covers(c, s, bs) && Accounted(s) && Route(s, bs, route, j) && m + 1 < |route|
    requires Cleared(c, s, t, bs[route[0]], at) && Fresh(s, at)
    ensures route[0] < route[m + 1] <= j < |bs| && !Unsound(t, bs[route[m + 1]])
  {
    hide Covers, Accounted, Cleared, Fresh, Unsound, Clash;
    assert !Clash(s, bs[route[0]], bs[route[m + 1]]);
    SoundStill(c, s, t, bs, route[0], at, route[m + 1]);
  }

  lemma RestIsApart(s: State, t: State, bs: seq<seq<EntryId>>, route: seq<nat>, j: nat, m: nat, k: nat)
    requires Route(s, bs, route, j) && t.stream == s.stream && m < k && k + 1 < |route|
    ensures j < |bs| && route[m + 1] <= j && route[k + 1] <= j && !Clash(t, bs[route[m + 1]], bs[route[k + 1]])
  {
    hide Unsound, Clash;
    assert !Clash(s, bs[route[m + 1]], bs[route[k + 1]]);
    SameClash(s, t, bs[route[m + 1]], bs[route[k + 1]]);
  }

  /** Block `route[m + 1]` keeps its contents under its new number. */
  lemma Renumbered(bs: seq<seq<EntryId>>, route: seq<nat>, m: nat)
    requires InOrder(route) && m + 1 < |route| && route[m + 1] < |bs|
    ensures var i := Rest(route)[m]; i < |bs| - 1 && i + 1 == route[m + 1] && Without(bs, route[0])[i] == bs[route[m + 1]]
  {
    assert route[0] < route[m + 1];
  }

  lemma RouteGoesOn(c: Config, s: State, t: State, bs: seq<seq<EntryId>>, route: seq<nat>, at: nat, j: nat)
    requires Covers(c, s, bs) && Accounted(s) && Route(s, bs, route, j) && |route| > 1
    requires Cleared(c, s, t, bs[route[0]], at) && Fresh(s, at)
    ensures j > 0 && Route(t, Without(bs, route[0]), Rest(route), j - 1)
  {
    var r, rest := Without(bs, route[0]), Rest(route);
    ClearedIs(c, s, t, bs[route[0]], at);
    RestInOrder(route);
    assert route[0] < route[|route| - 1] == j < |bs| && j < SCAN + |route| - 1;
    assert forall m | 0 <= m < |route| :: route[m] < |bs|;
    hide Covers, Accounted, Cleared, Fresh, Unsound, Clash, Rest, Without, Outage, IdSet, Route, InOrder;
    forall m: nat | m < |rest| ensures rest[m] < |r| && rest[m] <= j - 1 && !Unsound(t, r[rest[m]]) {
      RestIsSound(c, s, t, bs, route, at, j, m);
      Renumbered(bs, route, m);
    }
    forall m: nat, k: nat | m < k < |rest| ensures !Clash(t, r[rest[m]], r[rest[k]]) {
      RestIsApart(s, t, bs, route, j, m, k);
      Renumbered(bs, route, m);
      Renumbered(bs, route, k);
    }
    MakesRoute(t, r, rest, j - 1);
  }

  lemma MakesRoute(s: State, bs: seq<seq<EntryId>>, route: seq<nat>, j: nat)
    requires InOrder(route) && route != [] && route[|route| - 1] == j && j < SCAN + |route| - 1
    requires forall m: nat | m < |route| :: route[m] < |bs| && route[m] <= j && !Unsound(s, bs[route[m]])
    requires forall m: nat, k: nat | m < k < |route| :: !Clash(s, bs[route[m]], bs[route[k]])
    ensures Route(s, bs, route, j)
  {
    hide Unsound, Clash;
  }

  lemma RestInOrder(route: seq<nat>)
    requires InOrder(route) && |route| > 1
    ensures InOrder(Rest(route)) && Rest(route)[|route| - 2] + 1 == route[|route| - 1]
  {
  }

  lemma RouteIs(s: State, bs: seq<seq<EntryId>>, route: seq<nat>, j: nat)
    requires Route(s, bs, route, j)
    ensures InOrder(route) && route != [] && route[0] < |bs| && route[0] < SCAN && !Unsound(s, bs[route[0]])
    ensures |route| == 1 ==> route[0] == j
    ensures |route| > 1 ==> route[0] < j < |bs|
    ensures j < |bs|
  {
    FirstIsNear(route);
    hide Unsound, Clash;
  }

  lemma {:induction false} AckRoute(c: Config, from: State, steps: seq<Step>, s: State, bs: seq<seq<EntryId>>,
                                    route: seq<nat>, j: nat)
    returns (steps': seq<Step>, t: State)
    requires 1 <= c.batchSize && 1 <= c.minIdle && Inv(from) && Leads(c, from, steps, s)
    requires Outage(c, s) && Covers(c, s, bs) && Route(s, bs, route, j)
    ensures Leads(c, from, steps', t) && j < |bs| && IdSet(bs[j]) <= t.acked
    decreases |route|
  {
    InvThere(c, from, steps, s);
    hide *;
    RouteIs(s, bs, route, j);
    steps', t := AckFirst(c, from, steps, s, bs, route, j);
    if |route| > 1 {
      steps', t := AckRoute(c, from, steps', t, Without(bs, route[0]), Rest(route), j - 1);
    }
  }

  /** The first block of a route is acknowledged, and the others are a route then. */
  lemma AckFirst(c: Config, from: State, steps: seq<Step>, s: State, bs: seq<seq<EntryId>>, route: seq<nat>, j: nat)
    returns (steps': seq<Step>, t: State)
    requires 1 <= c.batchSize && 1 <= c.minIdle && Accounted(s) && Leads(c, from, steps, s)
    requires Outage(c, s) && Covers(c, s, bs) && Route(s, bs, route, j)
    requires InOrder(route) && route != [] && route[0] < |bs| && j < |bs|
    ensures Leads(c, from, steps', t) && Outage(c, t)
    ensures |route| == 1 ==> IdSet(bs[j]) <= t.acked
    ensures |route| > 1 ==>
            var r := Without(bs, route[0]);
            j > 0 && Covers(c, t, r) && Route(t, r, Rest(route), j - 1) && j - 1 < |r| && r[j - 1] == bs[j]
  {
    hide *;
    RouteIs(s, bs, route, j);
    var at;
    steps', t, at := AckBlock(c, from, steps, s, bs, route[0]);
    ClearedIs(c, s, t, bs[route[0]], at);
    if |route| > 1 {
      RouteGoesOn(c, s, t, bs, route, at, j);
      CoversWithout(c, s, t, bs, route[0]);
      var r := Without(bs, route[0]);
      assert r[j - 1] == bs[j];
    }
  }

  lemma InvThere(c: Config, from: State, steps: seq<Step>, s: State)
    requires Inv(from) && Leads(c, from, steps, s)
    ensures Accounted(s)
  {
    hide Legal, Run, Inv;
    InvRun(c, from, steps);
    assert Inv(s);
    InvAccounts(s);
  }

  lemma InvAccounts(s: State)
    requires Inv(s)
    ensures Accounted(s)
  {
  }

  // ---------- exactly ----------

  /** Some run without deletions acknowledges the entry. */
  ghost predicate Ackable(c: Config, s: State, id: EntryId) {
    exists steps :: Legal(c, s, steps) && NoDeletions(steps) && id in Run(c, s, steps).acked
  }

  ghost predicate HasRoute(s: State, bs: seq<seq<EntryId>>, j: nat) {
    exists route :: Route(s, bs, route, j)
  }

  /**
  What can still be acknowledged after an outage in which every pending entry has become
  idle: an entry whose block has a route. XAUTOCLAIM looks at ten blocks; to get at a later
  one, so many below it have to go first, and these must be insertable, one after the other
  and then the block itself.
  */
  lemma AckableIffRoute(c: Config, before: seq<Step>, id: EntryId, j: nat, p: nat)
    requires 1 <= c.batchSize && 1 <= c.minIdle && Legal(c, Init, before) && Outage(c, Run(c, Init, before))
    requires At(BlocksOf(c, Run(c, Init, before)), id, j, p)
    ensures var s := Run(c, Init, before); Ackable(c, s, id) <==> HasRoute(s, BlocksOf(c, s), j)
  {
    var s := Run(c, Init, before);
    InvInit();
    InvRun(c, Init, before);
    hide *;
    if Ackable(c, s, id) {
      AckableHasRoute(c, s, id, j, p);
    }
    if HasRoute(s, BlocksOf(c, s), j) {
      RouteIsAckable(c, s, id, j, p);
    }
  }

  lemma AckableHasRoute(c: Config, s: State, id: EntryId, j: nat, p: nat)
    requires 1 <= c.batchSize && Inv(s) && Outage(c, s) && At(BlocksOf(c, s), id, j, p) && Ackable(c, s, id)
    ensures HasRoute(s, BlocksOf(c, s), j)
  {
    hide Inv, Outage, BlocksOf, Route, At, Run, Legal, NoDeletions;
    var steps :| Legal(c, s, steps) && NoDeletions(steps) && id in Run(c, s, steps).acked;
    var route := AckedHasRoute(c, s, steps, id, j, p);
  }

  lemma OutageCovers(c: Config, s: State, id: EntryId, j: nat, p: nat)
    requires 1 <= c.batchSize && Inv(s) && Outage(c, s) && At(BlocksOf(c, s), id, j, p)
    ensures Covers(c, s, BlocksOf(c, s)) && j < |BlocksOf(c, s)| && id in IdSet(BlocksOf(c, s)[j])
  {
    hide *;
    InvAccounts(s);
    OutageIsKept(c, s);
    CoversIs(c, s, BlocksOf(c, s));
    PlaceOf(BlocksOf(c, s), id, j, p);
    InIdSet(BlocksOf(c, s)[j], p);
  }

  lemma CoversIs(c: Config, s: State, bs: seq<seq<EntryId>>)
    requires Blocked(bs, c.batchSize, s.next)
    requires forall id: EntryId :: id in s.pending <==> InSome(bs, id)
    requires forall j, p | 0 <= j < |bs| && 0 <= p < |bs[j]| :: bs[j][p] in s.pending
    ensures Covers(c, s, bs)
  {
    hide Blocked, InSome;
  }

  lemma InIdSet(block: seq<EntryId>, p: nat)
    requires p < |block|
    ensures block[p] in IdSet(block)
  {
  }

  lemma StartsThere(c: Config, s: State)
    ensures Leads(c, s, [], s)
  {
  }

  lemma LeadsToAck(c: Config, s: State, steps: seq<Step>, t: State, id: EntryId)
    requires Leads(c, s, steps, t) && id in t.acked
    ensures Ackable(c, s, id)
  {
    hide Legal, Run, NoDeletions;
  }

  lemma RouteIsAckable(c: Config, s: State, id: EntryId, j: nat, p: nat)
    requires 1 <= c.batchSize && 1 <= c.minIdle && Inv(s) && Outage(c, s)
    requires At(BlocksOf(c, s), id, j, p) && HasRoute(s, BlocksOf(c, s), j)
    ensures Ackable(c, s, id)
  {
    var route :| Route(s, BlocksOf(c, s), route, j);
    hide *;
    OutageCovers(c, s, id, j, p);
    StartsThere(c, s);
    var steps, t := AckRoute(c, s, [], s, BlocksOf(c, s), route, j);
    LeadsToAck(c, s, steps, t, id);
  }

  // ---------- what is held up ----------

  ghost function UnsoundBelow(s: State, bs: seq<seq<EntryId>>, j: nat): (m: nat)
    requires j <= |bs|
    ensures m <= j
  {
    if j == 0 then 0 else UnsoundBelow(s, bs, j - 1) + (if Unsound(s, bs[j - 1]) then 1 else 0)
  }

  /** The block cannot be inserted, or is behind ten blocks that cannot. */
  ghost predicate Held(s: State, bs: seq<seq<EntryId>>, j: nat)
    requires j < |bs|
  {
    Unsound(s, bs[j]) || UnsoundBelow(s, bs, j) >= SCAN
  }

  lemma {:induction false} SoundOnes(s: State, bs: seq<seq<EntryId>>, route: seq<nat>, j: nat)
    requires j <= |bs| && InOrder(route)
    requires forall m | 0 <= m < |route| :: route[m] < j && !Unsound(s, bs[route[m]])
    ensures |route| + UnsoundBelow(s, bs, j) <= j
  {
    hide Unsound;
    if j > 0 {
      if route != [] && route[|route| - 1] == j - 1 {
        SoundOnes(s, bs, route[..|route| - 1], j - 1);
      } else {
        assert forall m | 0 <= m < |route| :: route[m] <= route[|route| - 1];
        SoundOnes(s, bs, route, j - 1);
      }
    }
  }

  lemma HeldHasNoRoute(s: State, bs: seq<seq<EntryId>>, j: nat)
    requires j < |bs| && Held(s, bs, j)
    ensures !HasRoute(s, bs, j)
  {
    forall route ensures !Route(s, bs, route, j) {
      if InOrder(route) && route != [] && route[|route| - 1] == j && j < |bs| && !Unsound(s, bs[j])
         && (forall m | 0 <= m < |route| :: route[m] <= j && !Unsound(s, bs[route[m]])) {
        hide Unsound, UnsoundBelow;
        var below := route[..|route| - 1];
        assert forall m | 0 <= m < |below| :: below[m] < route[|route| - 1];
        SoundOnes(s, bs, below, j);
      }
    }
  }

  /** Without deletions, an entry of a block that cannot be inserted, or is behind ten such
      blocks, is never acknowledged. */
  lemma HeldIsNeverAcked(c: Config, s: State, steps: seq<Step>, id: EntryId, j: nat, p: nat)
    requires 1 <= c.batchSize && Inv(s) && Outage(c, s) && Legal(c, s, steps) && NoDeletions(steps)
    requires At(BlocksOf(c, s), id, j, p) && Held(s, BlocksOf(c, s), j)
    ensures id in Run(c, s, steps).pending && id !in Run(c, s, steps).acked
  {
    InvRun(c, s, steps);
    StaysAccounted(c, s, steps, id, j, p);
    HeldHasNoRoute(s, BlocksOf(c, s), j);
    hide *;
    if id in Run(c, s, steps).acked {
      MakesAckable(c, s, steps, id);
      AckableHasRoute(c, s, id, j, p);
    }
  }

  lemma MakesAckable(c: Config, s: State, steps: seq<Step>, id: EntryId)
    requires Legal(c, s, steps) && NoDeletions(steps) && id in Run(c, s, steps).acked
    ensures Ackable(c, s, id)
  {
    hide Legal, Run, NoDeletions;
  }

  lemma StaysAccounted(c: Config, s: State, steps: seq<Step>, id: EntryId, j: nat, p: nat)
    requires 1 <= c.batchSize && Inv(s) && Outage(c, s) && Legal(c, s, steps) && At(BlocksOf(c, s), id, j, p)
    ensures id in Run(c, s, steps).pending || id in Run(c, s, steps).acked
  {
    OutageCovers(c, s, id, j, p);
    InvRun(c, s, steps);
    NextGrows(c, s, steps);
    InvAccounts(s);
    InvAccounts(Run(c, s, steps));
    assert id in s.pending;
    hide BlocksOf, Run, Legal, Inv, Outage, Covers;
  }

  lemma {:induction false} NextGrows(c: Config, s: State, steps: seq<Step>)
    requires Legal(c, s, steps)
    ensures s.next <= Run(c, s, steps).next
    decreases |steps|
  {
    if steps != [] {
      HistoryKept(c, s, steps[0]);
      hide Apply, Enabled;
      NextGrows(c, Apply(c, s, steps[0]), steps[1..]);
    }
  }

  /** No stamped event is waiting twice. */
  ghost predicate TwinFree(s: State) {
    forall a, b | a in s.pending && b in s.pending :: !Twins(s, a, b)
  }

  ghost function SoundSet(s: State, bs: seq<seq<EntryId>>): set<nat> {
    set j: nat | j < |bs| && !Unsound(s, bs[j])
  }

  lemma {:induction false} SoundCount(s: State, bs: seq<seq<EntryId>>, j: nat)
    requires j <= |bs|
    ensures |Ascending(SoundSet(s, bs), j)| + UnsoundBelow(s, bs, j) == j
  {
    if j > 0 {
      SoundCount(s, bs, j - 1);
      hide Unsound;
    }
  }

  lemma NoClash(c: Config, s: State, bs: seq<seq<EntryId>>, i: nat, j: nat)
    requires TwinFree(s) && Covers(c, s, bs) && i < |bs| && j < |bs|
    ensures !Clash(s, bs[i], bs[j])
  {
    hide Blocked, InSome, Twins;
  }

  /** Then all sound blocks make a route. */
  lemma FreeHasRoute(c: Config, s: State, bs: seq<seq<EntryId>>, j: nat)
    requires Covers(c, s, bs) && j < |bs| && !Held(s, bs, j) && (j < SCAN || TwinFree(s))
    ensures HasRoute(s, bs, j)
  {
    hide Unsound, Covers, Clash, TwinFree, Ascending;
    var route := [j];
    if j >= SCAN {
      SoundCount(s, bs, j);
      route := Ascending(SoundSet(s, bs), j) + [j];
      hide UnsoundBelow;
      forall m | 0 <= m < |route| ensures route[m] <= j && !Unsound(s, bs[route[m]]) {
        assert route[m] == j || route[m] in SoundSet(s, bs);
      }
      forall m, k | 0 <= m < k < |route| ensures !Clash(s, bs[route[m]], bs[route[k]]) {
        NoClash(c, s, bs, route[m], route[k]);
      }
    }
    assert Route(s, bs, route, j);
  }

  /** In the first ten blocks, and everywhere if no stamped event is waiting twice, that is
      the whole condition: a block that can be inserted, and not behind ten that cannot. */
  lemma AckableIffNotHeld(c: Config, before: seq<Step>, id: EntryId, j: nat, p: nat)
    requires 1 <= c.batchSize && 1 <= c.minIdle && Legal(c, Init, before) && Outage(c, Run(c, Init, before))
    requires var s := Run(c, Init, before); At(BlocksOf(c, s), id, j, p) && (j < SCAN || TwinFree(s))
    ensures var s := Run(c, Init, before); Ackable(c, s, id) <==> !Held(s, BlocksOf(c, s), j)
  {
    var s := Run(c, Init, before);
    InvInit();
    InvRun(c, Init, before);
    hide *;
    OutageCovers(c, s, id, j, p);
    AckableIffRoute(c, before, id, j, p);
    if Held(s, BlocksOf(c, s), j) {
      HeldHasNoRoute(s, BlocksOf(c, s), j);
    } else {
      FreeHasRoute(c, s, BlocksOf(c, s), j);
    }
  }

  /** Each pending entry is in one of those blocks. */
  lemma EveryEntryHasABlock(c: Config, before: seq<Step>, id: EntryId) returns (j: nat, p: nat)
    requires 1 <= c.batchSize && Legal(c, Init, before) && id in Run(c, Init, before).pending
    ensures At(BlocksOf(c, Run(c, Init, before)), id, j, p)
    ensures forall m | 0 <= m < j :: |BlocksOf(c, Run(c, Init, before))[m]| == c.batchSize
  {
    var s := Run(c, Init, before);
    InvInit();
    InvRun(c, Init, before);
    var q := Ascending(s.pending.Keys, s.next);
    CutBlocked(q, c.batchSize, s.next);
    assert id in q && InSome(BlocksOf(c, s), id);
    j, p :| At(BlocksOf(c, s), id, j, p);
  }
}
