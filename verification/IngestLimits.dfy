/**
Where the ingest protocol's guarantees stop: which events can be stored or counted
twice, and which entries are stuck.
*/
module IngestLimits {
  import opened Ingest

  lemma {:induction false} Append1(c: Config, s: State, steps: seq<Step>, step: Step)
    requires Legal(c, s, steps) && Enabled(c, Run(c, s, steps), step)
    ensures Legal(c, s, steps + [step]) && Run(c, s, steps + [step]) == Apply(c, Run(c, s, steps), step)
    decreases |steps|
  {
    hide Enabled, Apply;
    if steps == [] {
      assert [step][1..] == [];
    } else {
      Append1(c, Apply(c, s, steps[0]), steps[1..], step);
      assert (steps + [step])[1..] == steps[1..] + [step];
    }
  }

  /** Extends a run from `from`, keeping track of the state it ends in. */
  lemma Extend(c: Config, from: State, steps: seq<Step>, s: State, step: Step) returns (steps': seq<Step>, s': State)
    requires Legal(c, from, steps) && s == Run(c, from, steps) && Enabled(c, s, step)
    ensures steps' == steps + [step] && s' == Apply(c, s, step)
    ensures Legal(c, from, steps') && s' == Run(c, from, steps')
  {
    Append1(c, from, steps, step);
    steps', s' := steps + [step], Apply(c, s, step);
  }

  // ---------- which events can be stored twice ----------

  /** The only entry there is, pending long enough to be claimed, and nobody at work. */
  ghost predicate OneLeft(c: Config, s: State, ev: Event) {
    && s.stream == [Decoded(ev)] && s.next == 1 && s.batches == map[] && s.floor == 0
    && s.pending.Keys == {0} && s.pending[0].at + c.minIdle <= s.now
  }

  lemma OneIsClaimed(c: Config, s: State, ev: Event)
    requires 1 <= c.batchSize && OneLeft(c, s, ev)
    ensures ClaimedIds(c, s) == [0]
  {
    var all: set<EntryId> := {0};
    assert Ascending(all, 0) == [] && Ascending(all, 1) == [0];
    assert Lowest(all, SCAN * c.batchSize) == all && Lowest(all, c.batchSize) == all;
    assert Idle(c, s, all) == all;
  }

  lemma OneRow(ev: Event, at: nat)
    ensures Rows([Decoded(ev)], [0], [at]) == [(KeyOf(ev, at), ev)]
    ensures var row := (KeyOf(ev, at), ev);
            Samples([row], {0}) == multiset{row} && multiset([row]) == multiset{row}
    ensures forall rows: map<RowKey, Event>, row: Row :: WithRows(rows, [row]) == rows[row.0 := row.1]
  {
    var row := (KeyOf(ev, at), ev);
    assert [0][1..] == [] && [at][1..] == [] && [row][..0] == [];
    forall rows: map<RowKey, Event>, r: Row ensures WithRows(rows, [r]) == rows[r.0 := r.1] {
      assert [r][..0] == [];
    }
  }

  lemma ClaimedAlone(c: Config, from: State, steps: seq<Step>, s: State, ev: Event)
    returns (steps': seq<Step>, s': State)
    requires 1 <= c.batchSize && OneLeft(c, s, ev) && Legal(c, from, steps) && s == Run(c, from, steps)
    ensures Legal(c, from, steps') && s' == Run(c, from, steps')
    ensures s' == s.(pending := map[0 := Delivery(0, s.now)], batches := map[0 := Batch(0, s.now, [0], Received)])
  {
    OneClaim(c, s, ev);
    hide *;
    steps', s' := Extend(c, from, steps, s, Claim(0, 0, false));
  }

  lemma OneClaim(c: Config, s: State, ev: Event)
    requires 1 <= c.batchSize && OneLeft(c, s, ev)
    ensures Enabled(c, s, Claim(0, 0, false))
    ensures Apply(c, s, Claim(0, 0, false)) ==
            s.(pending := map[0 := Delivery(0, s.now)], batches := map[0 := Batch(0, s.now, [0], Received)])
  {
    OneIsClaimed(c, s, ev);
    hide ClaimedIds, Claimable;
    var t := Apply(c, s, Claim(0, 0, false));
    assert t.pending == map[0 := Delivery(0, s.now)];
    assert t.batches == map[0 := Batch(0, s.now, [0], Received)];
  }

  lemma InsertedAlone(c: Config, from: State, steps: seq<Step>, s: State, ev: Event)
    returns (steps': seq<Step>, s': State)
    requires 1 <= c.batchSize && OneLeft(c, s, ev) && Legal(c, from, steps) && s == Run(c, from, steps)
    requires KeyOf(ev, s.now) !in s.rows
    ensures Legal(c, from, steps') && s' == Run(c, from, steps')
    ensures var row := (KeyOf(ev, s.now), ev);
            s' == s.(pending := map[0 := Delivery(0, s.now)], rows := s.rows[row.0 := row.1],
                     commits := s.commits + multiset{row}, batches := map[0 := Batch(0, s.now, [0], Inserted([s.now]))])
  {
    OneRow(ev, s.now);
    hide Rows, WithRows, Legal, Run;
    steps', s' := ClaimedAlone(c, from, steps, s, ev);
    steps', s' := Extend(c, from, steps', s', Transform(0, [s.now]));
    assert s'.batches == map[0 := Batch(0, s.now, [0], Transformed([s.now]))];
    steps', s' := Extend(c, from, steps', s', Copy(0, Committed));
    assert s'.batches == map[0 := Batch(0, s.now, [0], Inserted([s.now]))];
  }

  /** The collector claims it, inserts, counts, and dies before the XACK. */
  lemma CountedButNotAcked(c: Config, from: State, steps: seq<Step>, s: State, ev: Event)
    returns (steps': seq<Step>, s': State)
    requires 1 <= c.batchSize && OneLeft(c, s, ev) && Legal(c, from, steps) && s == Run(c, from, steps)
    requires KeyOf(ev, s.now) !in s.rows
    ensures Legal(c, from, steps') && s' == Run(c, from, steps')
    ensures var row := (KeyOf(ev, s.now), ev);
            s' == s.(pending := map[0 := Delivery(0, s.now)], rows := s.rows[row.0 := row.1],
                     commits := s.commits + multiset{row}, counted := s.counted + multiset{row})
  {
    OneRow(ev, s.now);
    hide Rows, Samples, Legal, Run;
    steps', s' := InsertedAlone(c, from, steps, s, ev);
    steps', s' := Extend(c, from, steps', s', Count(0, {0}));
    assert s'.batches == map[0 := Batch(0, s.now, [0], Counted)];
    steps', s' := Extend(c, from, steps', s', Crash(0));
    assert s'.batches == map[];
  }

  /** The event has come in and been delivered to a collector that is gone. */
  lemma OneDelivered(c: Config, ev: Event) returns (steps: seq<Step>, s: State)
    requires 1 <= c.batchSize
    ensures Legal(c, Init, steps) && s == Run(c, Init, steps)
    ensures OneLeft(c, s, ev)
    ensures s == Init.(now := c.minIdle, stream := [Decoded(ev)], next := 1, pending := map[0 := Delivery(0, 0)])
  {
    steps, s := Extend(c, Init, [], Init, Append(Decoded(ev)));
    assert Range(0, 1) == [0];
    hide Legal, Run;
    steps, s := Extend(c, Init, steps, s, Read(0, 0, 1, true));
    assert s.pending == map[0 := Delivery(0, 0)];
    steps, s := Extend(c, Init, steps, s, Tick(c.minIdle));
  }

  lemma OnceCounted(c: Config, ev: Event) returns (steps: seq<Step>, s: State)
    requires 1 <= c.batchSize && 1 <= c.minIdle
    ensures Legal(c, Init, steps) && s == Run(c, Init, steps) && OneLeft(c, s, ev)
    ensures var row := (KeyOf(ev, c.minIdle), ev);
            && s.now == 2 * c.minIdle && s.rows == map[row.0 := row.1] && s.deleted == multiset{}
            && s.counted == multiset{row} && s.commits == multiset{row}
  {
    var row := (KeyOf(ev, c.minIdle), ev);
    steps, s := OneDelivered(c, ev);
    steps, s := CountedButNotAcked(c, Init, steps, s, ev);
    hide Legal, Run;
    assert s.counted == multiset{row};
    steps, s := Extend(c, Init, steps, s, Tick(c.minIdle));
  }

  /** An event without a RequestIn takes the collector's clock as part of its key, so
      a crash between insert and XACK stores and counts it again. */
  lemma UnstampedTwice(c: Config, ev: Event) returns (steps: seq<Step>)
    requires 1 <= c.batchSize && 1 <= c.minIdle && ev.requestIn == 0
    ensures Legal(c, Init, steps) && !AtMostOnce(Run(c, Init, steps), ev)
  {
    var s: State;
    steps, s := OnceCounted(c, ev);
    var first, second := KeyOf(ev, c.minIdle), KeyOf(ev, s.now);
    assert first != second;
    steps, s := CountedButNotAcked(c, Init, steps, s, ev);
    assert s.rows[first] == s.rows[second] == ev;
  }

  /** Exactly which events are protected: those the proxy stamped with a RequestIn. */
  lemma AtMostOnceIffStamped(c: Config, ev: Event)
    requires 1 <= c.batchSize && 1 <= c.minIdle
    ensures (forall steps | Legal(c, Init, steps) :: AtMostOnce(Run(c, Init, steps), ev)) <==> ev.requestIn != 0
  {
    if ev.requestIn != 0 {
      forall steps | Legal(c, Init, steps) ensures AtMostOnce(Run(c, Init, steps), ev) {
        StampedOnce(c, steps, ev);
      }
    } else {
      var steps := UnstampedTwice(c, ev);
    }
  }

  /** Deleting the project does let an event be counted again: the row goes, the entry,
      whose XACK was lost, comes back. So one more count for each deletion is exact. */
  lemma DeletionAllowsAnotherCount(c: Config, ev: Event) returns (steps: seq<Step>)
    requires 1 <= c.batchSize && 1 <= c.minIdle && ev.requestIn != 0 && ev.projectId != ""
    ensures Legal(c, Init, steps)
    ensures var s := Run(c, Init, steps);
            s.deleted == multiset{ev.projectId} && s.counted[(KeyOf(ev, 0), ev)] == 2
  {
    var s: State;
    steps, s := OnceCounted(c, ev);
    hide Legal, Run;
    steps, s := Extend(c, Init, steps, s, DeleteRows(ev.projectId));
    assert s.rows == map[] && s.deleted == multiset{ev.projectId};
    steps, s := CountedButNotAcked(c, Init, steps, s, ev);
  }

  // ---------- entries that are stuck ----------

  /** Some batch holding the entry has got past its COPY. */
  ghost predicate PastCopy(s: State, id: EntryId) {
    exists b :: b in s.batches && id in s.batches[b].ids
                && (s.batches[b].phase.Inserted? || s.batches[b].phase.Counted?)
  }

  /** The key cannot be inserted: a row of this project has it, or its partition is gone. */
  predicate TakenBy(s: State, key: RowKey, project: string) {
    key.createdAt < s.floor || (key in s.rows && s.rows[key].projectId == project)
  }

  /** The entry's row cannot be inserted, and nobody is left who could send its XACK. */
  ghost predicate Stuck(s: State, id: EntryId, project: string) {
    && id in s.pending && id < |s.stream| && s.stream[id].Decoded? && s.stream[id].ev.requestIn != 0
    && TakenBy(s, KeyOf(s.stream[id].ev, 0), project)
    && !PastCopy(s, id)
  }

  lemma TakenStays(c: Config, s: State, step: Step, key: RowKey, project: string)
    requires TakenBy(s, key, project) && Enabled(c, s, step) && step != DeleteRows(project)
    ensures TakenBy(Apply(c, s, step), key, project)
  {
    if step.Copy? && !step.outcome.Failed? {
      var batch := s.batches[step.b];
      WithRowsHolds(s.rows, Rows(s.stream, batch.ids, batch.phase.at));
    }
  }

  /** A batch that holds such an entry has a row that cannot be inserted. */
  lemma TakenBlocks(c: Config, s: State, ids: seq<EntryId>, at: seq<nat>, id: EntryId, project: string)
    requires Within(ids, |s.stream|) && |at| == |ids| && id in ids && s.stream[id].Decoded? && s.stream[id].ev.requestIn != 0
    requires TakenBy(s, KeyOf(s.stream[id].ev, 0), project)
    ensures Rows(s.stream, ids, at) != [] && !Insertable(s.rows, s.floor, Rows(s.stream, ids, at))
  {
    StampedRow(s.stream, ids, at, id);
  }

  lemma StillNotPast(c: Config, s: State, step: Step, id: EntryId, project: string)
    requires Accounted(s) && Stuck(s, id, project) && Enabled(c, s, step)
    ensures !PastCopy(Apply(c, s, step), id)
  {
    var t := Apply(c, s, step);
    if (step.Copy? || step.Transform?) && id in s.batches[step.b].ids {
      var at := if step.Copy? then s.batches[step.b].phase.at else step.at;
      TakenBlocks(c, s, s.batches[step.b].ids, at, id, project);
    }
    hide Rows, Insertable, TakenBy, Accounted, Apply, Enabled;
    forall b | b in t.batches && id in t.batches[b].ids
      ensures !(t.batches[b].phase.Inserted? || t.batches[b].phase.Counted?)
    {
      BatchBecomes(c, s, step, b);
      assert b in s.batches && id in s.batches[b].ids ==>
               !(s.batches[b].phase.Inserted? || s.batches[b].phase.Counted?);
    }
  }

  lemma StuckStep(c: Config, s: State, step: Step, id: EntryId, project: string)
    requires Inv(s) && Stuck(s, id, project) && Enabled(c, s, step) && step != DeleteRows(project)
    ensures Stuck(Apply(c, s, step), id, project)
  {
    TakenStays(c, s, step, KeyOf(s.stream[id].ev, 0), project);
    StillNotPast(c, s, step, id, project);
    assert step.Ack? ==> id !in s.batches[step.b].ids;
    hide Rows, Insertable, TakenBy, Claimable, Ascending, Inv, PastCopy, Samples, WithRows;
  }

  /** A lost XACK is never made up for, until someone deletes the project whose row is in
      the way: the entry stays pending, and no batch it is claimed into commits, so its
      batch mates fail with it. */
  lemma {:induction false} StuckForever(c: Config, s: State, steps: seq<Step>, id: EntryId, project: string)
    requires Inv(s) && Stuck(s, id, project) && Legal(c, s, steps) && DeleteRows(project) !in steps
    ensures Inv(Run(c, s, steps)) && Stuck(Run(c, s, steps), id, project)
    decreases |steps|
  {
    hide Inv, Stuck, Apply, Enabled;
    if steps != [] {
      InvStep(c, s, steps[0]);
      StuckStep(c, s, steps[0], id, project);
      StuckForever(c, Apply(c, s, steps[0]), steps[1..], id, project);
    }
  }
}
