/**
The ingest protocol: a Redis stream read through one consumer group by any number
of collectors, a COPY into a table keyed by (id, created_at), realtime counters,
and XACK (internal/collector/consumer.go, pipeline.go, trace_repo.go).

A run starts when the group is created at `$`, so entry 0 is the first one
appended after that. A batch in flight is one call of processBatch; collectors
may run several at once, may crash between any two effects, and any reply from
Redis or Postgres may be lost after the effect has happened. Rows also leave the
table: with the project they belong to, or with the partition of their month.
*/
module Ingest {

  type EntryId = nat
  type BatchId = nat

  /** The fields of stream.Event that the protocol depends on; requestIn 0 is Go's zero time. */
  datatype Event = Event(id: string, requestIn: nat, projectId: string, tokens: nat, costMicros: nat)

  datatype Payload = Malformed | Decoded(ev: Event)

  datatype RowKey = RowKey(id: string, createdAt: nat)

  type Row = (RowKey, Event)

  datatype Phase =
    | Received
    | Transformed(at: seq<nat>)  // rows built, each with its clock if it has no RequestIn
    | Inserted(at: seq<nat>)     // COPY succeeded
    | Counted                    // counters bumped, or nothing to insert

  /** One call of processBatch, which began at `since`. */
  datatype Batch = Batch(consumer: nat, since: nat, ids: seq<EntryId>, phase: Phase)

  /** An entry of the pending list: who has it, and since when. */
  datatype Delivery = Delivery(consumer: nat, at: nat)

  datatype Config = Config(batchSize: nat, minIdle: nat)

  /** NewConsumer's defaults. */
  function NewConfig(batchSize: int, pendingIdleMax: int): (c: Config)
    ensures 1 <= c.batchSize && 1 <= c.minIdle
    ensures if batchSize > 0 then c.batchSize == batchSize else c.batchSize == 200
    ensures if pendingIdleMax > 0 then c.minIdle == pendingIdleMax else c.minIdle == 60000
  {
    Config(if batchSize <= 0 then 200 else batchSize, if pendingIdleMax <= 0 then 60000 else pendingIdleMax)
  }

  /** XAUTOCLAIM looks at no more than this many times COUNT pending entries. */
  const SCAN: nat := 10

  datatype State = State(
    now: nat,
    stream: seq<Payload>,
    next: nat,                         // the group's last-delivered position
    pending: map<EntryId, Delivery>,
    acked: set<EntryId>,
    rows: map<RowKey, Event>,
    floor: nat,                        // created_at values below this have no partition any more
    commits: multiset<Row>,            // every row that a COPY has ever put there
    deleted: multiset<string>,         // every deletion of a project's rows
    counted: multiset<Row>,            // samples applied to the realtime counters
    batches: map<BatchId, Batch>)

  datatype CopyOutcome = Committed | CommittedReplyLost | Failed

  datatype Step =
    | Tick(elapsed: nat)
    | Append(payload: Payload)
    | Read(b: BatchId, consumer: nat, n: nat, replyLost: bool)
    | Claim(b: BatchId, consumer: nat, replyLost: bool)
    | Transform(b: BatchId, at: seq<nat>)
    | Copy(b: BatchId, outcome: CopyOutcome)
    | Count(b: BatchId, applied: set<nat>)
    | Ack(b: BatchId, reached: bool)
    | Crash(b: BatchId)
    | DeleteRows(project: string)      // DeleteByProject
    | DropRows(before: nat)            // the maintainer drops partitions

  const Init: State := State(0, [], 0, map[], {}, map[], 0, multiset{}, multiset{}, multiset{}, map[])

  /** created_at is RequestIn, or the collector's clock when that is zero. The clock is read
      for each event anew. */
  function KeyOf(ev: Event, at: nat): RowKey {
    RowKey(ev.id, if ev.requestIn != 0 then ev.requestIn else at)
  }

  predicate Within(ids: seq<EntryId>, bound: nat) {
    forall i | 0 <= i < |ids| :: ids[i] < bound
  }

  function Rows(stream: seq<Payload>, ids: seq<EntryId>, at: seq<nat>): seq<Row>
    requires Within(ids, |stream|) && |at| == |ids|
  {
    if ids == [] then []
    else match stream[ids[0]]
         case Malformed => Rows(stream, ids[1..], at[1..])
         case Decoded(ev) => [(KeyOf(ev, at[0]), ev)] + Rows(stream, ids[1..], at[1..])
  }

  /** Readings of a clock between two moments, one for each of `n` messages in turn. */
  predicate Readings(at: seq<nat>, n: nat, from: nat, to: nat) {
    && |at| == n
    && (forall i | 0 <= i < n :: from <= at[i] <= to)
    && (forall i, j | 0 <= i < j < n :: at[i] <= at[j])
  }

  /** COPY is all or nothing under the primary key, and every row needs its partition. */
  predicate Insertable(rows: map<RowKey, Event>, floor: nat, batch: seq<Row>) {
    && (forall i, j | 0 <= i < j < |batch| :: batch[i].0 != batch[j].0)
    && (forall i | 0 <= i < |batch| :: batch[i].0 !in rows && floor <= batch[i].0.createdAt)
  }

  function WithRows(rows: map<RowKey, Event>, batch: seq<Row>): map<RowKey, Event> {
    if batch == [] then rows else WithRows(rows, batch[..|batch| - 1])[batch[|batch| - 1].0 := batch[|batch| - 1].1]
  }

  function Samples(batch: seq<Row>, applied: set<nat>): multiset<Row> {
    if batch == [] then multiset{}
    else Samples(batch[..|batch| - 1], applied) +
         (if |batch| - 1 in applied then multiset{batch[|batch| - 1]} else multiset{})
  }

  function Owners(ids: seq<EntryId>, consumer: nat, now: nat): map<EntryId, Delivery> {
    map id | id in ids :: Delivery(consumer, now)
  }

  /** The ids below `n`, in order. */
  function Ascending(ids: set<EntryId>, n: nat): (r: seq<EntryId>)
    ensures forall i | 0 <= i < |r| :: r[i] in ids && r[i] < n
    ensures forall i, j | 0 <= i < j < |r| :: r[i] < r[j]
    ensures forall id | id in ids && id < n :: id in r
  {
    if n == 0 then [] else Ascending(ids, n - 1) + (if n - 1 in ids then [n - 1] else [])
  }

  /** The `limit` lowest of the ids. */
  function Lowest(ids: set<EntryId>, limit: nat): set<EntryId> {
    set id <- ids | |Ascending(ids, id)| < limit
  }

  function Idle(c: Config, s: State, ids: set<EntryId>): set<EntryId> {
    set id <- ids | id in s.pending && s.pending[id].at + c.minIdle <= s.now
  }

  /** What XAUTOCLAIM from 0-0 takes: the lowest idle entries, up to COUNT, of those it looks at. */
  function Claimable(c: Config, s: State): set<EntryId> {
    Lowest(Idle(c, s, Lowest(s.pending.Keys, SCAN * c.batchSize)), c.batchSize)
  }

  function ClaimedIds(c: Config, s: State): seq<EntryId> {
    Ascending(Claimable(c, s), s.next)
  }

  function Range(start: nat, n: nat): seq<EntryId> {
    seq(n, i => start + i)
  }

  predicate Enabled(c: Config, s: State, step: Step) {
    match step
    case Tick(_) => true
    case Append(_) => true
    case Read(b, _, n, _) => b !in s.batches && 1 <= n <= c.batchSize && s.next + n <= |s.stream|
    case Claim(b, _, _) => b !in s.batches && ClaimedIds(c, s) != []
    case Transform(b, at) =>
      && BatchIn(s, b) && s.batches[b].phase.Received?
      && Readings(at, |s.batches[b].ids|, s.batches[b].since, s.now)
    case Copy(b, outcome) =>
      && BatchIn(s, b) && s.batches[b].phase.Transformed?
      && (outcome.Failed? || Insertable(s.rows, s.floor, Rows(s.stream, s.batches[b].ids, s.batches[b].phase.at)))
    case Count(b, _) => BatchIn(s, b) && s.batches[b].phase.Inserted?
    case Ack(b, _) => BatchIn(s, b) && s.batches[b].phase.Counted?
    case Crash(b) => b in s.batches
    case DeleteRows(project) => project != ""
    case DropRows(_) => true
  }

  /** Every message has its clock reading. */
  predicate Timed(batch: Batch) {
    batch.phase.Transformed? || batch.phase.Inserted? ==> |batch.phase.at| == |batch.ids|
  }

  predicate BatchIn(s: State, b: BatchId) {
    b in s.batches && Within(s.batches[b].ids, |s.stream|) && Timed(s.batches[b])
  }

  function Apply(c: Config, s: State, step: Step): State
    requires Enabled(c, s, step)
  {
    match step
    case Tick(d) => s.(now := s.now + d)
    case Append(p) => s.(stream := s.stream + [p])
    case Read(b, consumer, n, replyLost) => HandedTo(s.(next := s.next + n), b, consumer, Range(s.next, n), replyLost)
    case Claim(b, consumer, replyLost) => HandedTo(s, b, consumer, ClaimedIds(c, s), replyLost)
    case Transform(b, at) =>
      var batch := s.batches[b];
      s.(batches := s.batches[b := batch.(phase :=
                      if Rows(s.stream, batch.ids, at) == [] then Counted else Transformed(at))])
    case Copy(b, outcome) =>
      var batch := s.batches[b];
      var rows := if outcome.Failed? then [] else Rows(s.stream, batch.ids, batch.phase.at);
      s.(rows := WithRows(s.rows, rows), commits := s.commits + multiset(rows),
         batches := if outcome.Committed? then s.batches[b := batch.(phase := Inserted(batch.phase.at))]
                    else s.batches - {b})
    case Count(b, applied) =>
      var batch := s.batches[b];
      s.(counted := s.counted + Samples(Rows(s.stream, batch.ids, batch.phase.at), applied),
         batches := s.batches[b := batch.(phase := Counted)])
    case Ack(b, reached) =>
      var done := if reached then (set id | id in s.batches[b].ids && id in s.pending) else {};
      s.(pending := s.pending - done, acked := s.acked + done, batches := s.batches - {b})
    case Crash(b) => s.(batches := s.batches - {b})
    case DeleteRows(project) =>
      s.(rows := map k | k in s.rows && s.rows[k].projectId != project :: s.rows[k],
         deleted := s.deleted + multiset{project})
    case DropRows(before) =>
      var floor := if before > s.floor then before else s.floor;
      s.(rows := map k | k in s.rows && floor <= k.createdAt :: s.rows[k], floor := floor)
  }

  /** Entries handed to a consumer, whose delivery time starts anew. */
  function HandedTo(s: State, b: BatchId, consumer: nat, ids: seq<EntryId>, replyLost: bool): State {
    s.(pending := s.pending + Owners(ids, consumer, s.now),
       batches := if replyLost then s.batches else s.batches[b := Batch(consumer, s.now, ids, Received)])
  }

  ghost predicate Legal(c: Config, s: State, steps: seq<Step>)
    decreases |steps|
  {
    steps == [] || (Enabled(c, s, steps[0]) && Legal(c, Apply(c, s, steps[0]), steps[1..]))
  }

  ghost function Run(c: Config, s: State, steps: seq<Step>): State
    requires Legal(c, s, steps)
    decreases |steps|
  {
    if steps == [] then s else Run(c, Apply(c, s, steps[0]), steps[1..])
  }

  // ---------- facts about batches of rows ----------

  lemma {:induction false} RowsGrow(stream: seq<Payload>, more: seq<Payload>, ids: seq<EntryId>, at: seq<nat>)
    requires Within(ids, |stream|) && |at| == |ids|
    ensures Rows(stream + more, ids, at) == Rows(stream, ids, at)
  {
    if ids != [] {
      RowsGrow(stream, more, ids[1..], at[1..]);
    }
  }

  /** The rows of a batch are those of its decodable entries, no more and no fewer, each
      keyed with its own reading of the clock. */
  lemma {:induction false} RowsOf(stream: seq<Payload>, ids: seq<EntryId>, at: seq<nat>)
    requires Within(ids, |stream|) && |at| == |ids|
    ensures forall i | 0 <= i < |ids| && stream[ids[i]].Decoded? ::
              (KeyOf(stream[ids[i]].ev, at[i]), stream[ids[i]].ev) in Rows(stream, ids, at)
    ensures forall row <- Rows(stream, ids, at) :: exists i ::
              0 <= i < |ids| && stream[ids[i]] == Decoded(row.1) && row.0 == KeyOf(row.1, at[i])
  {
    if ids != [] {
      var rest := Rows(stream, ids[1..], at[1..]);
      RowsOf(stream, ids[1..], at[1..]);
      hide KeyOf;
      forall row <- Rows(stream, ids, at)
        ensures exists i :: 0 <= i < |ids| && stream[ids[i]] == Decoded(row.1) && row.0 == KeyOf(row.1, at[i])
      {
        if row in rest {
          var i :| 0 <= i < |ids[1..]| && stream[ids[1..][i]] == Decoded(row.1) && row.0 == KeyOf(row.1, at[1..][i]);
          assert ids[1..][i] == ids[i + 1] && at[1..][i] == at[i + 1];
        } else {
          assert stream[ids[0]] == Decoded(row.1) && row.0 == KeyOf(row.1, at[0]);
        }
      }
      forall i | 0 <= i < |ids| && stream[ids[i]].Decoded?
        ensures (KeyOf(stream[ids[i]].ev, at[i]), stream[ids[i]].ev) in Rows(stream, ids, at)
      {
        if i > 0 {
          assert ids[1..][i - 1] == ids[i] && at[1..][i - 1] == at[i];
        }
      }
    }
  }

  /** An event's row is keyed by its id and its RequestIn, in place of which a zero takes the
      clock; so two stamped events have one key exactly if they have one id and RequestIn. */
  lemma KeyTells(a: Event, b: Event, x: nat, y: nat)
    ensures KeyOf(a, x) == KeyOf(b, y) <==>
            a.id == b.id && (if a.requestIn != 0 then a.requestIn else x) == (if b.requestIn != 0 then b.requestIn else y)
    ensures a.requestIn != 0 ==> KeyOf(a, x).createdAt == a.requestIn
    ensures a.requestIn == 0 ==> KeyOf(a, x).createdAt == x
  {
  }

  /** A stamped entry's key does not depend on the clock. */
  lemma StampedRow(stream: seq<Payload>, ids: seq<EntryId>, at: seq<nat>, id: EntryId)
    requires Within(ids, |stream|) && |at| == |ids|
    requires id in ids && stream[id].Decoded? && stream[id].ev.requestIn != 0
    ensures (KeyOf(stream[id].ev, 0), stream[id].ev) in Rows(stream, ids, at)
  {
    RowsOf(stream, ids, at);
    var i :| 0 <= i < |ids| && ids[i] == id;
    assert stream[ids[i]].Decoded?;
  }

  lemma {:induction false} WithRowsHolds(rows: map<RowKey, Event>, batch: seq<Row>)
    requires forall i, j | 0 <= i < j < |batch| :: batch[i].0 != batch[j].0
    requires forall i | 0 <= i < |batch| :: batch[i].0 !in rows
    ensures forall k <- rows :: k in WithRows(rows, batch) && WithRows(rows, batch)[k] == rows[k]
    ensures forall row <- batch :: row.0 in WithRows(rows, batch) && WithRows(rows, batch)[row.0] == row.1
    ensures forall k <- WithRows(rows, batch) :: k in rows || (k, WithRows(rows, batch)[k]) in batch
  {
    if batch != [] {
      WithRowsHolds(rows, batch[..|batch| - 1]);
    }
  }

  lemma {:induction false} SamplesOnce(batch: seq<Row>, applied: set<nat>)
    requires forall i, j | 0 <= i < j < |batch| :: batch[i].0 != batch[j].0
    ensures forall row: Row :: Samples(batch, applied)[row] <= 1
    ensures forall row: Row :: row in Samples(batch, applied) ==> row in batch
  {
    if batch != [] {
      var init, last := batch[..|batch| - 1], batch[|batch| - 1];
      SamplesOnce(init, applied);
      assert last !in init;
    }
  }

  // ---------- what every step keeps ----------

  /** Every entry after group creation is exactly one of undelivered, pending, acked. */
  ghost predicate Accounted(s: State) {
    && s.next <= |s.stream|
    && (forall id :: id in s.pending || id in s.acked <==> 0 <= id < s.next)
    && (forall id | id in s.pending :: id !in s.acked)
    && (forall id | id in s.pending :: s.pending[id].at <= s.now)
  }

  /** Some COPY has put a row for the event into the table. */
  ghost predicate WasStored(s: State, ev: Event) {
    exists k :: (k, ev) in s.commits
  }

  /** The entry may be acknowledged: it never decoded, or its row was committed. */
  ghost predicate Done(s: State, id: EntryId) {
    id < |s.stream| && (s.stream[id].Decoded? ==> WasStored(s, s.stream[id].ev))
  }

  ghost predicate DistinctKeys(batch: seq<Row>) {
    forall i, j | 0 <= i < j < |batch| :: batch[i].0 != batch[j].0
  }

  ghost predicate BatchOk(s: State, batch: Batch) {
    && Within(batch.ids, s.next) && Timed(batch)
    && (batch.phase.Inserted? || batch.phase.Counted? ==> forall id <- batch.ids :: Done(s, id))
    && (batch.phase.Inserted? && Within(batch.ids, |s.stream|) ==>
          DistinctKeys(Rows(s.stream, batch.ids, batch.phase.at)))
  }

  ghost predicate BatchesOk(s: State) {
    forall b | b in s.batches :: BatchOk(s, s.batches[b])
  }

  /** The batch has inserted this row and has yet to count it. */
  ghost predicate Owes(s: State, b: BatchId, row: Row) {
    && BatchIn(s, b) && s.batches[b].phase.Inserted?
    && row in Rows(s.stream, s.batches[b].ids, s.batches[b].phase.at)
  }

  ghost function Owers(s: State, row: Row): set<BatchId> {
    set b | b in s.batches && Owes(s, b, row)
  }

  /** 1 while the key cannot be inserted again without a deletion. */
  function Standing(s: State, row: Row): nat {
    if row.0.createdAt < s.floor || (row.0 in s.rows && s.rows[row.0] == row.1) then 1 else 0
  }

  /** A row is counted at most as often as it was committed, and committed at most once
      more than its project was deleted. */
  ghost predicate Balanced(s: State, row: Row) {
    s.counted[row] + |Owers(s, row)| <= s.commits[row] <= Standing(s, row) + s.deleted[row.1.projectId]
  }

  ghost predicate AllBalanced(s: State) {
    forall row: Row :: Balanced(s, row)
  }

  ghost predicate KeysOk(s: State) {
    && (forall row: Row | row in s.commits && row.1.requestIn != 0 :: row.0 == KeyOf(row.1, 0))
    && (forall k | k in s.rows :: (k, s.rows[k]) in s.commits && s.floor <= k.createdAt)
  }

  ghost predicate Inv(s: State) {
    && Accounted(s)
    && BatchesOk(s)
    && (forall id | id in s.acked :: Done(s, id))
    && AllBalanced(s)
    && KeysOk(s)
  }

  lemma HistoryKept(c: Config, s: State, step: Step)
    requires Enabled(c, s, step)
    ensures var t := Apply(c, s, step);
            && s.stream <= t.stream && s.next <= t.next && s.commits <= t.commits && s.deleted <= t.deleted
            && (forall id: EntryId | Done(s, id) :: Done(t, id))
  {
    var t := Apply(c, s, step);
    forall id: EntryId | Done(s, id) ensures Done(t, id) {
      if s.stream[id].Decoded? {
        var k :| (k, s.stream[id].ev) in s.commits;
        assert (k, t.stream[id].ev) in t.commits;
      }
    }
  }

  lemma AccountedStep(c: Config, s: State, step: Step)
    requires Inv(s) && Enabled(c, s, step)
    ensures Accounted(Apply(c, s, step))
  {
    assert Accounted(s);
    assert step.Ack? ==> BatchIn(s, step.b) && step.b in s.batches;
    hide Inv, Apply, Enabled;
    if step.Read? {
      AccountedRead(c, s, step);
    } else if step.Claim? {
      AccountedClaim(c, s, step);
    } else if step.Ack? {
      AccountedAck(c, s, step);
    } else {
      ListsKept(c, s, step);
    }
  }

  lemma AccountedRead(c: Config, s: State, step: Step)
    requires Accounted(s) && Enabled(c, s, step) && step.Read?
    ensures Accounted(Apply(c, s, step))
  {
    var t := Apply(c, s, step);
    forall id ensures id in t.pending || id in t.acked <==> 0 <= id < t.next {
      if s.next <= id < t.next {
        assert id == Range(s.next, step.n)[id - s.next];
      }
    }
  }

  lemma AccountedClaim(c: Config, s: State, step: Step)
    requires Accounted(s) && Enabled(c, s, step) && step.Claim?
    ensures Accounted(Apply(c, s, step))
  {
    ClaimedArePending(c, s);
    hide ClaimedIds, Claimable;
  }

  lemma ClaimedArePending(c: Config, s: State)
    ensures forall id <- ClaimedIds(c, s) :: id in s.pending && id < s.next
  {
    hide Ascending;
    var looked := Lowest(s.pending.Keys, SCAN * c.batchSize);
    assert forall id <- Claimable(c, s) :: id in Idle(c, s, looked);
  }

  lemma AccountedAck(c: Config, s: State, step: Step)
    requires Accounted(s) && Enabled(c, s, step) && step.Ack?
    ensures Accounted(Apply(c, s, step))
  {
  }

  lemma ListsKept(c: Config, s: State, step: Step)
    requires Enabled(c, s, step) && !step.Read? && !step.Claim? && !step.Ack?
    ensures var t := Apply(c, s, step);
            && t.pending == s.pending && t.acked == s.acked && t.next == s.next
            && s.now <= t.now && |s.stream| <= |t.stream|
  {
    hide Rows, WithRows, Samples, Insertable;
  }

  lemma KeysJoin(s: State, t: State, batch: seq<Row>)
    requires KeysOk(s) && Insertable(s.rows, s.floor, batch) && t.floor == s.floor
    requires t.rows == WithRows(s.rows, batch) && t.commits == s.commits + multiset(batch)
    requires forall row <- batch :: row.1.requestIn != 0 ==> row.0 == KeyOf(row.1, 0)
    ensures KeysOk(t)
  {
    WithRowsHolds(s.rows, batch);
    forall row <- batch ensures s.floor <= row.0.createdAt {
      var i :| 0 <= i < |batch| && batch[i] == row;
    }
    hide WithRows, Insertable;
  }

  lemma KeysAfterCopy(c: Config, s: State, step: Step)
    requires KeysOk(s) && Enabled(c, s, step) && step.Copy? && !step.outcome.Failed?
    ensures KeysOk(Apply(c, s, step))
  {
    var batch := s.batches[step.b];
    RowsOf(s.stream, batch.ids, batch.phase.at);
    hide Rows, WithRows, Insertable, KeysOk;
    KeysJoin(s, Apply(c, s, step), Rows(s.stream, batch.ids, batch.phase.at));
  }

  lemma KeysStep(c: Config, s: State, step: Step)
    requires KeysOk(s) && Enabled(c, s, step)
    ensures KeysOk(Apply(c, s, step))
  {
    if step.Copy? && !step.outcome.Failed? {
      KeysAfterCopy(c, s, step);
    } else {
      RowsOnlyGo(c, s, step);
      hide Apply, Enabled;
    }
  }

  /** But for a COPY, rows only leave the table, and with their month if it is dropped. */
  lemma RowsOnlyGo(c: Config, s: State, step: Step)
    requires Enabled(c, s, step) && !(step.Copy? && !step.outcome.Failed?)
    ensures var t := Apply(c, s, step);
            && t.commits == s.commits && (t.floor == s.floor || step.DropRows?)
            && (forall k | k in t.rows :: k in s.rows && t.rows[k] == s.rows[k])
            && (step.DropRows? ==> forall k | k in t.rows :: t.floor <= k.createdAt)
  {
    hide Rows, Samples, Claimable, Ascending, Insertable;
  }

  lemma DoneAfterCopy(c: Config, s: State, step: Step)
    requires Enabled(c, s, step) && step.Copy? && step.outcome.Committed?
    ensures forall id <- s.batches[step.b].ids :: Done(Apply(c, s, step), id)
  {
    var batch, t := s.batches[step.b], Apply(c, s, step);
    var rows := Rows(s.stream, batch.ids, batch.phase.at);
    RowsOf(s.stream, batch.ids, batch.phase.at);
    forall id <- batch.ids ensures Done(t, id) {
      if s.stream[id].Decoded? {
        var i :| 0 <= i < |batch.ids| && batch.ids[i] == id;
        var row := (KeyOf(s.stream[batch.ids[i]].ev, batch.phase.at[i]), s.stream[id].ev);
        assert row in rows && row in t.commits;
      }
    }
  }

  lemma BatchStays(s: State, t: State, batch: Batch)
    requires BatchOk(s, batch) && s.stream <= t.stream && s.next <= t.next <= |t.stream| && s.next <= |s.stream|
    requires forall id: EntryId | Done(s, id) :: Done(t, id)
    ensures BatchOk(t, batch)
  {
    hide Done;
    if batch.phase.Inserted? {
      assert t.stream == s.stream + t.stream[|s.stream|..];
      RowsGrow(s.stream, t.stream[|s.stream|..], batch.ids, batch.phase.at);
    }
  }

  /** What can have become of a batch. */
  lemma BatchBecomes(c: Config, s: State, step: Step, b: BatchId)
    requires Accounted(s) && Enabled(c, s, step) && b in Apply(c, s, step).batches
    ensures var t := Apply(c, s, step);
            || (b !in s.batches && t.batches[b].phase.Received? && Within(t.batches[b].ids, t.next))
            || (b in s.batches && t.batches[b] == s.batches[b])
            || (step.Transform? && step.b == b && BatchIn(s, b) && |step.at| == |s.batches[b].ids| && t.stream == s.stream
                && t.batches[b] == s.batches[b].(phase :=
                     if Rows(s.stream, s.batches[b].ids, step.at) == [] then Counted else Transformed(step.at)))
            || (step == Copy(b, Committed) && BatchIn(s, b) && s.batches[b].phase.Transformed? && t.stream == s.stream
                && t.batches[b] == s.batches[b].(phase := Inserted(s.batches[b].phase.at)))
            || (step.Count? && step.b == b && BatchIn(s, b) && s.batches[b].phase.Inserted?
                && t.batches[b] == s.batches[b].(phase := Counted))
  {
    hide Rows, Samples, WithRows, Claimable;
  }

  /** A batch without rows has nothing but entries that do not decode. */
  lemma NoRowsIsDone(s: State, ids: seq<EntryId>, at: seq<nat>)
    requires Within(ids, |s.stream|) && |at| == |ids|
    ensures Rows(s.stream, ids, at) == [] ==> forall id <- ids :: s.stream[id].Malformed? && Done(s, id)
  {
    RowsOf(s.stream, ids, at);
    forall id | id in ids && Rows(s.stream, ids, at) == [] ensures s.stream[id].Malformed? {
      var i :| 0 <= i < |ids| && ids[i] == id;
      assert !s.stream[ids[i]].Decoded?;
    }
  }

  lemma BatchStep(c: Config, s: State, step: Step, b: BatchId)
    requires Inv(s) && Enabled(c, s, step) && b in Apply(c, s, step).batches
    ensures BatchOk(Apply(c, s, step), Apply(c, s, step).batches[b])
  {
    var t := Apply(c, s, step);
    HistoryKept(c, s, step);
    AccountedStep(c, s, step);
    assert Accounted(s) && Accounted(t) && (b in s.batches ==> BatchOk(s, s.batches[b]));
    hide Inv, Apply, Enabled, Done, BatchOk;
    if b in s.batches && t.batches[b] == s.batches[b] {
      BatchStays(s, t, s.batches[b]);
    } else {
      BatchChanged(c, s, step, b);
    }
  }

  lemma BatchChanged(c: Config, s: State, step: Step, b: BatchId)
    requires Inv(s) && Enabled(c, s, step) && Accounted(Apply(c, s, step))
    requires b in Apply(c, s, step).batches && (b in s.batches ==> Apply(c, s, step).batches[b] != s.batches[b])
    ensures BatchOk(Apply(c, s, step), Apply(c, s, step).batches[b])
  {
    HistoryKept(c, s, step);
    BatchBecomes(c, s, step, b);
    assert b in s.batches ==> BatchOk(s, s.batches[b]);
    if step == Copy(b, Committed) {
      BatchCopied(c, s, step);
    } else {
      if step.Transform? && step.b == b {
        NoRowsIsDone(s, s.batches[b].ids, step.at);
      }
      hide Inv, Apply, Enabled, Done, Rows, DistinctKeys;
    }
  }

  lemma BatchCopied(c: Config, s: State, step: Step)
    requires Inv(s) && Enabled(c, s, step) && step.Copy? && step.outcome.Committed?
    ensures step.b in Apply(c, s, step).batches && BatchOk(Apply(c, s, step), Apply(c, s, step).batches[step.b])
  {
    assert BatchOk(s, s.batches[step.b]);
    DoneAfterCopy(c, s, step);
    assert DistinctKeys(Rows(s.stream, s.batches[step.b].ids, s.batches[step.b].phase.at));
    hide Inv, Done, Rows, DistinctKeys, Insertable, WithRows;
  }

  lemma BatchesStep(c: Config, s: State, step: Step)
    requires Inv(s) && Enabled(c, s, step)
    ensures BatchesOk(Apply(c, s, step))
  {
    var t := Apply(c, s, step);
    hide Apply, Enabled, Inv, BatchOk;
    forall b | b in t.batches ensures BatchOk(t, t.batches[b]) {
      BatchStep(c, s, step, b);
    }
  }

  lemma AckedStep(c: Config, s: State, step: Step)
    requires Inv(s) && Enabled(c, s, step)
    ensures var t := Apply(c, s, step); forall id | id in t.acked :: Done(t, id)
  {
    HistoryKept(c, s, step);
    if step.Ack? {
      assert BatchOk(s, s.batches[step.b]);
    }
    hide Done;
  }

  // ---------- counting ----------

  /** Who owes a row changes only when a batch inserts it, or counts, or is gone. */
  lemma OwersKept(c: Config, s: State, step: Step, row: Row)
    requires Inv(s) && Enabled(c, s, step)
    requires !step.Copy? && !step.Count? && !step.Crash? && !step.Ack?
    ensures Owers(Apply(c, s, step), row) == Owers(s, row)
  {
    var t := Apply(c, s, step);
    forall b ensures b in t.batches && Owes(t, b, row) <==> b in s.batches && Owes(s, b, row) {
      if b in s.batches && step.Append? {
        assert BatchOk(s, s.batches[b]);
        if s.batches[b].phase.Inserted? {
          RowsGrow(s.stream, [step.payload], s.batches[b].ids, s.batches[b].phase.at);
        }
      }
    }
  }

  lemma BalancedKept(c: Config, s: State, step: Step, row: Row)
    requires Inv(s) && Enabled(c, s, step)
    requires !step.Copy? && !step.Count? && !step.Crash? && !step.Ack?
    ensures Balanced(Apply(c, s, step), row)
  {
    OwersKept(c, s, step, row);
    assert Balanced(s, row);
    hide Owers, Rows, Claimable, Ascending;
  }

  lemma BalancedGone(c: Config, s: State, step: Step, row: Row)
    requires Inv(s) && Enabled(c, s, step) && (step.Crash? || step.Ack?)
    ensures Balanced(Apply(c, s, step), row)
  {
    var t := Apply(c, s, step);
    assert Balanced(s, row);
    hide Rows, Inv;
    assert Owers(t, row) <= Owers(s, row);
    hide Owers;
    Smaller(Owers(t, row), Owers(s, row));
  }

  lemma {:induction false} Smaller<T>(a: set<T>, b: set<T>)
    requires a <= b
    ensures |a| <= |b|
  {
    assert b == a + (b - a);
  }

  lemma {:induction false} AtMostOne(batch: seq<Row>, row: Row)
    requires DistinctKeys(batch)
    ensures multiset(batch)[row] == if row in batch then 1 else 0
  {
    if batch != [] {
      var n := |batch| - 1;
      assert batch == batch[..n] + [batch[n]];
      AtMostOne(batch[..n], row);
    }
  }

  lemma OwersAfterCopy(c: Config, s: State, step: Step, row: Row)
    requires Enabled(c, s, step) && step.Copy?
    ensures var batch := s.batches[step.b];
            Owers(Apply(c, s, step), row) ==
            if step.outcome.Committed? && row in Rows(s.stream, batch.ids, batch.phase.at)
            then Owers(s, row) + {step.b} else Owers(s, row)
    ensures step.b !in Owers(s, row)
  {
    hide Rows, WithRows, Insertable;
  }

  lemma StandingAfterCopy(c: Config, s: State, step: Step, row: Row)
    requires Enabled(c, s, step) && step.Copy? && !step.outcome.Failed?
    ensures var t, batch := Apply(c, s, step), s.batches[step.b];
            var rows := Rows(s.stream, batch.ids, batch.phase.at);
            && DistinctKeys(rows)
            && Standing(s, row) + (if row in rows then 1 else 0) <= Standing(t, row)
  {
    var batch := s.batches[step.b];
    var rows := Rows(s.stream, batch.ids, batch.phase.at);
    WithRowsHolds(s.rows, rows);
    hide Rows, WithRows;
  }

  lemma BalancedCopy(c: Config, s: State, step: Step, row: Row)
    requires Inv(s) && Enabled(c, s, step) && step.Copy?
    ensures Balanced(Apply(c, s, step), row)
  {
    var t, batch := Apply(c, s, step), s.batches[step.b];
    assert Balanced(s, row);
    OwersAfterCopy(c, s, step, row);
    var rows := if step.outcome.Failed? then [] else Rows(s.stream, batch.ids, batch.phase.at);
    assert t.commits == s.commits + multiset(rows) && t.counted == s.counted && t.deleted == s.deleted;
    if step.outcome.Failed? {
      assert Standing(t, row) == Standing(s, row);
    } else {
      StandingAfterCopy(c, s, step, row);
      AtMostOne(rows, row);
    }
    hide Owers, Rows, Apply, Enabled, Standing, Inv, DistinctKeys;
  }

  lemma BalancedCount(c: Config, s: State, step: Step, row: Row)
    requires Inv(s) && Enabled(c, s, step) && step.Count?
    ensures Balanced(Apply(c, s, step), row)
  {
    var t, batch := Apply(c, s, step), s.batches[step.b];
    assert Balanced(s, row) && BatchOk(s, batch);
    var rows := Rows(s.stream, batch.ids, batch.phase.at);
    SamplesOnce(rows, step.applied);
    assert Owers(t, row) == Owers(s, row) - {step.b} by {
      hide Rows, Samples;
    }
    assert row in rows ==> step.b in Owers(s, row);
    hide Owers, Rows, Samples, BatchOk;
  }

  lemma BalancedStep(c: Config, s: State, step: Step)
    requires Inv(s) && Enabled(c, s, step)
    ensures AllBalanced(Apply(c, s, step))
  {
    hide Balanced, Apply, Enabled, Inv;
    forall row: Row ensures Balanced(Apply(c, s, step), row) {
      if step.Copy? {
        BalancedCopy(c, s, step, row);
      } else if step.Count? {
        BalancedCount(c, s, step, row);
      } else if step.Crash? || step.Ack? {
        BalancedGone(c, s, step, row);
      } else {
        BalancedKept(c, s, step, row);
      }
    }
  }

  lemma InvStep(c: Config, s: State, step: Step)
    requires Inv(s) && Enabled(c, s, step)
    ensures Inv(Apply(c, s, step))
  {
    AccountedStep(c, s, step);
    BatchesStep(c, s, step);
    AckedStep(c, s, step);
    BalancedStep(c, s, step);
    KeysStep(c, s, step);
    hide Apply, Enabled, Accounted, BatchesOk, AllBalanced, KeysOk, Done;
  }

  lemma {:induction false} InvRun(c: Config, s: State, steps: seq<Step>)
    requires Inv(s) && Legal(c, s, steps)
    ensures Inv(Run(c, s, steps))
    decreases |steps|
  {
    hide Inv, Apply, Enabled;
    if steps != [] {
      InvStep(c, s, steps[0]);
      InvRun(c, Apply(c, s, steps[0]), steps[1..]);
    }
  }

  lemma InvInit()
    ensures Inv(Init)
  {
    forall row: Row ensures Balanced(Init, row) {
      assert Owers(Init, row) == {};
    }
  }

  /** Ack safety, over every run. */
  lemma AckSafety(c: Config, steps: seq<Step>, id: EntryId)
    requires Legal(c, Init, steps) && id < |Run(c, Init, steps).stream|
    ensures var s := Run(c, Init, steps);
            && (id >= s.next <==> id !in s.pending && id !in s.acked)
            && !(id in s.pending && id in s.acked)
            && (id in s.acked && s.stream[id].Decoded? ==> WasStored(s, s.stream[id].ev))
  {
    InvInit();
    InvRun(c, Init, steps);
  }

  /** One row at a time, and at most one count for the event and one for each deletion of
      its project. */
  ghost predicate AtMostOnce(s: State, ev: Event) {
    && (forall k, k' | k in s.rows && k' in s.rows && s.rows[k] == s.rows[k'] == ev :: k == k')
    && (forall k, k' | (k, ev) in s.counted && (k', ev) in s.counted :: k == k')
    && (forall k :: s.counted[(k, ev)] <= 1 + s.deleted[ev.projectId])
  }

  /** At most one row and one count per event, whatever the collectors do to each other,
      as long as nobody deletes its project's rows. */
  lemma StampedOnce(c: Config, steps: seq<Step>, ev: Event)
    requires Legal(c, Init, steps) && ev.requestIn != 0
    ensures AtMostOnce(Run(c, Init, steps), ev)
  {
    InvInit();
    InvRun(c, Init, steps);
    var s := Run(c, Init, steps);
    forall k: RowKey ensures s.counted[(k, ev)] <= 1 + s.deleted[ev.projectId] && ((k, ev) in s.counted ==> (k, ev) in s.commits) {
      assert Balanced(s, (k, ev));
    }
  }
}
