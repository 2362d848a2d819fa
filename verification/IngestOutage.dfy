/**
What becomes of the pending entries after an outage: which of them can still be
acknowledged without anyone deleting their project. XAUTOCLAIM takes the lowest idle
entries, so after an outage the pending list falls into blocks of the batch size that
stay together for good, and only the first ten of them are ever looked at.
*/
module IngestOutage {
  import opened Ingest
  import opened IngestLimits
  import opened Blocks

  /** No collector is at work, nor has one been for the idle limit. */
  ghost predicate Outage(c: Config, s: State) {
    s.batches == map[] && forall id | id in s.pending :: s.pending[id].at + c.minIdle <= s.now
  }

  /** The pending list in blocks of the batch size. */
  function BlocksOf(c: Config, s: State): seq<seq<EntryId>>
    requires 1 <= c.batchSize
  {
    Cut(Ascending(s.pending.Keys, s.next), c.batchSize)
  }

  predicate Stamped(s: State, id: EntryId) {
    id < |s.stream| && s.stream[id].Decoded? && s.stream[id].ev.requestIn != 0
  }

  /** The entry's key is in the table, or its partition is gone. */
  predicate Taken(s: State, id: EntryId)
    requires Stamped(s, id)
  {
    var key := KeyOf(s.stream[id].ev, 0);
    key.createdAt < s.floor || key in s.rows
  }

  /** Two entries whose rows have the same key, whatever the clock says. Events without a
      RequestIn have no twins: each row takes its own reading of the clock. */
  predicate Twins(s: State, a: EntryId, b: EntryId) {
    && Stamped(s, a) && Stamped(s, b) && a != b
    && KeyOf(s.stream[a].ev, 0) == KeyOf(s.stream[b].ev, 0)
  }

  /** Some entry of `a` and some entry of `b` exclude each other. */
  ghost predicate Clash(s: State, a: seq<EntryId>, b: seq<EntryId>) {
    exists i, j | 0 <= i < |a| && 0 <= j < |b| :: Twins(s, a[i], b[j])
  }

  ghost predicate SomeTaken(s: State, block: seq<EntryId>) {
    exists i | 0 <= i < |block| :: Stamped(s, block[i]) && Taken(s, block[i])
  }

  /** The entries cannot be inserted together. */
  ghost predicate Unsound(s: State, block: seq<EntryId>) {
    SomeTaken(s, block) || Clash(s, block, block)
  }

  // ---------- an unsound block is never inserted ----------

  lemma {:induction false} RowsJoin(stream: seq<Payload>, a: seq<EntryId>, b: seq<EntryId>, x: seq<nat>, y: seq<nat>)
    requires Within(a, |stream|) && Within(b, |stream|) && |x| == |a| && |y| == |b|
    ensures Within(a + b, |stream|)
    ensures Rows(stream, a + b, x + y) == Rows(stream, a, x) + Rows(stream, b, y)
  {
    if a == [] {
      assert a + b == b && x + y == y;
    } else {
      assert (a + b)[1..] == a[1..] + b && (x + y)[1..] == x[1..] + y;
      RowsJoin(stream, a[1..], b, x[1..], y);
      var first := if stream[a[0]].Malformed? then [] else [(KeyOf(stream[a[0]].ev, x[0]), stream[a[0]].ev)];
      var rest, more := Rows(stream, a[1..], x[1..]), Rows(stream, b, y);
      assert first + (rest + more) == (first + rest) + more;
      hide KeyOf;
    }
  }

  /** The part of the rows that comes of the entries before `i`, the row of entry `i`, and
      what follows. */
  lemma RowAt(stream: seq<Payload>, ids: seq<EntryId>, at: seq<nat>, i: nat)
    requires Within(ids, |stream|) && |at| == |ids| && i < |ids| && stream[ids[i]].Decoded?
    ensures Within(ids[..i], |stream|) && Within(ids[i + 1..], |stream|)
    ensures Rows(stream, ids, at) == Rows(stream, ids[..i], at[..i]) +
            ([(KeyOf(stream[ids[i]].ev, at[i]), stream[ids[i]].ev)] + Rows(stream, ids[i + 1..], at[i + 1..]))
  {
    hide Rows, KeyOf;
    assert ids == ids[..i] + ids[i..] && at == at[..i] + at[i..];
    RowsJoin(stream, ids[..i], ids[i..], at[..i], at[i..]);
    assert ids[i..][1..] == ids[i + 1..] && at[i..][1..] == at[i + 1..];
    FirstRow(stream, ids[i..], at[i..]);
  }

  lemma FirstRow(stream: seq<Payload>, ids: seq<EntryId>, at: seq<nat>)
    requires Within(ids, |stream|) && |at| == |ids| && ids != [] && stream[ids[0]].Decoded?
    ensures Within(ids[1..], |stream|)
    ensures Rows(stream, ids, at) ==
            [(KeyOf(stream[ids[0]].ev, at[0]), stream[ids[0]].ev)] + Rows(stream, ids[1..], at[1..])
  {
  }

  lemma TwinsClash(s: State, ids: seq<EntryId>, at: seq<nat>, i: nat, j: nat)
    requires Within(ids, |s.stream|) && |at| == |ids| && i < j < |ids| && Twins(s, ids[i], ids[j])
    ensures !DistinctKeys(Rows(s.stream, ids, at))
  {
    RowAt(s.stream, ids, at, i);
    var rows, first := Rows(s.stream, ids, at), Rows(s.stream, ids[..i], at[..i]);
    var rest, times := ids[i + 1..], at[i + 1..];
    var n := j - (i + 1);
    assert rest[n] == ids[j];
    RowAt(s.stream, rest, times, n);
    var second := Rows(s.stream, rest[..n], times[..n]);
    hide Rows;
    assert rows[|first|].0 == KeyOf(s.stream[ids[i]].ev, 0);
    assert rows[|first| + 1 + |second|].0 == KeyOf(s.stream[ids[j]].ev, 0);
  }

  lemma TakenIsNotInserted(s: State, ids: seq<EntryId>, at: seq<nat>, id: EntryId)
    requires Within(ids, |s.stream|) && |at| == |ids| && id in ids && Stamped(s, id) && Taken(s, id)
    ensures !Insertable(s.rows, s.floor, Rows(s.stream, ids, at))
  {
    StampedRow(s.stream, ids, at, id);
    hide Rows;
    var row := (KeyOf(s.stream[id].ev, 0), s.stream[id].ev);
    var i :| 0 <= i < |Rows(s.stream, ids, at)| && Rows(s.stream, ids, at)[i] == row;
  }

  /** What can be inserted together is sound. */
  lemma InsertableIsSound(s: State, ids: seq<EntryId>, at: seq<nat>)
    requires Within(ids, |s.stream|) && |at| == |ids| && Insertable(s.rows, s.floor, Rows(s.stream, ids, at))
    ensures !Unsound(s, ids)
  {
    assert DistinctKeys(Rows(s.stream, ids, at));
    hide Rows, Insertable, DistinctKeys, Taken, Twins;
    forall i | 0 <= i < |ids| && Stamped(s, ids[i]) ensures !Taken(s, ids[i]) {
      if Taken(s, ids[i]) {
        TakenIsNotInserted(s, ids, at, ids[i]);
      }
    }
    forall i, j | 0 <= i < |ids| && 0 <= j < |ids| ensures !Twins(s, ids[i], ids[j]) {
      NoTwinsIn(s, ids, at, i, j);
    }
  }

  lemma NoTwinsIn(s: State, ids: seq<EntryId>, at: seq<nat>, i: nat, j: nat)
    requires Within(ids, |s.stream|) && |at| == |ids| && DistinctKeys(Rows(s.stream, ids, at)) && i < |ids| && j < |ids|
    ensures !Twins(s, ids[i], ids[j])
  {
    hide Rows, DistinctKeys;
    if Twins(s, ids[i], ids[j]) {
      TwinsClash(s, ids, at, if i < j then i else j, if i < j then j else i);
    }
  }

  lemma TakenStaysTaken(c: Config, s: State, step: Step, id: EntryId)
    requires Enabled(c, s, step) && !step.DeleteRows? && Stamped(s, id) && Taken(s, id)
    ensures Stamped(Apply(c, s, step), id) && Taken(Apply(c, s, step), id)
  {
    if step.Copy? && !step.outcome.Failed? {
      var batch := s.batches[step.b];
      WithRowsHolds(s.rows, Rows(s.stream, batch.ids, batch.phase.at));
    }
    hide Rows, WithRows, Claimable;
  }

  // ---------- blocks stay together ----------

  function IdSet(ids: seq<EntryId>): set<EntryId> {
    set id <- ids
  }

  predicate IsIdle(c: Config, s: State, id: EntryId) {
    id in s.pending && s.pending[id].at + c.minIdle <= s.now
  }

  /** The entries of a block came to their consumer together, or have all been idle since
      the outage. */
  ghost predicate SameTimes(c: Config, s: State, bs: seq<seq<EntryId>>) {
    forall j, p | 0 <= j < |bs| && 0 <= p < |bs[j]| && bs[j][0] in s.pending ::
      bs[j][p] in s.pending && (s.pending[bs[j][p]].at == s.pending[bs[j][0]].at
                                || (IsIdle(c, s, bs[j][p]) && IsIdle(c, s, bs[j][0])))
  }

  ghost predicate Kept(c: Config, s: State, bs: seq<seq<EntryId>>, n: nat) {
    && Blocked(bs, c.batchSize, n) && n <= s.next
    && Whole(s.pending.Keys, bs, n)
    && SameTimes(c, s, bs)
    && (forall b | b in s.batches :: Whole(IdSet(s.batches[b].ids), bs, n))
  }

  lemma IdleIsWhole(c: Config, s: State, ids: set<EntryId>, bs: seq<seq<EntryId>>, n: nat)
    requires Whole(ids, bs, n) && SameTimes(c, s, bs) && ids <= s.pending.Keys
    ensures Whole(Idle(c, s, ids), bs, n)
  {
  }

  lemma ClaimIsWhole(c: Config, s: State, bs: seq<seq<EntryId>>, n: nat)
    requires Kept(c, s, bs, n)
    ensures Whole(Claimable(c, s), bs, n)
    ensures Claimable(c, s) <= Idle(c, s, Lowest(s.pending.Keys, SCAN * c.batchSize)) <= s.pending.Keys
  {
    var window := Lowest(s.pending.Keys, SCAN * c.batchSize);
    LowestIsWhole(s.pending.Keys, bs, c.batchSize, n, SCAN);
    IdleIsWhole(c, s, window, bs, n);
    LowestIsWhole(Idle(c, s, window), bs, c.batchSize, n, 1);
    assert 1 * c.batchSize == c.batchSize;
    hide Whole, Ascending;
  }

  lemma ClaimedSet(c: Config, s: State)
    requires Accounted(s)
    ensures IdSet(ClaimedIds(c, s)) == Claimable(c, s)
  {
    forall id | id in Claimable(c, s) ensures id in ClaimedIds(c, s) {
      assert id in s.pending;
    }
    hide Claimable, Ascending;
  }

  /** Whole sets of entries given to a consumer together leave whole sets. */
  lemma DeliveryKeeps(c: Config, s: State, t: State, bs: seq<seq<EntryId>>, n: nat, b: BatchId, consumer: nat,
                      ids: seq<EntryId>, replyLost: bool)
    requires Kept(c, s, bs, n) && Whole(IdSet(ids), bs, n) && n <= t.next
    requires t.pending == s.pending + Owners(ids, consumer, s.now) && t.now == s.now
    requires t.batches == if replyLost then s.batches else s.batches[b := Batch(consumer, s.now, ids, Received)]
    requires forall j | 0 <= j < |bs| && bs[j][0] in IdSet(ids) :: bs[j][0] in s.pending
    ensures Kept(c, t, bs, n)
  {
    hide Blocked;
    assert t.pending.Keys == s.pending.Keys + IdSet(ids);
    assert forall id | id in t.pending :: t.pending[id] == if id in IdSet(ids) then Delivery(consumer, s.now) else s.pending[id];
    assert Whole(t.pending.Keys, bs, n);
  }

  lemma KeptStep(c: Config, s: State, step: Step, bs: seq<seq<EntryId>>, n: nat)
    requires Inv(s) && Kept(c, s, bs, n) && Enabled(c, s, step)
    ensures Kept(c, Apply(c, s, step), bs, n)
  {
    if step.Claim? {
      ClaimKeeps(c, s, step, bs, n);
    } else if step.Read? {
      ReadKeeps(c, s, step, bs, n);
    } else if step.Ack? {
      AckKeeps(c, s, step, bs, n);
    } else {
      BatchesShrink(c, s, step);
      OnlyTimePasses(c, s, step);
      hide Inv, Blocked, Whole, Apply, Enabled;
    }
  }

  lemma OnlyTimePasses(c: Config, s: State, step: Step)
    requires Enabled(c, s, step) && !step.Claim? && !step.Read? && !step.Ack?
    ensures var t := Apply(c, s, step); t.pending == s.pending && t.next == s.next && t.now >= s.now
  {
    hide Rows, WithRows, Samples;
  }

  lemma ClaimKeeps(c: Config, s: State, step: Step, bs: seq<seq<EntryId>>, n: nat)
    requires Accounted(s) && Kept(c, s, bs, n) && Enabled(c, s, step) && step.Claim?
    ensures Kept(c, Apply(c, s, step), bs, n)
  {
    ClaimIsWhole(c, s, bs, n);
    ClaimedSet(c, s);
    hide Claimable, ClaimedIds, Blocked, Whole, Accounted, Idle, Lowest;
    DeliveryKeeps(c, s, Apply(c, s, step), bs, n, step.b, step.consumer, ClaimedIds(c, s), step.replyLost);
  }

  lemma ReadKeeps(c: Config, s: State, step: Step, bs: seq<seq<EntryId>>, n: nat)
    requires Kept(c, s, bs, n) && Enabled(c, s, step) && step.Read?
    ensures Kept(c, Apply(c, s, step), bs, n)
  {
    var ids := Range(s.next, step.n);
    assert forall id | id in IdSet(ids) :: id >= n;
    assert Whole(IdSet(ids), bs, n) && forall j | 0 <= j < |bs| :: bs[j][0] < n;
    hide Blocked, Whole;
    DeliveryKeeps(c, s, Apply(c, s, step), bs, n, step.b, step.consumer, ids, step.replyLost);
  }

  lemma AckKeeps(c: Config, s: State, step: Step, bs: seq<seq<EntryId>>, n: nat)
    requires Kept(c, s, bs, n) && Enabled(c, s, step) && step.Ack?
    ensures Kept(c, Apply(c, s, step), bs, n)
  {
    var t, ids := Apply(c, s, step), s.batches[step.b].ids;
    var done := if step.reached then IdSet(ids) else {};
    assert Whole(IdSet(ids), bs, n) && Whole(s.pending.Keys, bs, n) && SameTimes(c, s, bs);
    AckTakes(c, s, step);
    BatchesShrink(c, s, step);
    WholeMinus(s.pending.Keys, done, IdSet(ids), bs, n);
    assert forall j, p | 0 <= j < |bs| && 0 <= p < |bs[j]| && bs[j][0] in t.pending :: bs[j][p] in t.pending by {
      assert Whole(t.pending.Keys, bs, n);
    }
    hide Blocked, Apply, Enabled, Whole;
    LessTimes(c, s, t, bs);
  }

  lemma AckTakes(c: Config, s: State, step: Step)
    requires Enabled(c, s, step) && step.Ack?
    ensures var t, done := Apply(c, s, step), if step.reached then IdSet(s.batches[step.b].ids) else {};
            t.pending == s.pending - done && t.pending.Keys == s.pending.Keys - done && t.next == s.next && t.now == s.now
  {
  }

  lemma WholeMinus(ids: set<EntryId>, less: set<EntryId>, all: set<EntryId>, bs: seq<seq<EntryId>>, n: nat)
    requires Whole(ids, bs, n) && Whole(all, bs, n) && (less == all || less == {})
    ensures Whole(ids - less, bs, n)
  {
  }

  lemma LessTimes(c: Config, s: State, t: State, bs: seq<seq<EntryId>>)
    requires SameTimes(c, s, bs) && t.now == s.now
    requires forall id | id in t.pending :: id in s.pending && t.pending[id] == s.pending[id]
    requires forall j, p | 0 <= j < |bs| && 0 <= p < |bs[j]| && bs[j][0] in t.pending :: bs[j][p] in t.pending
    ensures SameTimes(c, t, bs)
  {
  }

  lemma BatchesShrink(c: Config, s: State, step: Step)
    requires Enabled(c, s, step) && !step.Claim? && !step.Read?
    ensures var t := Apply(c, s, step); forall b | b in t.batches :: b in s.batches && t.batches[b].ids == s.batches[b].ids
  {
    hide Rows, WithRows, Samples;
  }

  // ---------- which blocks can get through ----------

  /** The block is acknowledged, or in a batch that has got past its COPY. */
  ghost predicate Past(s: State, block: seq<EntryId>)
    requires block != []
  {
    block[0] in s.acked || PastCopy(s, block[0])
  }

  /** A collector has, or had, the block in hand. */
  ghost predicate Reached(s: State, block: seq<EntryId>)
    requires block != []
  {
    block[0] in s.acked || exists b :: b in s.batches && block[0] in s.batches[b].ids
  }

  ghost predicate AllTaken(s: State, block: seq<EntryId>) {
    forall i | 0 <= i < |block| && Stamped(s, block[i]) :: Taken(s, block[i])
  }

  /** What was taken at the outage still is. A block that got past was sound then, its keys
      are taken now, and no other such block clashes with it. */
  ghost predicate PastIsSound(from: State, s: State, bs: seq<seq<EntryId>>) {
    && from.stream <= s.stream
    && (forall j | 0 <= j < |bs| :: bs[j] != [] && Within(bs[j], |from.stream|))
    && (forall j | 0 <= j < |bs| && SomeTaken(from, bs[j]) :: SomeTaken(s, bs[j]))
    && (forall j | 0 <= j < |bs| && Past(s, bs[j]) :: !Unsound(from, bs[j]) && AllTaken(s, bs[j]))
    && (forall i, j | 0 <= i < |bs| && 0 <= j < |bs| && i != j && Past(s, bs[i]) && Past(s, bs[j]) ::
          !Clash(from, bs[i], bs[j]))
  }

  /** No more than ten blocks are ever looked at: a block that was reached had fewer than
      ten pending ones below it. */
  ghost predicate ReachedInTime(s: State, bs: seq<seq<EntryId>>) {
    forall j | 0 <= j < |bs| :: bs[j] != [] && (Reached(s, bs[j]) ==> PresentBelow(s.pending.Keys, bs, j) < SCAN)
  }
  /** The step in which a batch gets past its COPY, or finds nothing to insert. */
  ghost predicate GoesPast(c: Config, s: State, step: Step)
    requires Enabled(c, s, step)
  {
    (step.Copy? && step.outcome.Committed?) || (step.Transform? && Rows(s.stream, s.batches[step.b].ids, step.at) == [])
  }

  lemma PastBecomes(c: Config, s: State, step: Step, block: seq<EntryId>)
    requires Accounted(s) && Enabled(c, s, step) && block != [] && Past(Apply(c, s, step), block) && !Past(s, block)
    ensures GoesPast(c, s, step) && block[0] in s.batches[step.b].ids
  {
    var t := Apply(c, s, step);
    AckedBecomes(c, s, step);
    assert block[0] !in t.acked;
    var b :| b in t.batches && block[0] in t.batches[b].ids
             && (t.batches[b].phase.Inserted? || t.batches[b].phase.Counted?);
    BatchBecomes(c, s, step, b);
    hide Rows, Apply, Enabled, Accounted;
    assert b in s.batches && block[0] in s.batches[b].ids ==>
             !(s.batches[b].phase.Inserted? || s.batches[b].phase.Counted?);
  }

  /** Only a batch that is through is acknowledged. */
  lemma AckedBecomes(c: Config, s: State, step: Step)
    requires Enabled(c, s, step)
    ensures forall id | id in Apply(c, s, step).acked ::
              id in s.acked || (step.Ack? && id in s.batches[step.b].ids && s.batches[step.b].phase.Counted?)
    ensures s.acked <= Apply(c, s, step).acked
  {
    hide Rows, WithRows, Samples, Claimable;
  }

  lemma GoingPastIsSound(c: Config, s: State, step: Step)
    requires Enabled(c, s, step) && GoesPast(c, s, step)
    ensures !Unsound(s, s.batches[step.b].ids)
  {
    var ids := s.batches[step.b].ids;
    if step.Copy? {
      InsertableIsSound(s, ids, s.batches[step.b].phase.at);
    } else {
      NoRowsIsDone(s, ids, step.at);
      hide Rows;
      assert forall i | 0 <= i < |ids| :: ids[i] in ids && !Stamped(s, ids[i]);
    }
  }

  lemma TakenAfterwards(c: Config, s: State, step: Step, block: seq<EntryId>)
    requires Enabled(c, s, step) && GoesPast(c, s, step)
    requires forall i | 0 <= i < |block| :: block[i] in s.batches[step.b].ids
    ensures AllTaken(Apply(c, s, step), block)
  {
    var t, ids := Apply(c, s, step), s.batches[step.b].ids;
    forall i | 0 <= i < |block| && Stamped(t, block[i]) ensures Taken(t, block[i]) {
      if step.Copy? {
        var at := s.batches[step.b].phase.at;
        StampedRow(s.stream, ids, at, block[i]);
        WithRowsHolds(s.rows, Rows(s.stream, ids, at));
      } else {
        NoRowsIsDone(s, ids, step.at);
      }
    }
  }

  /** Entries of a sound batch exclude neither each other nor entries that got in before. */
  lemma SoundTogether(s: State, ids: seq<EntryId>, a: seq<EntryId>, b: seq<EntryId>)
    requires !Unsound(s, ids) && forall i | 0 <= i < |a| :: a[i] in ids
    requires AllTaken(s, b) || forall i | 0 <= i < |b| :: b[i] in ids
    ensures !Clash(s, a, b) && !Clash(s, b, a) && !SomeTaken(s, a)
  {
    forall i | 0 <= i < |a| ensures !(Stamped(s, a[i]) && Taken(s, a[i])) {
      var p :| 0 <= p < |ids| && ids[p] == a[i];
    }
    forall i, j | 0 <= i < |a| && 0 <= j < |b| ensures !Twins(s, a[i], b[j]) && !Twins(s, b[j], a[i]) {
      if !AllTaken(s, b) {
        var p :| 0 <= p < |ids| && ids[p] == a[i];
        var q :| 0 <= q < |ids| && ids[q] == b[j];
        assert !Twins(s, ids[p], ids[q]);
      }
    }
  }

  /** Who excludes whom depends on what came in only. */
  lemma ClashKept(from: State, s: State, a: seq<EntryId>, b: seq<EntryId>)
    requires Within(a, |from.stream|) && Within(b, |from.stream|) && from.stream <= s.stream
    ensures Clash(from, a, b) <==> Clash(s, a, b)
  {
    assert forall i, j | 0 <= i < |a| && 0 <= j < |b| :: Twins(from, a[i], b[j]) <==> Twins(s, a[i], b[j]);
  }

  lemma SomeTakenStays(c: Config, s: State, step: Step, block: seq<EntryId>)
    requires Enabled(c, s, step) && !step.DeleteRows? && SomeTaken(s, block)
    ensures SomeTaken(Apply(c, s, step), block)
  {
    var i :| 0 <= i < |block| && Stamped(s, block[i]) && Taken(s, block[i]);
    TakenStaysTaken(c, s, step, block[i]);
    hide Apply, Enabled, Stamped, Taken;
  }

  lemma AllTakenStays(c: Config, s: State, step: Step, block: seq<EntryId>)
    requires Enabled(c, s, step) && !step.DeleteRows? && AllTaken(s, block) && Within(block, |s.stream|)
    ensures AllTaken(Apply(c, s, step), block)
  {
    HistoryKept(c, s, step);
    var t := Apply(c, s, step);
    forall i | 0 <= i < |block| && Stamped(t, block[i]) ensures Taken(t, block[i]) {
      assert Stamped(s, block[i]);
      TakenStaysTaken(c, s, step, block[i]);
    }
  }

  /** A block that gets past now: the whole of it is in the batch. */
  lemma BlockGoesPast(c: Config, from: State, s: State, step: Step, bs: seq<seq<EntryId>>, n: nat, j: nat)
    requires Inv(s) && Kept(c, s, bs, n) && PastIsSound(from, s, bs) && Enabled(c, s, step) && j < |bs|
    requires Past(Apply(c, s, step), bs[j]) && !Past(s, bs[j])
    ensures GoesPast(c, s, step) && !Unsound(s, s.batches[step.b].ids)
    ensures forall p | 0 <= p < |bs[j]| :: bs[j][p] in s.batches[step.b].ids
  {
    PastBecomes(c, s, step, bs[j]);
    GoingPastIsSound(c, s, step);
    var ids := s.batches[step.b].ids;
    assert Whole(IdSet(ids), bs, n) && bs[j][0] in IdSet(ids);
    hide Unsound, Apply, Enabled, GoesPast, Inv, PastIsSound, Past;
    forall p | 0 <= p < |bs[j]| ensures bs[j][p] in ids {
      assert bs[j][p] in IdSet(ids);
    }
  }

  lemma PastStaysSound(c: Config, from: State, s: State, step: Step, bs: seq<seq<EntryId>>, n: nat, j: nat)
    requires Inv(s) && Kept(c, s, bs, n) && PastIsSound(from, s, bs) && Enabled(c, s, step) && !step.DeleteRows?
    requires j < |bs| && Past(Apply(c, s, step), bs[j])
    ensures !Unsound(from, bs[j]) && AllTaken(Apply(c, s, step), bs[j])
  {
    assert bs[j] != [] && Within(bs[j], |from.stream|) && from.stream <= s.stream;
    assert SomeTaken(from, bs[j]) ==> SomeTaken(s, bs[j]);
    if Past(s, bs[j]) {
      assert !Unsound(from, bs[j]) && AllTaken(s, bs[j]);
      hide *;
      AllTakenIn(from, s, bs[j]);
      AllTakenStays(c, s, step, bs[j]);
    } else {
      BlockGoesPast(c, from, s, step, bs, n, j);
      var ids := s.batches[step.b].ids;
      hide *;
      TakenAfterwards(c, s, step, bs[j]);
      SoundTogether(s, ids, bs[j], bs[j]);
      ClashKept(from, s, bs[j], bs[j]);
      UnsoundIs(from, bs[j]);
    }
  }

  lemma AllTakenIn(from: State, s: State, block: seq<EntryId>)
    requires Within(block, |from.stream|) && from.stream <= s.stream
    ensures Within(block, |s.stream|)
  {
  }

  lemma UnsoundIs(s: State, block: seq<EntryId>)
    ensures Unsound(s, block) <==> SomeTaken(s, block) || Clash(s, block, block)
  {
  }

  lemma PastStaysApart(c: Config, from: State, s: State, step: Step, bs: seq<seq<EntryId>>, n: nat, i: nat, j: nat)
    requires Inv(s) && Kept(c, s, bs, n) && PastIsSound(from, s, bs) && Enabled(c, s, step)
    requires i < |bs| && j < |bs| && i != j && Past(Apply(c, s, step), bs[i]) && Past(Apply(c, s, step), bs[j])
    ensures !Clash(from, bs[i], bs[j])
  {
    assert Within(bs[i], |from.stream|) && Within(bs[j], |from.stream|) && from.stream <= s.stream;
    assert bs[i] != [] && bs[j] != [];
    assert Past(s, bs[i]) ==> AllTaken(s, bs[i]);
    assert Past(s, bs[j]) ==> AllTaken(s, bs[j]);
    assert Past(s, bs[i]) && Past(s, bs[j]) ==> !Clash(from, bs[i], bs[j]);
    if !Past(s, bs[i]) {
      BlockGoesPast(c, from, s, step, bs, n, i);
    }
    if !Past(s, bs[j]) {
      BlockGoesPast(c, from, s, step, bs, n, j);
    }
    hide *;
    ClashKept(from, s, bs[i], bs[j]);
    if !Past(s, bs[i]) {
      SoundTogether(s, s.batches[step.b].ids, bs[i], bs[j]);
    } else if !Past(s, bs[j]) {
      SoundTogether(s, s.batches[step.b].ids, bs[j], bs[i]);
    }
  }

  lemma PastIsSoundStep(c: Config, from: State, s: State, step: Step, bs: seq<seq<EntryId>>, n: nat)
    requires Inv(s) && Kept(c, s, bs, n) && PastIsSound(from, s, bs) && Enabled(c, s, step) && !step.DeleteRows?
    ensures PastIsSound(from, Apply(c, s, step), bs)
  {
    var t := Apply(c, s, step);
    HistoryKept(c, s, step);
    hide Inv, Kept, Enabled, Apply, Unsound, Past, Clash, SomeTaken, AllTaken;
    forall j | 0 <= j < |bs| && SomeTaken(from, bs[j]) ensures SomeTaken(t, bs[j]) {
      SomeTakenStays(c, s, step, bs[j]);
    }
    forall j | 0 <= j < |bs| && Past(t, bs[j]) ensures !Unsound(from, bs[j]) && AllTaken(t, bs[j]) {
      PastStaysSound(c, from, s, step, bs, n, j);
    }
    forall i, j | 0 <= i < |bs| && 0 <= j < |bs| && i != j && Past(t, bs[i]) && Past(t, bs[j])
      ensures !Clash(from, bs[i], bs[j])
    {
      PastStaysApart(c, from, s, step, bs, n, i, j);
    }
  }

  // ---------- a block that is reached is one of ten ----------

  lemma {:induction false} FewerPresent(less: set<EntryId>, ids: set<EntryId>, bs: seq<seq<EntryId>>, j: nat)
    requires j <= |bs| && forall i | 0 <= i < |bs| && Present(less, bs, i) :: Present(ids, bs, i)
    ensures PresentBelow(less, bs, j) <= PresentBelow(ids, bs, j)
  {
    hide Present;
    if j > 0 {
      FewerPresent(less, ids, bs, j - 1);
    }
  }

  lemma ClaimedInTime(c: Config, s: State, bs: seq<seq<EntryId>>, n: nat, j: nat)
    requires Accounted(s) && Kept(c, s, bs, n) && j < |bs| && bs[j] != [] && bs[j][0] in ClaimedIds(c, s)
    ensures PresentBelow(s.pending.Keys, bs, j) < SCAN
  {
    ClaimIsWhole(c, s, bs, n);
    assert bs[j][0] in Claimable(c, s);
    assert bs[j][0] in Lowest(s.pending.Keys, SCAN * c.batchSize);
    LowestBlocks(s.pending.Keys, bs, c.batchSize, n, SCAN, j, 0);
    hide Kept, Ascending, Blocked, Whole, Lowest;
  }

  /** New entries come above all blocks, so no block comes back. */
  lemma NoneComesBack(c: Config, s: State, step: Step, bs: seq<seq<EntryId>>, n: nat, j: nat)
    requires Accounted(s) && Kept(c, s, bs, n) && Enabled(c, s, step) && j < |bs|
    ensures Present(Apply(c, s, step).pending.Keys, bs, j) ==> Present(s.pending.Keys, bs, j)
  {
    if step.Claim? {
      ClaimedSet(c, s);
      ClaimIsWhole(c, s, bs, n);
      assert forall id <- ClaimedIds(c, s) :: id in IdSet(ClaimedIds(c, s));
    }
    assert bs[j] != [] && bs[j][0] < n <= s.next;
    hide Kept, Claimable, ClaimedIds, Rows, WithRows, Samples, Insertable;
  }

  lemma ReachedBecomes(c: Config, s: State, step: Step, block: seq<EntryId>)
    requires Enabled(c, s, step) && block != [] && block[0] < s.next && Reached(Apply(c, s, step), block)
    ensures Reached(s, block) || (step.Claim? && block[0] in ClaimedIds(c, s))
  {
    var t := Apply(c, s, step);
    AckedBecomes(c, s, step);
    if !step.Claim? && !step.Read? {
      BatchesShrink(c, s, step);
      assert step.Ack? ==> step.b in s.batches;
      hide Apply, Enabled;
    }
    hide ClaimedIds, Rows;
  }

  lemma ReachedStep(c: Config, s: State, step: Step, bs: seq<seq<EntryId>>, n: nat)
    requires Inv(s) && Kept(c, s, bs, n) && ReachedInTime(s, bs) && Enabled(c, s, step)
    ensures ReachedInTime(Apply(c, s, step), bs)
  {
    var t := Apply(c, s, step);
    assert Accounted(s) && forall j | 0 <= j < |bs| :: bs[j] != [] && bs[j][0] < s.next;
    hide Inv, Kept, Apply, Enabled, Reached, Present, ClaimedIds, Accounted;
    forall j | 0 <= j < |bs| && Reached(t, bs[j]) ensures PresentBelow(t.pending.Keys, bs, j) < SCAN {
      forall i | 0 <= i < |bs| && Present(t.pending.Keys, bs, i) ensures Present(s.pending.Keys, bs, i) {
        NoneComesBack(c, s, step, bs, n, i);
      }
      FewerPresent(t.pending.Keys, s.pending.Keys, bs, j);
      ReachedBecomes(c, s, step, bs[j]);
      if !Reached(s, bs[j]) {
        ClaimedInTime(c, s, bs, n, j);
      }
    }
  }

  // ---------- over whole runs ----------

  ghost predicate NoDeletions(steps: seq<Step>) {
    forall i | 0 <= i < |steps| :: !steps[i].DeleteRows?
  }

  lemma {:induction false} OutageRun(c: Config, from: State, s: State, steps: seq<Step>, bs: seq<seq<EntryId>>, n: nat)
    requires Inv(s) && Kept(c, s, bs, n) && PastIsSound(from, s, bs) && ReachedInTime(s, bs)
    requires Legal(c, s, steps) && NoDeletions(steps)
    ensures var t := Run(c, s, steps); Inv(t) && Kept(c, t, bs, n) && PastIsSound(from, t, bs) && ReachedInTime(t, bs)
    decreases |steps|
  {
    hide Inv, Kept, PastIsSound, ReachedInTime, Apply, Enabled;
    if steps != [] {
      assert !steps[0].DeleteRows? && NoDeletions(steps[1..]);
      InvStep(c, s, steps[0]);
      KeptStep(c, s, steps[0], bs, n);
      PastIsSoundStep(c, from, s, steps[0], bs, n);
      ReachedStep(c, s, steps[0], bs, n);
      OutageRun(c, from, Apply(c, s, steps[0]), steps[1..], bs, n);
    }
  }

  lemma OutageIsKept(c: Config, s: State)
    requires 1 <= c.batchSize && Outage(c, s) && Accounted(s)
    ensures var bs := BlocksOf(c, s);
            && Blocked(bs, c.batchSize, s.next)
            && (forall id: EntryId :: id in s.pending <==> InSome(bs, id))
            && (forall j, p | 0 <= j < |bs| && 0 <= p < |bs[j]| :: bs[j][p] in s.pending)
  {
    var q, bs := Ascending(s.pending.Keys, s.next), BlocksOf(c, s);
    CutBlocked(q, c.batchSize, s.next);
    assert forall id: EntryId :: id in s.pending <==> id in q;
    hide Ascending, Cut;
    forall j, p | 0 <= j < |bs| && 0 <= p < |bs[j]| ensures bs[j][p] in s.pending {
      assert At(bs, bs[j][p], j, p);
      assert InSome(bs, bs[j][p]);
    }
  }

  lemma StartOfOutage(c: Config, s: State, bs: seq<seq<EntryId>>)
    requires Outage(c, s) && Accounted(s) && Blocked(bs, c.batchSize, s.next)
    requires forall id: EntryId :: id in s.pending <==> InSome(bs, id)
    requires forall j, p | 0 <= j < |bs| && 0 <= p < |bs[j]| :: bs[j][p] in s.pending
    ensures Kept(c, s, bs, s.next) && PastIsSound(s, s, bs) && ReachedInTime(s, bs)
  {
    FirstsPending(c, s, bs);
    WholeAtOutage(c, s, bs);
    NothingReached(s, bs);
    hide Unsound, Blocked, Whole, SameTimes, InSome, Accounted, PastIsSound, ReachedInTime;
  }

  lemma NothingReached(s: State, bs: seq<seq<EntryId>>)
    requires s.batches == map[] && Accounted(s)
    requires forall j | 0 <= j < |bs| :: bs[j] != [] && bs[j][0] in s.pending
    requires forall j, p | 0 <= j < |bs| && 0 <= p < |bs[j]| :: bs[j][p] in s.pending
    ensures PastIsSound(s, s, bs) && ReachedInTime(s, bs)
  {
    hide Unsound, SomeTaken, AllTaken, Clash, PresentBelow;
    forall j | 0 <= j < |bs| ensures !Past(s, bs[j]) && !Reached(s, bs[j]) && Within(bs[j], |s.stream|) {
    }
    hide Past, Reached;
  }

  lemma WholeAtOutage(c: Config, s: State, bs: seq<seq<EntryId>>)
    requires Outage(c, s)
    requires forall id: EntryId :: id in s.pending <==> InSome(bs, id)
    requires forall j, p | 0 <= j < |bs| && 0 <= p < |bs[j]| :: bs[j][p] in s.pending
    ensures Whole(s.pending.Keys, bs, s.next) && SameTimes(c, s, bs)
  {
    hide InSome;
  }

  lemma FirstsPending(c: Config, s: State, bs: seq<seq<EntryId>>)
    requires Blocked(bs, c.batchSize, s.next)
    requires forall j, p | 0 <= j < |bs| && 0 <= p < |bs[j]| :: bs[j][p] in s.pending
    ensures forall j | 0 <= j < |bs| :: bs[j] != [] && bs[j][0] in s.pending
  {
  }

  // ---------- a route through the blocks ----------

  /** Blocks that can be put through one after another, up to block `j`: sound, none of
      which excludes another, and so many that fewer than ten others stay below it. */
  ghost predicate Route(s: State, bs: seq<seq<EntryId>>, route: seq<nat>, j: nat) {
    && InOrder(route) && route != [] && route[|route| - 1] == j < |bs| && j < SCAN + |route| - 1
    && (forall m | 0 <= m < |route| :: route[m] <= j && !Unsound(s, bs[route[m]]))
    && (forall m, k | 0 <= m < k < |route| :: !Clash(s, bs[route[m]], bs[route[k]]))
  }

  /** The blocks below `j` that are acknowledged. */
  function Gone(s: State, bs: seq<seq<EntryId>>): set<nat> {
    set j: nat | j < |bs| && bs[j] != [] && bs[j][0] in s.acked
  }

  lemma {:induction false} GoneOrPresent(s: State, bs: seq<seq<EntryId>>, j: nat)
    requires j <= |bs| && forall i | 0 <= i < |bs| :: bs[i] != [] && (bs[i][0] in s.acked <==> bs[i][0] !in s.pending)
    ensures |Ascending(Gone(s, bs), j)| + PresentBelow(s.pending.Keys, bs, j) == j
  {
    if j > 0 {
      GoneOrPresent(s, bs, j - 1);
      assert j - 1 in Gone(s, bs) <==> bs[j - 1][0] in s.acked;
      hide Gone;
    }
  }

  /** The blocks that got through before block `j` did are its route. */
  lemma RouteOfAcked(from: State, s: State, bs: seq<seq<EntryId>>, j: nat) returns (route: seq<nat>)
    requires PastIsSound(from, s, bs) && ReachedInTime(s, bs) && j < |bs| && bs[j] != [] && bs[j][0] in s.acked
    requires forall i | 0 <= i < |bs| :: bs[i] != [] && (bs[i][0] in s.acked <==> bs[i][0] !in s.pending)
    ensures Route(from, bs, route, j)
  {
    var gone := Gone(s, bs);
    var below := Ascending(gone, j);
    route := below + [j];
    GoneOrPresent(s, bs, j);
    assert Reached(s, bs[j]);
    hide Ascending, Unsound, Clash, PresentBelow;
    forall m | 0 <= m < |route| ensures route[m] <= j && Past(s, bs[route[m]]) {
      assert route[m] in gone;
    }
    hide Past, Gone, Reached;
    SoundRoute(from, s, bs, route, j);
  }

  lemma SoundRoute(from: State, s: State, bs: seq<seq<EntryId>>, route: seq<nat>, j: nat)
    requires PastIsSound(from, s, bs) && InOrder(route) && route != [] && route[|route| - 1] == j < |bs|
    requires j < SCAN + |route| - 1
    requires forall m | 0 <= m < |route| :: route[m] <= j && bs[route[m]] != [] && Past(s, bs[route[m]])
    ensures Route(from, bs, route, j)
  {
    hide Unsound, Clash, SomeTaken, AllTaken, Past;
    forall m, k | 0 <= m < k < |route| ensures !Clash(from, bs[route[m]], bs[route[k]]) {
      assert route[m] != route[k];
    }
  }

  /** Whatever the collectors do: an entry that is acknowledged after an outage, in a run
      without deletions, had a route. */
  lemma AckedHasRoute(c: Config, s: State, steps: seq<Step>, id: EntryId, j: nat, p: nat) returns (route: seq<nat>)
    requires 1 <= c.batchSize && Inv(s) && Outage(c, s) && Legal(c, s, steps) && NoDeletions(steps)
    requires At(BlocksOf(c, s), id, j, p) && id in Run(c, s, steps).acked
    ensures Route(s, BlocksOf(c, s), route, j)
  {
    var bs := BlocksOf(c, s);
    var t := OutageEnds(c, s, steps, bs);
    hide *;
    PlaceOf(bs, id, j, p);
    AckedOrPending(c, t, bs, s.next, j, p);
    route := RouteOfAcked(s, t, bs, j);
  }

  lemma OutageEnds(c: Config, s: State, steps: seq<Step>, bs: seq<seq<EntryId>>) returns (t: State)
    requires 1 <= c.batchSize && Inv(s) && Outage(c, s) && Legal(c, s, steps) && NoDeletions(steps)
    requires bs == BlocksOf(c, s)
    ensures t == Run(c, s, steps)
    ensures Accounted(t) && Kept(c, t, bs, s.next) && PastIsSound(s, t, bs) && ReachedInTime(t, bs)
  {
    assert Accounted(s);
    t := Run(c, s, steps);
    hide BlocksOf, Outage, Legal, Run, Kept, PastIsSound, ReachedInTime;
    OutageIsKept(c, s);
    StartOfOutage(c, s, bs);
    OutageRun(c, s, s, steps, bs, s.next);
  }

  lemma PlaceOf(bs: seq<seq<EntryId>>, id: EntryId, j: nat, p: nat)
    requires At(bs, id, j, p)
    ensures j < |bs| && p < |bs[j]| && bs[j][p] == id
  {
  }

  lemma AckedOrPending(c: Config, t: State, bs: seq<seq<EntryId>>, n: nat, j: nat, p: nat)
    requires Accounted(t) && Kept(c, t, bs, n)
    ensures forall i | 0 <= i < |bs| :: bs[i] != [] && (bs[i][0] in t.acked <==> bs[i][0] !in t.pending)
    ensures j < |bs| && p < |bs[j]| && bs[j][p] in t.acked ==> bs[j][0] in t.acked
  {
    assert Whole(t.pending.Keys, bs, n);
    assert forall i | 0 <= i < |bs| :: bs[i] != [] && bs[i][0] < n <= t.next;
    assert j < |bs| && p < |bs[j]| ==> (bs[j][p] in t.pending.Keys <==> bs[j][0] in t.pending.Keys);
  }
}
