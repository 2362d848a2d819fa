/**
One call of processBatch (internal/collector/consumer.go) as the source runs it:
a loop that decodes and transforms, then insert, count and acknowledge in that
order. The last lemma shows the call is a run of the protocol in module Ingest,
so what that module proves about every run covers this code.
*/
module Consumer {
  import opened Ingest

  datatype Message = Message(id: EntryId, payload: Payload)

  /** The parts of Redis and Postgres a batch touches. */
  datatype Effects = Effects(
    rows: map<RowKey, Event>,
    floor: nat,
    commits: multiset<Row>,
    counted: multiset<Row>,
    pending: map<EntryId, Delivery>,
    acked: set<EntryId>)

  function Ids(msgs: seq<Message>): (ids: seq<EntryId>)
    ensures |ids| == |msgs| && forall i | 0 <= i < |ids| :: ids[i] == msgs[i].id
  {
    seq(|msgs|, i requires 0 <= i < |msgs| => msgs[i].id)
  }

  /** The decodable messages as rows; `at` is the clock as it was read for each message. */
  function BatchRows(msgs: seq<Message>, at: seq<nat>): seq<Row>
    requires |at| == |msgs|
  {
    if msgs == [] then []
    else
      var n := |msgs| - 1;
      BatchRows(msgs[..n], at[..n]) +
      (if msgs[n].payload.Decoded? then [(KeyOf(msgs[n].payload.ev, at[n]), msgs[n].payload.ev)] else [])
  }

  function Acknowledged(e: Effects, ids: seq<EntryId>): Effects {
    var done := set id | id in ids && id in e.pending;
    e.(pending := e.pending - done, acked := e.acked + done)
  }

  function CopiedIn(e: Effects, batch: seq<Row>): Effects {
    e.(rows := WithRows(e.rows, batch), commits := e.commits + multiset(batch))
  }

  /** What a call leaves behind. COPY may fail for any reason, and must fail when a key
      is already taken; a failure, even one whose COPY did commit, ends the call. */
  function Processed(e: Effects, msgs: seq<Message>, at: seq<nat>,
                     copy: CopyOutcome, applied: set<nat>, ackReached: bool): Effects
    requires |at| == |msgs|
  {
    var batch := BatchRows(msgs, at);
    var committed := copy != Failed && Insertable(e.rows, e.floor, batch);
    if batch != [] && !committed then e
    else if batch != [] && copy == CommittedReplyLost then CopiedIn(e, batch)
    else
      var counted := if batch == [] then e
                     else CopiedIn(e, batch).(counted := e.counted + Samples(batch, applied));
      if ackReached then Acknowledged(counted, Ids(msgs)) else counted
  }

  /** The two stores, as the collector reaches them. */
  class Stores {
    var effects: Effects

    constructor (effects: Effects)
      ensures this.effects == effects
    {
      this.effects := effects;
    }

    /** BatchCreate: COPY under the primary key. */
    method BatchCreate(batch: seq<Row>, outcome: CopyOutcome) returns (ok: bool)
      modifies this
      ensures ok <==> batch == [] || (outcome.Committed? && Insertable(old(effects).rows, old(effects).floor, batch))
      ensures effects == if batch != [] && !outcome.Failed? && Insertable(old(effects).rows, old(effects).floor, batch)
                         then CopiedIn(old(effects), batch) else old(effects)
    {
      if batch == [] {
        return true;
      }
      if outcome.Failed? || !Insertable(effects.rows, effects.floor, batch) {
        return false;
      }
      effects := CopiedIn(effects, batch);
      return outcome.Committed?;
    }

    method RecordBatch(batch: seq<Row>, applied: set<nat>)
      modifies this
      ensures effects == old(effects).(counted := old(effects).counted + Samples(batch, applied))
    {
      effects := effects.(counted := effects.counted + Samples(batch, applied));
    }

    method XAck(ids: seq<EntryId>, reached: bool)
      modifies this
      ensures effects == if reached then Acknowledged(old(effects), ids) else old(effects)
    {
      if reached {
        effects := Acknowledged(effects, ids);
      }
    }
  }

  class Consumer {
    const stores: Stores

    constructor (stores: Stores)
      ensures this.stores == stores
    {
      this.stores := stores;
    }

    /** The loop of processBatch: what to insert, and what to acknowledge afterwards. */
    method DecodeAll(msgs: seq<Message>, at: seq<nat>) returns (batch: seq<Row>, ackIds: seq<EntryId>)
      requires |at| == |msgs|
      ensures batch == BatchRows(msgs, at) && ackIds == Ids(msgs)
    {
      batch, ackIds := [], [];
      for i := 0 to |msgs|
        invariant batch == BatchRows(msgs[..i], at[..i])
        invariant ackIds == Ids(msgs)[..i]
      {
        assert msgs[..i + 1][..i] == msgs[..i] && at[..i + 1][..i] == at[..i];
        if msgs[i].payload.Malformed? {
          ackIds := ackIds + [msgs[i].id];
          continue;
        }
        batch := batch + [(KeyOf(msgs[i].payload.ev, at[i]), msgs[i].payload.ev)];
        ackIds := ackIds + [msgs[i].id];
      }
      assert msgs[..|msgs|] == msgs && at[..|msgs|] == at;
    }

    method ProcessBatch(msgs: seq<Message>, at: seq<nat>, copy: CopyOutcome, applied: set<nat>, ackReached: bool)
      requires |at| == |msgs|
      modifies stores
      ensures stores.effects == Processed(old(stores.effects), msgs, at, copy, applied, ackReached)
    {
      hide Insertable, WithRows, Samples;
      if msgs == [] {
        NothingAcknowledged(stores.effects);
        return;
      }
      hide BatchRows, Acknowledged;
      var batch, ackIds := DecodeAll(msgs, at);
      if |batch| > 0 {
        var ok := stores.BatchCreate(batch, copy);
        if !ok {
          return;
        }
        stores.RecordBatch(batch, applied);
      }
      if |ackIds| > 0 {
        stores.XAck(ackIds, ackReached);
      }
    }
  }

  lemma NothingAcknowledged(e: Effects)
    ensures Acknowledged(e, Ids([])) == e
  {
    assert Acknowledged(e, Ids([])).pending == e.pending;
  }

  // ---------- a call is a run of the protocol ----------

  ghost predicate Delivered(s: State, b: BatchId, msgs: seq<Message>) {
    && BatchIn(s, b) && s.batches[b].phase.Received? && s.batches[b].ids == Ids(msgs)
    && forall i | 0 <= i < |msgs| :: s.stream[msgs[i].id] == msgs[i].payload
  }

  function EffectsOf(s: State): Effects {
    Effects(s.rows, s.floor, s.commits, s.counted, s.pending, s.acked)
  }

  lemma {:induction false} RowsSnoc(stream: seq<Payload>, ids: seq<EntryId>, at: seq<nat>, id: EntryId, now: nat)
    requires Within(ids, |stream|) && id < |stream| && |at| == |ids|
    ensures Within(ids + [id], |stream|) && Within([id], |stream|)
    ensures Rows(stream, ids + [id], at + [now]) == Rows(stream, ids, at) + Rows(stream, [id], [now])
  {
    if ids != [] {
      assert (ids + [id])[1..] == ids[1..] + [id] && (at + [now])[1..] == at[1..] + [now];
      RowsSnoc(stream, ids[1..], at[1..], id, now);
    } else {
      assert ids + [id] == [id] && at + [now] == [now];
    }
  }

  lemma {:induction false} BatchRowsAreRows(s: State, msgs: seq<Message>, at: seq<nat>)
    requires Within(Ids(msgs), |s.stream|) && |at| == |msgs|
    requires forall i | 0 <= i < |msgs| :: s.stream[msgs[i].id] == msgs[i].payload
    ensures BatchRows(msgs, at) == Rows(s.stream, Ids(msgs), at)
  {
    if msgs != [] {
      var n := |msgs| - 1;
      var init, last := msgs[..n], msgs[n];
      assert Ids(msgs) == Ids(init) + [last.id] && at == at[..n] + [at[n]];
      assert last.id == Ids(msgs)[n];
      assert forall i | 0 <= i < n :: Ids(init)[i] == Ids(msgs)[i];
      RowsSnoc(s.stream, Ids(init), at[..n], last.id, at[n]);
      BatchRowsAreRows(s, init, at[..n]);
      assert [last.id][1..] == [];
      assert Rows(s.stream, [last.id][1..], [at[n]][1..]) == [];
    }
  }

  /** `t` is what a finished call of batch `b` makes of `s`. */
  ghost predicate CallRan(c: Config, s: State, b: BatchId, steps: seq<Step>, after: Effects) {
    && Legal(c, s, steps)
    && Run(c, s, steps) == s.(rows := after.rows, commits := after.commits, counted := after.counted,
                              pending := after.pending, acked := after.acked, batches := s.batches - {b})
  }

  lemma NothingToInsert(c: Config, s: State, b: BatchId, msgs: seq<Message>, at: seq<nat>, ackReached: bool)
    requires Delivered(s, b, msgs) && Readings(at, |msgs|, s.batches[b].since, s.now) && Rows(s.stream, Ids(msgs), at) == []
    ensures CallRan(c, s, b, [Transform(b, at), Ack(b, ackReached)],
                    if ackReached then Acknowledged(EffectsOf(s), Ids(msgs)) else EffectsOf(s))
  {
    var s1 := Apply(c, s, Transform(b, at));
    var s2 := Apply(c, s1, Ack(b, ackReached));
    Two(c, s, s1, s2, Transform(b, at), Ack(b, ackReached));
    assert s2.batches == s.batches - {b};
  }

  lemma InsertEnds(c: Config, s: State, b: BatchId, msgs: seq<Message>, at: seq<nat>, copy: CopyOutcome)
    requires Delivered(s, b, msgs) && Readings(at, |msgs|, s.batches[b].since, s.now) && Rows(s.stream, Ids(msgs), at) != [] && !copy.Committed?
    requires copy.Failed? || Insertable(s.rows, s.floor, Rows(s.stream, Ids(msgs), at))
    ensures CallRan(c, s, b, [Transform(b, at), Copy(b, copy)],
                    if copy.Failed? then EffectsOf(s)
                    else CopiedIn(EffectsOf(s), Rows(s.stream, Ids(msgs), at)))
  {
    var s1 := Apply(c, s, Transform(b, at));
    var s2 := Apply(c, s1, Copy(b, copy));
    Two(c, s, s1, s2, Transform(b, at), Copy(b, copy));
    assert s2.batches == s.batches - {b};
  }

  lemma InsertCountAck(c: Config, s: State, b: BatchId, msgs: seq<Message>, at: seq<nat>, applied: set<nat>, ackReached: bool)
    requires Delivered(s, b, msgs) && Readings(at, |msgs|, s.batches[b].since, s.now) && Rows(s.stream, Ids(msgs), at) != []
    requires Insertable(s.rows, s.floor, Rows(s.stream, Ids(msgs), at))
    ensures var batch := Rows(s.stream, Ids(msgs), at);
            var counted := CopiedIn(EffectsOf(s), batch).(counted := s.counted + Samples(batch, applied));
            CallRan(c, s, b, [Transform(b, at), Copy(b, Committed)] + [Count(b, applied), Ack(b, ackReached)],
                    if ackReached then Acknowledged(counted, Ids(msgs)) else counted)
  {
    var s2 := InsertRan(c, s, b, msgs, at);
    CountAckRan(c, s, s2, b, msgs, at, applied, ackReached);
    hide Legal, Run, Apply;
    Chain(c, s, [Transform(b, at), Copy(b, Committed)], [Count(b, applied), Ack(b, ackReached)]);
  }

  lemma InsertRan(c: Config, s: State, b: BatchId, msgs: seq<Message>, at: seq<nat>) returns (t: State)
    requires Delivered(s, b, msgs) && Readings(at, |msgs|, s.batches[b].since, s.now) && Rows(s.stream, Ids(msgs), at) != []
    requires Insertable(s.rows, s.floor, Rows(s.stream, Ids(msgs), at))
    ensures Legal(c, s, [Transform(b, at), Copy(b, Committed)]) && t == Run(c, s, [Transform(b, at), Copy(b, Committed)])
    ensures t == s.(rows := WithRows(s.rows, Rows(s.stream, Ids(msgs), at)),
                    commits := s.commits + multiset(Rows(s.stream, Ids(msgs), at)),
                    batches := s.batches[b := Batch(s.batches[b].consumer, s.batches[b].since, Ids(msgs), Inserted(at))])
  {
    hide Insertable, WithRows, Rows;
    var s1 := Apply(c, s, Transform(b, at));
    t := Apply(c, s1, Copy(b, Committed));
    Two(c, s, s1, t, Transform(b, at), Copy(b, Committed));
    assert t.batches == s.batches[b := Batch(s.batches[b].consumer, s.batches[b].since, Ids(msgs), Inserted(at))];
  }

  lemma CountAckRan(c: Config, s: State, s2: State, b: BatchId, msgs: seq<Message>, at: seq<nat>, applied: set<nat>, ackReached: bool)
    requires Delivered(s, b, msgs) && Readings(at, |msgs|, s.batches[b].since, s.now)
    requires s2 == s.(rows := WithRows(s.rows, Rows(s.stream, Ids(msgs), at)),
                      commits := s.commits + multiset(Rows(s.stream, Ids(msgs), at)),
                      batches := s.batches[b := Batch(s.batches[b].consumer, s.batches[b].since, Ids(msgs), Inserted(at))])
    ensures Legal(c, s2, [Count(b, applied), Ack(b, ackReached)])
    ensures var batch := Rows(s.stream, Ids(msgs), at);
            var counted := CopiedIn(EffectsOf(s), batch).(counted := s.counted + Samples(batch, applied));
            var after := if ackReached then Acknowledged(counted, Ids(msgs)) else counted;
            Run(c, s2, [Count(b, applied), Ack(b, ackReached)]) ==
            s.(rows := after.rows, commits := after.commits, counted := after.counted, pending := after.pending,
               acked := after.acked, batches := s.batches - {b})
  {
    hide WithRows, Rows, Samples;
    var s3 := Apply(c, s2, Count(b, applied));
    var s4 := Apply(c, s3, Ack(b, ackReached));
    Two(c, s2, s3, s4, Count(b, applied), Ack(b, ackReached));
    assert s4.batches == s.batches - {b};
  }

  /** The effects of a call are those of some run of protocol steps of its batch. */
  lemma ProcessBatchIsARun(c: Config, s: State, b: BatchId, msgs: seq<Message>, at: seq<nat>,
                           copy: CopyOutcome, applied: set<nat>, ackReached: bool)
    returns (steps: seq<Step>)
    requires Delivered(s, b, msgs) && Readings(at, |msgs|, s.batches[b].since, s.now)
    ensures CallRan(c, s, b, steps, Processed(EffectsOf(s), msgs, at, copy, applied, ackReached))
  {
    BatchRowsAreRows(s, msgs, at);
    var batch := BatchRows(msgs, at);
    var after := Processed(EffectsOf(s), msgs, at, copy, applied, ackReached);
    if batch == [] {
      NothingToInsert(c, s, b, msgs, at, ackReached);
      steps := [Transform(b, at), Ack(b, ackReached)];
    } else if copy.Committed? && Insertable(s.rows, s.floor, batch) {
      InsertCountAck(c, s, b, msgs, at, applied, ackReached);
      steps := [Transform(b, at), Copy(b, Committed)] + [Count(b, applied), Ack(b, ackReached)];
    } else {
      var outcome := if Insertable(s.rows, s.floor, batch) then copy else Failed;
      InsertEnds(c, s, b, msgs, at, outcome);
      steps := [Transform(b, at), Copy(b, outcome)];
    }
  }

  lemma Two(c: Config, s: State, s1: State, s2: State, first: Step, second: Step)
    requires Enabled(c, s, first) && s1 == Apply(c, s, first)
    requires Enabled(c, s1, second) && s2 == Apply(c, s1, second)
    ensures Legal(c, s, [first, second]) && Run(c, s, [first, second]) == s2
  {
    assert [first, second][1..] == [second] && [second][1..] == [];
    assert Legal(c, s2, []) && Run(c, s2, []) == s2;
    assert Legal(c, s1, [second]) && Run(c, s1, [second]) == s2;
  }

  lemma {:induction false} Chain(c: Config, s: State, first: seq<Step>, second: seq<Step>)
    requires Legal(c, s, first) && Legal(c, Run(c, s, first), second)
    ensures Legal(c, s, first + second) && Run(c, s, first + second) == Run(c, Run(c, s, first), second)
    decreases |first|
  {
    if first == [] {
      assert first + second == second;
    } else {
      Chain(c, Apply(c, s, first[0]), first[1..], second);
      assert (first + second)[1..] == first[1..] + second;
    }
  }
}
