/**
Many replicas of the cache over one Redis and one database, each cache or
resolver call taken as one atomic step. A project row is named by the index of
the database write that produced it, so "the old project" is any smaller index
for the same key. Evictions, lost or failed broadcasts and failed Redis or
database calls may happen at any step.
*/
module AtomicCache {
  import opened Wrappers
  import opened TieredCache
  import opened ProjectsTable

  datatype Config = Config(l1TTL: Time, l2TTL: Time, replicas: nat)

  datatype Message = Message(sender: nat, key: Key)

  datatype State = State(
    now: Time,
    log: seq<Write>,
    l1: seq<Tier<nat>>,
    l2: Tier<nat>,
    inbox: seq<seq<Message>>)

  datatype Step =
    | Tick(elapsed: Time)
    | WriteRow(key: Key, live: bool)
    | Resolve(replica: nat, key: Key, getFault: bool, dbFault: bool, setFault: bool)
    | Invalidate(replica: nat, key: Key, delFault: bool, reached: set<nat>)  // whose subscription gets it
    | Deliver(replica: nat)
    | Evict(replica: nat, key: Key)

  function Init(c: Config): State {
    State(0, [], seq(c.replicas, _ => map[]), map[], seq(c.replicas, _ => []))
  }

  predicate Enabled(s: State, step: Step) {
    match step
    case Resolve(r, _, _, _, _) => r < |s.l1|
    case Invalidate(r, _, _, _) => r < |s.l1|
    case Deliver(r) => r < |s.l1| && r < |s.inbox| && s.inbox[r] != []
    case Evict(r, _) => r < |s.l1|
    case _ => true
  }

  function Answer(s: State, step: Step): (r: Resolution<nat>)
    requires step.Resolve? && Enabled(s, step)
  {
    Resolved(GetOutcome(s.l1[step.replica], s.l2, step.key, s.now, step.getFault),
             Row(s.log, step.key), step.dbFault)
  }

  function Apply(c: Config, s: State, step: Step): State
    requires Enabled(s, step)
  {
    match step
    case Tick(d) => s.(now := s.now + d)
    case WriteRow(k, live) => s.(log := s.log + [Write(k, live, s.now)])
    case Resolve(r, k, getFault, _, setFault) =>
      var got := GetOutcome(s.l1[r], s.l2, k, s.now, getFault);
      var answer := Answer(s, step);
      if got.Hit? || !answer.Found? then
        s.(l1 := s.l1[r := GetL1(s.l1[r], s.l2, c.l1TTL, k, s.now, getFault)])
      else
        s.(l1 := s.l1[r := s.l1[r][k := Entry(answer.val, s.now + c.l1TTL)]],
           l2 := if setFault then s.l2 else s.l2[k := Entry(answer.val, s.now + c.l2TTL)])
    case Invalidate(r, k, delFault, reached) =>
      var cleared := s.(l1 := s.l1[r := s.l1[r] - {k}]);
      if delFault then cleared
      else cleared.(l2 := s.l2 - {k},
                    inbox := seq(|s.inbox|, i requires 0 <= i < |s.inbox| =>
                                 if i in reached then s.inbox[i] + [Message(r, k)] else s.inbox[i]))
    case Deliver(r) =>
      var m := s.inbox[r][0];
      s.(inbox := s.inbox[r := s.inbox[r][1..]],
         l1 := if m.sender == r then s.l1 else s.l1[r := s.l1[r] - {m.key}])
    case Evict(r, k) => s.(l1 := s.l1[r := s.l1[r] - {k}])
  }

  ghost predicate Legal(c: Config, s: State, steps: seq<Step>)
    decreases |steps|
  {
    steps == [] || (Enabled(s, steps[0]) && Legal(c, Apply(c, s, steps[0]), steps[1..]))
  }

  ghost function Run(c: Config, s: State, steps: seq<Step>): State
    requires Legal(c, s, steps)
    decreases |steps|
  {
    if steps == [] then s else Run(c, Apply(c, s, steps[0]), steps[1..])
  }

  /** Some step of the run hands `replica` a peer's broadcast for `key`. */
  ghost predicate Informed(c: Config, s: State, steps: seq<Step>, replica: nat, key: Key)
    requires Legal(c, s, steps)
    decreases |steps|
  {
    steps != [] &&
    (|| (steps[0] == Deliver(replica) && s.inbox[replica][0].key == key && s.inbox[replica][0].sender != replica)
     || Informed(c, Apply(c, s, steps[0]), steps[1..], replica, key))
  }

  // ---------- what every step keeps ----------

  predicate NothingOld(tier: Tier<nat>, key: Key, version: nat) {
    key in tier ==> version <= tier[key].val
  }

  /** No L1 entry for the key outlives `deadline` unless it is the new row. */
  predicate OldDiesBy(tier: Tier<nat>, key: Key, version: nat, deadline: Time) {
    key in tier ==> version <= tier[key].val || tier[key].expiresAt <= deadline
  }

  ghost predicate Bounded(c: Config, s: State) {
    forall r, k | 0 <= r < |s.l1| && k in s.l1[r] :: s.l1[r][k].expiresAt <= s.now + c.l1TTL
  }

  /** After the invalidation: the write is in the log and L2 no longer holds older rows. */
  ghost predicate Settled(s: State, key: Key, version: nat, deadline: Time) {
    && version < |s.log| && s.log[version].key == key
    && NothingOld(s.l2, key, version)
    && forall r | 0 <= r < |s.l1| :: OldDiesBy(s.l1[r], key, version, deadline)
  }

  lemma BoundedStep(c: Config, s: State, step: Step)
    requires Bounded(c, s) && Enabled(s, step)
    ensures Bounded(c, Apply(c, s, step))
  {
  }

  lemma SettledStep(c: Config, s: State, step: Step, key: Key, version: nat, deadline: Time)
    requires Settled(s, key, version, deadline) && Enabled(s, step)
    ensures Settled(Apply(c, s, step), key, version, deadline)
  {
    RowIsLatest(s.log, key, version);
  }

  lemma CleanStep(c: Config, s: State, step: Step, key: Key, version: nat, deadline: Time, replica: nat)
    requires Settled(s, key, version, deadline) && Enabled(s, step)
    requires replica < |s.l1| && NothingOld(s.l1[replica], key, version)
    ensures NothingOld(Apply(c, s, step).l1[replica], key, version)
  {
    RowIsLatest(s.log, key, version);
  }

  lemma {:induction false} BoundedRun(c: Config, s: State, steps: seq<Step>)
    requires Bounded(c, s) && Legal(c, s, steps)
    ensures Bounded(c, Run(c, s, steps))
    decreases |steps|
  {
    if steps != [] {
      BoundedStep(c, s, steps[0]);
      BoundedRun(c, Apply(c, s, steps[0]), steps[1..]);
    }
  }

  /** Whatever follows, a replica is clean once it was clean or has been informed. */
  lemma {:induction false} SettledRun(c: Config, s: State, steps: seq<Step>,
                                      key: Key, version: nat, deadline: Time, replica: nat)
    requires Settled(s, key, version, deadline) && Legal(c, s, steps) && replica < |s.l1|
    ensures |Run(c, s, steps).l1| == |s.l1|
    ensures Settled(Run(c, s, steps), key, version, deadline)
    ensures NothingOld(s.l1[replica], key, version) || Informed(c, s, steps, replica, key) ==>
              NothingOld(Run(c, s, steps).l1[replica], key, version)
    decreases |steps|
  {
    if steps != [] {
      var t := Apply(c, s, steps[0]);
      SettledStep(c, s, steps[0], key, version, deadline);
      if NothingOld(s.l1[replica], key, version) {
        CleanStep(c, s, steps[0], key, version, deadline, replica);
      }
      SettledRun(c, t, steps[1..], key, version, deadline, replica);
    }
  }

  /**
  The claim of internal/cache/tiered.go at this grain. Take any run; let it
  contain a write of `key`, and later a successful Invalidate of it. Whatever
  happens afterwards, a resolve that still answers with an older row is on a
  replica that neither issued the invalidation nor was handed its broadcast, and
  happens before the L1 TTL has passed, even if every broadcast is lost.
  */
  lemma InvalidationBoundedByL1Ttl(c: Config, before: seq<Step>, invalidate: Step, after: seq<Step>,
                                   version: nat, resolve: Step)
    requires Legal(c, Init(c), before)
    requires var s := Run(c, Init(c), before);
             && invalidate.Invalidate? && !invalidate.delFault && Enabled(s, invalidate)
             && version < |s.log| && s.log[version].key == invalidate.key
             && Legal(c, Apply(c, s, invalidate), after)
    requires var s := Run(c, Init(c), before);
             var t := Run(c, Apply(c, s, invalidate), after);
             resolve.Resolve? && resolve.key == invalidate.key && Enabled(t, resolve)
    ensures var s := Run(c, Init(c), before);
            var t := Run(c, Apply(c, s, invalidate), after);
            var answer := Answer(t, resolve);
            answer.Found? && answer.val < version ==>
              && t.now < s.now + c.l1TTL
              && resolve.replica != invalidate.replica
              && !Informed(c, Apply(c, s, invalidate), after, resolve.replica, invalidate.key)
  {
    var s := Run(c, Init(c), before);
    BoundedRun(c, Init(c), before);
    var key, deadline := invalidate.key, s.now + c.l1TTL;
    var s1 := Apply(c, s, invalidate);
    assert Settled(s1, key, version, deadline);
    var t := Run(c, s1, after);
    LengthKept(c, s1, after);
    SettledRun(c, s1, after, key, version, deadline, resolve.replica);
    RowIsLatest(t.log, key, version);
  }

  lemma {:induction false} LengthKept(c: Config, s: State, steps: seq<Step>)
    requires Legal(c, s, steps)
    ensures |Run(c, s, steps).l1| == |s.l1|
    decreases |steps|
  {
    if steps != [] {
      LengthKept(c, Apply(c, s, steps[0]), steps[1..]);
    }
  }

  lemma Prepend(c: Config, s: State, step: Step, rest: seq<Step>)
    requires Enabled(s, step) && Legal(c, Apply(c, s, step), rest)
    ensures Legal(c, s, [step] + rest)
    ensures Run(c, s, [step] + rest) == Run(c, Apply(c, s, step), rest)
  {
    assert ([step] + rest)[1..] == rest;
  }

  /** The TTL bound cannot be improved: with its broadcast lost, a peer answers the
      old row up to the last moment before the deadline. */
  lemma L1TtlIsAttained(c: Config, key: Key)
    requires 2 <= c.replicas && 0 < c.l1TTL
    ensures exists before, after, resolve ::
              && Legal(c, Init(c), before)
              && var s := Run(c, Init(c), before);
                 var invalidate := Invalidate(0, key, false, {});
              && Enabled(s, invalidate) && s.log == [Write(key, true, 0), Write(key, true, 0)]
              && Legal(c, Apply(c, s, invalidate), after)
              && var t := Run(c, Apply(c, s, invalidate), after);
              && resolve == Resolve(1, key, false, false, false)
              && Enabled(t, resolve) && Answer(t, resolve) == Found(0)
              && t.now == s.now + c.l1TTL - 1
  {
    var w, resolve := WriteRow(key, true), Resolve(1, key, false, false, false);
    var s0 := Init(c);
    var s1 := Apply(c, s0, w);
    assert Row(s1.log, key) == Some(0);
    var s2 := Apply(c, s1, resolve);
    assert s2.l1[1] == map[key := Entry(0, c.l1TTL)];
    var s3 := Apply(c, s2, w);
    var before := [w, resolve, w];
    Prepend(c, s2, w, []);
    Prepend(c, s1, resolve, [w]);
    Prepend(c, s0, w, [resolve, w]);
    assert [w] + [] == [w] && [resolve] + [w] == [resolve, w] && [w] + [resolve, w] == before;
    var s4 := Apply(c, s3, Invalidate(0, key, false, {}));
    var tick := Tick(c.l1TTL - 1);
    var s5 := Apply(c, s4, tick);
    Prepend(c, s4, tick, []);
    assert [tick] + [] == [tick];
    assert Answer(s5, resolve) == Found(0);
  }
}
