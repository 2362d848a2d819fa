/**
The same cache with its calls broken into their network round trips, so that
resolves, invalidations, evictions, deliveries, lost messages and crashes of any
number of replicas interleave freely. Each step names the call it advances.

An entry also records when its row was read from the database. The code stores
no such stamp; it is here only so that staleness can be stated, and no step's
behaviour depends on it. `maxDelay` bounds how long after its last read a call
may still take effect; a call that is slower never completes (its context has
expired), which is the step Abandon.
*/
module InterleavedCache {
  import opened Wrappers
  import opened TieredCache
  import opened ProjectsTable

  datatype Config = Config(l1TTL: Time, l2TTL: Time, maxDelay: Time, replicas: nat)

  /** A project row: which write produced it and when it was read from the database. */
  datatype Copy = Copy(version: nat, born: Time)

  datatype Call =
    | Looking(replica: nat, key: Key)                        // L1 missed, GET pending
    | GotL2(replica: nat, key: Key, copy: Copy, readAt: Time)  // GET answered, L1 add pending
    | Selecting(replica: nat, key: Key)                      // L2 missed, SELECT pending
    | GotRow(replica: nat, key: Key, copy: Copy)             // SELECT answered, L1 add pending
    | Setting(replica: nat, key: Key, copy: Copy)            // L1 filled, SET pending
    | Written(replica: nat, key: Key)                        // row written, Invalidate pending
    | Deleting(replica: nat, key: Key)                       // L1 cleared, DEL pending
    | Publishing(replica: nat, key: Key)                     // DEL done, PUBLISH pending

  datatype Message = Message(sender: nat, key: Key)

  type CallId = nat

  datatype State = State(
    now: Time,
    log: seq<Write>,
    l1: seq<Tier<Copy>>,
    l2: Tier<Copy>,
    calls: map<CallId, Call>,
    inbox: seq<seq<Message>>)

  datatype Step =
    | Tick(elapsed: Time)
    | HitL1(replica: nat, key: Key)
    | MissL1(id: CallId, replica: nat, key: Key)
    | ReadL2(id: CallId, fault: bool)
    | FillFromL2(id: CallId)
    | SelectRow(id: CallId, fault: bool)
    | FillFromRow(id: CallId)
    | SetL2(id: CallId, fault: bool)
    | WriteRow(id: CallId, replica: nat, key: Key, live: bool)
    | ClearL1(id: CallId)
    | Del(id: CallId, fault: bool)
    | Publish(id: CallId, reached: set<nat>)
    | Deliver(replica: nat)
    | Lose(replica: nat)
    | Evict(replica: nat, key: Key)
    | Abandon(id: CallId)

  function Init(c: Config): State {
    State(0, [], seq(c.replicas, _ => map[]), map[], map[], seq(c.replicas, _ => []))
  }

  /** The write `version` was what the table held for `key` at some moment with clock `at`. */
  ghost predicate CurrentAt(log: seq<Write>, key: Key, version: nat, at: Time) {
    && version < |log| && log[version].key == key && log[version].live
    && log[version].at <= at
    && forall j | version < j < |log| && log[j].key == key :: at <= log[j].at
  }

  predicate Enabled(c: Config, s: State, step: Step) {
    match step
    case Tick(_) => true
    case HitL1(r, k) => r < |s.l1| && Lookup(s.l1[r], k, s.now).Some?
    case MissL1(id, r, k) => r < |s.l1| && Lookup(s.l1[r], k, s.now).None? && id !in s.calls
    case ReadL2(id, _) => id in s.calls && s.calls[id].Looking?
    case FillFromL2(id) =>
      && id in s.calls && s.calls[id].GotL2? && s.calls[id].replica < |s.l1|
      && s.now <= s.calls[id].readAt + c.maxDelay
    case SelectRow(id, _) => id in s.calls && s.calls[id].Selecting?
    case FillFromRow(id) =>
      && id in s.calls && s.calls[id].GotRow? && s.calls[id].replica < |s.l1|
      && s.now <= s.calls[id].copy.born + c.maxDelay
    case SetL2(id, _) =>
      id in s.calls && s.calls[id].Setting? && s.now <= s.calls[id].copy.born + c.maxDelay
    case WriteRow(id, r, _, _) => r < |s.l1| && id !in s.calls
    case ClearL1(id) => id in s.calls && s.calls[id].Written? && s.calls[id].replica < |s.l1|
    case Del(id, _) => id in s.calls && s.calls[id].Deleting?
    case Publish(id, _) => id in s.calls && s.calls[id].Publishing?
    case Deliver(r) => r < |s.l1| && r < |s.inbox| && s.inbox[r] != []
    case Lose(r) => r < |s.inbox| && s.inbox[r] != []
    case Evict(r, _) => r < |s.l1|
    case Abandon(id) => id in s.calls
  }

  function Apply(c: Config, s: State, step: Step): State
    requires Enabled(c, s, step)
  {
    match step
    case Tick(d) => s.(now := s.now + d)
    case HitL1(_, _) => s
    case MissL1(id, r, k) => s.(calls := s.calls[id := Looking(r, k)])
    case ReadL2(id, fault) =>
      var call := s.calls[id];
      var found := if fault then None else Lookup(s.l2, call.key, s.now);
      s.(calls := s.calls[id := match found
                                case Some(copy) => GotL2(call.replica, call.key, copy, s.now)
                                case None => Selecting(call.replica, call.key)])
    case FillFromL2(id) =>
      var call := s.calls[id];
      s.(l1 := Filled(c, s, call), calls := s.calls - {id})
    case SelectRow(id, fault) =>
      var call := s.calls[id];
      var row := if fault then None else Row(s.log, call.key);
      s.(calls := match row
                  case Some(v) => s.calls[id := GotRow(call.replica, call.key, Copy(v, s.now))]
                  case None => s.calls - {id})
    case FillFromRow(id) =>
      var call := s.calls[id];
      s.(l1 := Filled(c, s, call), calls := s.calls[id := Setting(call.replica, call.key, call.copy)])
    case SetL2(id, fault) =>
      var call := s.calls[id];
      s.(l2 := if fault then s.l2 else s.l2[call.key := Entry(call.copy, s.now + c.l2TTL)],
         calls := s.calls - {id})
    case WriteRow(id, r, k, live) =>
      s.(log := s.log + [Write(k, live, s.now)], calls := s.calls[id := Written(r, k)])
    case ClearL1(id) =>
      var call := s.calls[id];
      s.(l1 := s.l1[call.replica := s.l1[call.replica] - {call.key}],
         calls := s.calls[id := Deleting(call.replica, call.key)])
    case Del(id, fault) =>
      var call := s.calls[id];
      if fault then s.(calls := s.calls - {id})
      else s.(l2 := s.l2 - {call.key}, calls := s.calls[id := Publishing(call.replica, call.key)])
    case Publish(id, reached) =>
      var m := Message(s.calls[id].replica, s.calls[id].key);
      s.(calls := s.calls - {id},
         inbox := seq(|s.inbox|, i requires 0 <= i < |s.inbox| =>
                      if i in reached then s.inbox[i] + [m] else s.inbox[i]))
    case Deliver(r) =>
      var m := s.inbox[r][0];
      s.(inbox := s.inbox[r := s.inbox[r][1..]],
         l1 := if m.sender == r then s.l1 else s.l1[r := s.l1[r] - {m.key}])
    case Lose(r) => s.(inbox := s.inbox[r := s.inbox[r][1..]])
    case Evict(r, k) => s.(l1 := s.l1[r := s.l1[r] - {k}])
    case Abandon(id) => s.(calls := s.calls - {id})
  }

  function Filled(c: Config, s: State, call: Call): seq<Tier<Copy>>
    requires (call.GotL2? || call.GotRow?) && call.replica < |s.l1|
  {
    s.l1[call.replica := s.l1[call.replica][call.key := Entry(call.copy, s.now + c.l1TTL)]]
  }

  /** The steps in which some Resolve returns a project, and what it returns. */
  function Answer(c: Config, s: State, step: Step): Option<(Key, Copy)>
    requires Enabled(c, s, step)
  {
    match step
    case HitL1(r, k) => Some((k, s.l1[r][k].val))
    case FillFromL2(id) => Some((s.calls[id].key, s.calls[id].copy))
    case SetL2(id, _) => Some((s.calls[id].key, s.calls[id].copy))
    case _ => None
  }

  ghost predicate Legal(c: Config, s: State, steps: seq<Step>)
    decreases |steps|
  {
    steps == [] || (Enabled(c, s, steps[0]) && Legal(c, Apply(c, s, steps[0]), steps[1..]))
  }

  ghost function Run(c: Config, s: State, steps: seq<Step>): State
    requires Legal(c, s, steps)
    decreases |steps|
  {
    if steps == [] then s else Run(c, Apply(c, s, steps[0]), steps[1..])
  }

  // ---------- bounded staleness ----------

  predicate FreshUntil(e: Entry<Copy>, slack: int) {
    e.expiresAt <= e.val.born + slack
  }

  ghost predicate CallTrue(c: Config, s: State, call: Call) {
    match call
    case GotL2(_, k, copy, readAt) =>
      && CurrentAt(s.log, k, copy.version, copy.born) && copy.born <= s.now
      && readAt < copy.born + c.maxDelay + c.l2TTL
    case GotRow(_, k, copy) => CurrentAt(s.log, k, copy.version, copy.born) && copy.born <= s.now
    case Setting(_, k, copy) => CurrentAt(s.log, k, copy.version, copy.born) && copy.born <= s.now
    case _ => true
  }

  /** How long after it was read a row can still be in L1: it was in time for L2, and read
      from there in time for L1. */
  function L1Slack(c: Config): int {
    c.l1TTL + c.l2TTL + 2 * c.maxDelay - 1
  }

  ghost predicate TierTrue(s: State, tier: Tier<Copy>, slack: int) {
    forall k | k in tier ::
      && CurrentAt(s.log, k, tier[k].val.version, tier[k].val.born)
      && tier[k].val.born <= s.now && FreshUntil(tier[k], slack)
  }

  /** L1 hits never feed L2, so an L2 entry is one read old and an L1 entry at most two. */
  ghost predicate Truthful(c: Config, s: State) {
    && (forall i | 0 <= i < |s.log| :: s.log[i].at <= s.now)
    && (forall r | 0 <= r < |s.l1| :: TierTrue(s, s.l1[r], L1Slack(c)))
    && TierTrue(s, s.l2, c.l2TTL + c.maxDelay)
    && (forall id | id in s.calls :: CallTrue(c, s, s.calls[id]))
    && (forall r, k | 0 <= r < |s.l1| && k in s.l1[r] :: s.l1[r][k].expiresAt <= s.now + c.l1TTL)
  }

  lemma {:induction false} RowIsCurrent(log: seq<Write>, key: Key, now: Time)
    requires forall i | 0 <= i < |log| :: log[i].at <= now
    ensures Row(log, key).Some? ==> CurrentAt(log, key, Row(log, key).value, now)
    ensures forall i | 0 <= i < |log| && log[i].key == key && Row(log, key).Some? :: i <= Row(log, key).value
  {
    if log != [] && log[|log| - 1].key != key {
      RowIsCurrent(log[..|log| - 1], key, now);
    }
  }

  /** The past does not change: later writes and later clocks keep what was current. */
  lemma HistoryKept(c: Config, s: State, step: Step)
    requires Truthful(c, s) && Enabled(c, s, step)
    ensures var t := Apply(c, s, step);
            && s.now <= t.now
            && (forall i | 0 <= i < |t.log| :: t.log[i].at <= t.now)
            && forall k, v: nat, at: Time | CurrentAt(s.log, k, v, at) && at <= s.now :: CurrentAt(t.log, k, v, at)
  {
  }

  lemma L2Step(c: Config, s: State, step: Step)
    requires 0 < c.l2TTL && Truthful(c, s) && Enabled(c, s, step)
    ensures TierTrue(Apply(c, s, step), Apply(c, s, step).l2, c.l2TTL + c.maxDelay)
  {
    hide CurrentAt;
    HistoryKept(c, s, step);
    if step.SetL2? {
      assert CallTrue(c, s, s.calls[step.id]);
    }
  }

  lemma L1Step(c: Config, s: State, step: Step)
    requires 0 < c.l2TTL && Truthful(c, s) && Enabled(c, s, step)
    ensures var t := Apply(c, s, step);
            forall r | 0 <= r < |t.l1| :: TierTrue(t, t.l1[r], L1Slack(c))
  {
    hide CurrentAt;
    HistoryKept(c, s, step);
    var t := Apply(c, s, step);
    if step.FillFromL2? || step.FillFromRow? {
      assert CallTrue(c, s, s.calls[step.id]);
    }
    forall r | 0 <= r < |t.l1| ensures TierTrue(t, t.l1[r], L1Slack(c)) {
      assert TierTrue(s, s.l1[r], L1Slack(c));
    }
  }

  lemma CallsStep(c: Config, s: State, step: Step)
    requires 0 < c.l2TTL && Truthful(c, s) && Enabled(c, s, step)
    ensures var t := Apply(c, s, step); forall id | id in t.calls :: CallTrue(c, t, t.calls[id])
  {
    if step.ReadL2? && s.calls[step.id].key in s.l2 {
      var e := s.l2[s.calls[step.id].key];
      assert CurrentAt(s.log, s.calls[step.id].key, e.val.version, e.val.born) && e.val.born <= s.now;
      assert FreshUntil(e, c.l2TTL + c.maxDelay);
    }
    hide TierTrue;
    HistoryKept(c, s, step);
    var t := Apply(c, s, step);
    if step.SelectRow? {
      RowIsCurrent(s.log, s.calls[step.id].key, s.now);
    }
    forall id | id in t.calls ensures CallTrue(c, t, t.calls[id]) {
      if id in s.calls {
        assert CallTrue(c, s, s.calls[id]);
      }
    }
  }

  lemma TruthfulStep(c: Config, s: State, step: Step)
    requires 0 < c.l2TTL && Truthful(c, s) && Enabled(c, s, step)
    ensures Truthful(c, Apply(c, s, step))
  {
    hide CurrentAt, TierTrue, CallTrue, Apply, Enabled;
    HistoryKept(c, s, step);
    L1Step(c, s, step);
    L2Step(c, s, step);
    CallsStep(c, s, step);
    L1Deadlines(c, s, step);
  }

  lemma L1Deadlines(c: Config, s: State, step: Step)
    requires 0 < c.l2TTL && Truthful(c, s) && Enabled(c, s, step)
    ensures var t := Apply(c, s, step);
            forall r, k | 0 <= r < |t.l1| && k in t.l1[r] :: t.l1[r][k].expiresAt <= t.now + c.l1TTL
  {
  }

  lemma {:induction false} TruthfulRun(c: Config, s: State, steps: seq<Step>)
    requires 0 < c.l2TTL && Truthful(c, s) && Legal(c, s, steps)
    ensures Truthful(c, Run(c, s, steps))
    decreases |steps|
  {
    if steps != [] {
      TruthfulStep(c, s, steps[0]);
      TruthfulRun(c, Apply(c, s, steps[0]), steps[1..]);
    }
  }

  /** In every run, a project answered at time t was the database's row at some
      time later than t - (L1 TTL + L2 TTL + two call delays); by two ticks of the clock,
      as both deadlines are strict. */
  lemma BoundedStaleness(c: Config, steps: seq<Step>, step: Step)
    requires 0 < c.l1TTL && 0 < c.l2TTL && Legal(c, Init(c), steps) && Enabled(c, Run(c, Init(c), steps), step)
    ensures var s := Run(c, Init(c), steps);
            match Answer(c, s, step)
            case Some((key, copy)) =>
              exists at: Time :: && CurrentAt(s.log, key, copy.version, at)
                           && at <= s.now <= at + c.l1TTL + c.l2TTL + 2 * c.maxDelay - 2
            case None => true
  {
    TruthfulRun(c, Init(c), steps);
    var s := Run(c, Init(c), steps);
    match Answer(c, s, step)
    case Some((key, copy)) => assert CurrentAt(s.log, key, copy.version, copy.born);
    case None =>
  }

  // ---------- invalidation ----------

  predicate NothingOld(tier: Tier<Copy>, key: Key, version: nat) {
    key in tier ==> version <= tier[key].val.version
  }

  /** A resolve that read an older row from the database and may still write it to L2. */
  predicate StaleFill(c: Config, s: State, call: Call, key: Key, version: nat) {
    && (call.GotRow? || call.Setting?) && call.replica < |s.l1|
    && call.key == key && call.copy.version < version
    && s.now <= call.copy.born + c.maxDelay
  }

  ghost predicate Quiet(c: Config, s: State, key: Key, version: nat) {
    forall id | id in s.calls :: !StaleFill(c, s, s.calls[id], key, version)
  }

  predicate CallSettled(c: Config, s: State, call: Call, key: Key, version: nat, since: Time) {
    && call.replica < |s.l1|
    && !StaleFill(c, s, call, key, version)
    && (call.GotL2? && call.key == key ==> version <= call.copy.version || call.readAt <= since)
  }

  predicate TierSettled(tier: Tier<Copy>, key: Key, version: nat, deadline: Time) {
    key in tier ==> version <= tier[key].val.version || tier[key].expiresAt <= deadline
  }

  ghost predicate Settled(c: Config, s: State, key: Key, version: nat, since: Time) {
    && since <= s.now
    && (forall i | 0 <= i < |s.log| :: s.log[i].at <= s.now)
    && version < |s.log| && s.log[version].key == key
    && NothingOld(s.l2, key, version)
    && (forall id | id in s.calls :: CallSettled(c, s, s.calls[id], key, version, since))
    && (forall r | 0 <= r < |s.l1| :: TierSettled(s.l1[r], key, version, since + c.maxDelay + c.l1TTL))
  }

  lemma SettledStep(c: Config, s: State, step: Step, key: Key, version: nat, since: Time)
    requires Settled(c, s, key, version, since) && Enabled(c, s, step)
    ensures Settled(c, Apply(c, s, step), key, version, since)
  {
    var t := Apply(c, s, step);
    if step.SelectRow? {
      RowIsCurrent(s.log, s.calls[step.id].key, s.now);
    }
    forall call | CallSettled(c, s, call, key, version, since)
      ensures CallSettled(c, t, call, key, version, since)
    {
    }
  }

  ghost predicate Placed(s: State) {
    forall id | id in s.calls :: s.calls[id].replica < |s.l1|
  }

  lemma {:induction false} PlacedRun(c: Config, s: State, steps: seq<Step>)
    requires Placed(s) && Legal(c, s, steps)
    ensures Placed(Run(c, s, steps)) && |Run(c, s, steps).l1| == |s.l1|
    ensures s.now <= Run(c, s, steps).now
    decreases |steps|
  {
    if steps != [] {
      PlacedRun(c, Apply(c, s, steps[0]), steps[1..]);
    }
  }

  lemma {:induction false} SettledRun(c: Config, s: State, steps: seq<Step>, key: Key, version: nat, since: Time)
    requires Settled(c, s, key, version, since) && Legal(c, s, steps)
    ensures Settled(c, Run(c, s, steps), key, version, since)
    decreases |steps|
  {
    if steps != [] {
      SettledStep(c, s, steps[0], key, version, since);
      SettledRun(c, Apply(c, s, steps[0]), steps[1..], key, version, since);
    }
  }

  /** In some continuation a resolve answers with an older row at or after `deadline`. */
  ghost predicate AnswersOldAt(c: Config, s: State, steps: seq<Step>, step: Step,
                               key: Key, version: nat, deadline: Time) {
    && Legal(c, s, steps)
    && var t := Run(c, s, steps);
    && deadline <= t.now && Enabled(c, t, step)
    && Answer(c, t, step).Some? && Answer(c, t, step).value.0 == key
    && Answer(c, t, step).value.1.version < version
  }

  ghost predicate OldRowOutlives(c: Config, s: State, key: Key, version: nat, deadline: Time) {
    exists steps, step :: AnswersOldAt(c, s, steps, step, key, version, deadline)
  }

  /** A state reached by some run in which the write `version` of `key` is in the log
      and L2 holds nothing older: what an Invalidate leaves once its DEL has applied. */
  ghost predicate JustDeleted(c: Config, before: seq<Step>, key: Key, version: nat) {
    && Legal(c, Init(c), before)
    && var s := Run(c, Init(c), before);
    && version < |s.log| && s.log[version].key == key && NothingOld(s.l2, key, version)
  }

  lemma QuietGivesL1Bound(c: Config, before: seq<Step>, key: Key, version: nat)
    requires 0 < c.l1TTL && 0 < c.l2TTL && JustDeleted(c, before, key, version)
    requires Quiet(c, Run(c, Init(c), before), key, version)
    ensures var s := Run(c, Init(c), before);
            !OldRowOutlives(c, s, key, version, s.now + c.maxDelay + c.l1TTL)
  {
    var s := Run(c, Init(c), before);
    TruthfulRun(c, Init(c), before);
    PlacedRun(c, Init(c), before);
    GotL2Past(c, Init(c), before);
    var deadline := s.now + c.maxDelay + c.l1TTL;
    forall steps, step | AnswersOldAt(c, s, steps, step, key, version, deadline)
      ensures false
    {
      SettledRun(c, s, steps, key, version, s.now);
      PlacedRun(c, s, steps);
    }
  }

  ghost predicate ReadsPast(s: State) {
    forall id | id in s.calls && s.calls[id].GotL2? :: s.calls[id].readAt <= s.now
  }

  lemma {:induction false} GotL2Past(c: Config, s: State, steps: seq<Step>)
    requires ReadsPast(s) && Legal(c, s, steps)
    ensures ReadsPast(Run(c, s, steps))
    decreases |steps|
  {
    if steps != [] {
      GotL2Past(c, Apply(c, s, steps[0]), steps[1..]);
    }
  }

  /** Extends a run from any state, keeping track of the state it ends in. */
  lemma Extend(c: Config, from: State, steps: seq<Step>, s: State, step: Step)
    returns (steps': seq<Step>, s': State)
    requires Legal(c, from, steps) && s == Run(c, from, steps) && Enabled(c, s, step)
    ensures steps' == steps + [step] && s' == Apply(c, s, step)
    ensures Legal(c, from, steps') && s' == Run(c, from, steps')
  {
    Append(c, from, steps, step);
    steps', s' := steps + [step], Apply(c, s, step);
  }

  /** The stale call puts its row into L2, and L1 forgets it. */
  lemma FillLands(c: Config, s: State, key: Key, version: nat, id: CallId) returns (steps: seq<Step>, t: State)
    requires id in s.calls && StaleFill(c, s, s.calls[id], key, version)
    ensures Legal(c, s, steps) && t == Run(c, s, steps) && t.now == s.now && |t.l1| == |s.l1|
    ensures id !in t.calls && key !in t.l1[s.calls[id].replica]
    ensures key in t.l2 && t.l2[key] == Entry(s.calls[id].copy, s.now + c.l2TTL)
  {
    var call := s.calls[id];
    steps, t := [], s;
    if call.GotRow? {
      steps, t := Extend(c, s, [], s, FillFromRow(id));
    }
    assert t.calls[id] == Setting(call.replica, key, call.copy) && t.now == s.now && |t.l1| == |s.l1|;
    steps, t := Extend(c, s, steps, t, SetL2(id, false));
    steps, t := Extend(c, s, steps, t, Evict(call.replica, key));
  }

  /** A later resolve on a replica that has forgotten the key gets what L2 holds. */
  lemma L2IsAnswered(c: Config, from: State, steps: seq<Step>, s: State, key: Key, id: CallId, replica: nat, wait: nat)
    returns (steps': seq<Step>, t: State)
    requires Legal(c, from, steps) && s == Run(c, from, steps) && replica < |s.l1|
    requires id !in s.calls && key !in s.l1[replica] && key in s.l2 && s.now + wait < s.l2[key].expiresAt
    ensures Legal(c, from, steps') && t == Run(c, from, steps') && t.now == s.now + wait && t.log == s.log
    ensures id in t.calls && t.calls[id] == GotL2(replica, key, s.l2[key].val, t.now) && |t.l1| == |s.l1|
  {
    steps', t := Extend(c, from, steps, s, Tick(wait));
    steps', t := Extend(c, from, steps', t, MissL1(id, replica, key));
    steps', t := Extend(c, from, steps', t, ReadL2(id, false));
  }

  /** What a Get has read from L2 it may answer from L1 a delay and an L1 TTL later. */
  lemma L1AnswersLate(c: Config, from: State, steps: seq<Step>, s: State, id: CallId)
    returns (steps': seq<Step>, t: State)
    requires Legal(c, from, steps) && s == Run(c, from, steps) && 0 < c.l1TTL
    requires id in s.calls && s.calls[id].GotL2? && s.calls[id].replica < |s.l1| && s.calls[id].readAt == s.now
    ensures Legal(c, from, steps') && t == Run(c, from, steps')
    ensures t.now == s.now + c.maxDelay + c.l1TTL - 1 && t.log == s.log
    ensures var call := s.calls[id]; var hit := HitL1(call.replica, call.key);
            Enabled(c, t, hit) && Answer(c, t, hit) == Some((call.key, call.copy))
  {
    var call := s.calls[id];
    steps', t := Extend(c, from, steps, s, Tick(c.maxDelay));
    steps', t := Extend(c, from, steps', t, FillFromL2(id));
    assert t.l1[call.replica][call.key] == Entry(call.copy, t.now + c.l1TTL);
    steps', t := Extend(c, from, steps', t, Tick(c.l1TTL - 1));
  }

  /** A stale fill lands after the DEL, and L2 then hands the old row to L1 again. Two
      ticks of L2 TTL are enough: one to be read in, and one to be late. */
  lemma StaleFillBreaksL1Bound(c: Config, s: State, key: Key, version: nat, id: CallId)
    requires 0 < c.l1TTL && 2 <= c.l2TTL
    requires id in s.calls && StaleFill(c, s, s.calls[id], key, version)
    ensures OldRowOutlives(c, s, key, version, s.now + c.maxDelay + c.l1TTL)
  {
    var call := s.calls[id];
    var steps, t := FillLands(c, s, key, version, id);
    hide StaleFill, Legal, Run, Enabled, Apply, Answer;
    steps, t := L2IsAnswered(c, s, steps, t, key, id, call.replica, c.l2TTL - 1);
    steps, t := L1AnswersLate(c, s, steps, t, id);
    StaleIsOld(c, s, call, key, version);
    assert AnswersOldAt(c, s, steps, HitL1(call.replica, key), key, version, s.now + c.maxDelay + c.l1TTL);
  }

  lemma StaleIsOld(c: Config, s: State, call: Call, key: Key, version: nat)
    requires StaleFill(c, s, call, key, version)
    ensures call.key == key && call.copy.version < version && call.replica < |s.l1|
  {
  }

  /**
  Exactly when the L1 bound survives interleaving. Once an invalidation's DEL has
  applied, no older row is answered one L1 TTL (and one call delay) later, if and
  only if no resolve was then holding an older row it had yet to write to L2.
  */
  lemma L1BoundIffNoStaleFill(c: Config, before: seq<Step>, key: Key, version: nat)
    requires 0 < c.l1TTL && 2 <= c.l2TTL
    requires JustDeleted(c, before, key, version)
    ensures var s := Run(c, Init(c), before);
            !OldRowOutlives(c, s, key, version, s.now + c.maxDelay + c.l1TTL) <==> Quiet(c, s, key, version)
  {
    var s := Run(c, Init(c), before);
    if Quiet(c, s, key, version) {
      QuietGivesL1Bound(c, before, key, version);
    } else {
      var id :| id in s.calls && StaleFill(c, s, s.calls[id], key, version);
      StaleFillBreaksL1Bound(c, s, key, version, id);
    }
  }

  // ---------- the two races are real ----------

  lemma {:induction false} Append(c: Config, s: State, steps: seq<Step>, step: Step)
    requires Legal(c, s, steps) && Enabled(c, Run(c, s, steps), step)
    ensures Legal(c, s, steps + [step]) && Run(c, s, steps + [step]) == Apply(c, Run(c, s, steps), step)
    decreases |steps|
  {
    if steps == [] {
      assert [step][1..] == [];
    } else {
      Append(c, Apply(c, s, steps[0]), steps[1..], step);
      assert (steps + [step])[1..] == steps[1..] + [step];
    }
  }

  /** A project is created and one resolve has selected its row. */
  lemma RowSelected(c: Config, key: Key) returns (steps: seq<Step>, s: State)
    requires 0 < c.replicas
    ensures Legal(c, Init(c), steps) && s == Run(c, Init(c), steps)
    ensures s == Init(c).(log := [Write(key, true, 0)],
                          calls := map[0 := Written(0, key), 1 := GotRow(0, key, Copy(0, 0))])
  {
    steps, s := Extend(c, Init(c), [], Init(c), WriteRow(0, 0, key, true));
    assert Row(s.log, key) == Some(0);
    steps, s := Extend(c, Init(c), steps, s, MissL1(1, 0, key));
    steps, s := Extend(c, Init(c), steps, s, ReadL2(1, false));
    steps, s := Extend(c, Init(c), steps, s, SelectRow(1, false));
  }

  /** An update and its invalidation then overtake the resolve: the DEL has applied
      and the fill with the old row is still to come. */
  lemma StaleFillIsReachable(c: Config, key: Key)
    requires 0 < c.replicas
    ensures exists before :: JustDeleted(c, before, key, 1) && !Quiet(c, Run(c, Init(c), before), key, 1)
  {
    var steps, s := RowSelected(c, key);
    steps, s := Extend(c, Init(c), steps, s, WriteRow(2, 0, key, true));
    steps, s := Extend(c, Init(c), steps, s, ClearL1(2));
    steps, s := Extend(c, Init(c), steps, s, Del(2, false));
    assert StaleFill(c, s, s.calls[1], key, 1);
    assert JustDeleted(c, steps, key, 1);
  }

  lemma RowCached(c: Config, key: Key) returns (steps: seq<Step>, s: State)
    requires 0 < c.replicas
    ensures Legal(c, Init(c), steps) && s == Run(c, Init(c), steps)
    ensures s == Init(c).(log := [Write(key, true, 0)], calls := map[0 := Written(0, key)],
                          l1 := Init(c).l1[0 := map[key := Entry(Copy(0, 0), c.l1TTL)]],
                          l2 := map[key := Entry(Copy(0, 0), c.l2TTL)])
  {
    steps, s := RowSelected(c, key);
    steps, s := Extend(c, Init(c), steps, s, FillFromRow(1));
    steps, s := Extend(c, Init(c), steps, s, SetL2(1, false));
  }

  /** The row changes, and its invalidation has done the first of its two deletes. */
  lemma HalfInvalidated(c: Config, key: Key) returns (steps: seq<Step>, s: State)
    requires 0 < c.replicas && 0 < c.l2TTL
    ensures Legal(c, Init(c), steps) && s == Run(c, Init(c), steps)
    ensures s == Init(c).(log := [Write(key, true, 0), Write(key, true, 0)],
                          calls := map[0 := Written(0, key), 2 := Deleting(0, key)],
                          l2 := map[key := Entry(Copy(0, 0), c.l2TTL)])
  {
    steps, s := RowCached(c, key);
    hide Legal, Run;
    steps, s := Extend(c, Init(c), steps, s, WriteRow(2, 0, key, true));
    steps, s := Extend(c, Init(c), steps, s, ClearL1(2));
    assert s.l1 == Init(c).l1;
  }

  /** While an invalidation is between its two deletes, a Get reads the old row from L2. */
  lemma OldRowInHand(c: Config, key: Key) returns (steps: seq<Step>, s: State)
    requires 0 < c.replicas && 0 < c.l2TTL
    ensures Legal(c, Init(c), steps) && s == Run(c, Init(c), steps)
    ensures s == Init(c).(log := [Write(key, true, 0), Write(key, true, 0)],
                          calls := map[0 := Written(0, key), 1 := GotL2(0, key, Copy(0, 0), 0), 2 := Deleting(0, key)],
                          l2 := map[key := Entry(Copy(0, 0), c.l2TTL)])
  {
    steps, s := HalfInvalidated(c, key);
    hide Legal, Run;
    steps, s := Extend(c, Init(c), steps, s, MissL1(1, 0, key));
    steps, s := Extend(c, Init(c), steps, s, ReadL2(1, false));
  }

  /** The invalidation goes through, and its broadcast is on the way to its own replica. */
  lemma BroadcastSent(c: Config, key: Key) returns (steps: seq<Step>, s: State)
    requires 0 < c.replicas && 0 < c.l2TTL
    ensures Legal(c, Init(c), steps) && s == Run(c, Init(c), steps)
    ensures s.log == [Write(key, true, 0), Write(key, true, 0)] && s.l2 == map[] && s.l1 == Init(c).l1 && s.now == 0
    ensures |s.inbox| == c.replicas && s.inbox[0] == [Message(0, key)]
    ensures 1 in s.calls && s.calls[1] == GotL2(0, key, Copy(0, 0), 0)
  {
    steps, s := OldRowInHand(c, key);
    steps, s := Extend(c, Init(c), steps, s, Del(2, false));
    assert s.l2 == map[];
    steps, s := Extend(c, Init(c), steps, s, Publish(2, {0}));
  }

  /** Delete clears L1 before L2 and later skips its own broadcast, so that Get leaves
      the old row in the L1 of the very replica that invalidated it, after the
      broadcast has been delivered there. */
  lemma OwnBroadcastIsSkipped(c: Config, key: Key)
    requires 0 < c.replicas && 0 < c.l1TTL && 0 < c.l2TTL
    ensures exists steps ::
              && Legal(c, Init(c), steps) && steps != [] && steps[|steps| - 1] == Deliver(0)
              && var s := Run(c, Init(c), steps);
              && s.log == [Write(key, true, 0), Write(key, true, 0)] && key !in s.l2
              && Enabled(c, s, HitL1(0, key)) && Answer(c, s, HitL1(0, key)) == Some((key, Copy(0, 0)))
  {
    var steps, s := BroadcastSent(c, key);
    steps, s := Extend(c, Init(c), steps, s, FillFromL2(1));
    steps, s := Extend(c, Init(c), steps, s, Deliver(0));
    assert s.l1[0][key] == Entry(Copy(0, 0), c.l1TTL);
  }

  /** A row is overwritten just after a resolve selected it, then takes as long as it can
      to get into L2, out of it again and into L1. */
  lemma OldFillLate(c: Config, key: Key) returns (steps: seq<Step>, s: State)
    requires 0 < c.replicas
    ensures Legal(c, Init(c), steps) && s == Run(c, Init(c), steps)
    ensures s.log == [Write(key, true, 0), Write(key, true, 0)] && s.now == c.maxDelay && |s.l1| == c.replicas
    ensures 1 in s.calls && s.calls[1] == Setting(0, key, Copy(0, 0)) && s.l2 == map[]
  {
    steps, s := RowSelected(c, key);
    hide Legal, Run;
    steps, s := Extend(c, Init(c), steps, s, WriteRow(2, 0, key, true));
    steps, s := Extend(c, Init(c), steps, s, Tick(c.maxDelay));
    steps, s := Extend(c, Init(c), steps, s, FillFromRow(1));
  }

  lemma OldRowInL2(c: Config, key: Key) returns (steps: seq<Step>, s: State)
    requires 0 < c.replicas && 0 < c.l2TTL
    ensures Legal(c, Init(c), steps) && s == Run(c, Init(c), steps)
    ensures s.log == [Write(key, true, 0), Write(key, true, 0)] && s.now == c.maxDelay && |s.l1| == c.replicas
    ensures 1 !in s.calls && key !in s.l1[0] && s.l2 == map[key := Entry(Copy(0, 0), c.maxDelay + c.l2TTL)]
  {
    steps, s := OldFillLate(c, key);
    hide Legal, Run;
    steps, s := Extend(c, Init(c), steps, s, SetL2(1, false));
    steps, s := Extend(c, Init(c), steps, s, Evict(0, key));
  }

  /** The staleness bound cannot be improved: a run whose answer was last the database's
      row exactly that long ago. */
  lemma StalenessIsAttained(c: Config, key: Key)
    requires 0 < c.replicas && 0 < c.l1TTL && 0 < c.l2TTL
    ensures exists steps ::
              && Legal(c, Init(c), steps)
              && var s := Run(c, Init(c), steps);
              && Enabled(c, s, HitL1(0, key)) && Answer(c, s, HitL1(0, key)) == Some((key, Copy(0, 0)))
              && (forall at: Time | CurrentAt(s.log, key, 0, at) :: at == 0)
              && s.now == c.l1TTL + c.l2TTL + 2 * c.maxDelay - 2
  {
    var steps, s := OldRowInL2(c, key);
    hide Legal, Run, Enabled, Apply, Answer;
    steps, s := L2IsAnswered(c, Init(c), steps, s, key, 1, 0, c.l2TTL - 1);
    steps, s := L1AnswersLate(c, Init(c), steps, s, 1);
    assert s.log[1] == Write(key, true, 0);
    assert forall at: Time | CurrentAt(s.log, key, 0, at) :: at == 0;
  }
}
