/**
The realtime counters (internal/metrics/realtime.go): one Redis key per metric,
project and second, bumped by pipelines of INCRBY and EXPIRE, and summed over the
last W seconds.

Redis and its clock are modelled as a state machine: the pipelines of any number of
collectors run one command at a time, in any interleaving, and any of them may be
cut off for good. Clocks are in milliseconds and shared.
*/
module Realtime {
  import opened Wrappers
  import Text

  // ---------- configuration ----------

  datatype Config = Config(window: int, retention: int)

  /** New's defaults, in seconds. */
  function New(window: int, retention: int): (c: Config)
    ensures c.window > 0 && c.retention > 0
    ensures c.window == (if window > 0 then window else 60)
    ensures if retention > 0 && retention >= c.window then c.retention == retention else c.retention == 7200
  {
    var w := if window <= 0 then 60 else window;
    Config(w, if retention <= 0 || retention < w then 7200 else retention)
  }

  /** Whatever retention is asked for, it covers the window exactly for windows of at most
      7200 seconds. */
  lemma RetentionCoversWindow(window: int)
    ensures (forall r: int :: New(window, r).retention >= New(window, r).window) <==> window <= 7200
  {
    if window > 7200 {
      assert New(window, 0).retention == 7200;
    }
  }

  // ---------- keys ----------

  datatype Metric = Qps | Tok | Cost

  function Name(m: Metric): string {
    match m
    case Qps => "qps"
    case Tok => "tok"
    case Cost => "cost"
  }

  datatype Slot = Slot(metric: Metric, project: string, bucket: int)

  function FormatInt(n: int): string {
    if n < 0 then "-" + Text.Dec(-n) else Text.Dec(n)
  }

  function ProjectKey(s: Slot): string {
    "m:" + Name(s.metric) + ":" + s.project + ":" + FormatInt(s.bucket)
  }

  lemma FormatIntReads(a: int, b: int)
    ensures ':' !in FormatInt(a)
    ensures FormatInt(a) == FormatInt(b) ==> a == b
  {
    SignReads(a);
    SignReads(b);
    Text.DecReads(if a < 0 then -a else a);
    Text.DecReads(if b < 0 then -b else b);
    hide FormatInt, Text.Dec, Text.IsDigit;
  }

  /** The sign and the digits can be told from the text. */
  lemma SignReads(n: int)
    ensures var s, x := FormatInt(n), if n < 0 then -n else n;
            && s != [] && ':' !in s && (n < 0 <==> s[0] == '-')
            && Text.Dec(x) == if n < 0 then s[1..] else s
  {
    var x := if n < 0 then -n else n;
    Text.DecReads(x);
    hide Text.Dec;
    assert Text.IsDigit(Text.Dec(x)[0]);
    assert ("-" + Text.Dec(x))[1..] == Text.Dec(x);
  }

  /** No cross-talk: different metrics, projects or seconds never share a key, even when
      project ids contain colons. */
  lemma KeysAreDistinct(a: Slot, b: Slot)
    requires ProjectKey(a) == ProjectKey(b)
    ensures a == b
  {
    FormatIntReads(a.bucket, b.bucket);
    FormatIntReads(b.bucket, a.bucket);
    hide FormatInt;
    var left, right := "m:" + Name(a.metric) + ":" + a.project, "m:" + Name(b.metric) + ":" + b.project;
    Text.SplitLast(left, FormatInt(a.bucket), right, FormatInt(b.bucket), ':');
    assert left[2..] == Name(a.metric) + [':'] + a.project;
    assert right[2..] == Name(b.metric) + [':'] + b.project;
    Text.SplitFirst(Name(a.metric), a.project, Name(b.metric), b.project, ':');
    assert Name(a.metric)[0] == Name(b.metric)[0];
  }

  // ---------- what RecordBatch sends ----------

  datatype Sample = Sample(project: string, tokens: int, costMicros: int)

  datatype Command =
    | IncrBy(slot: Slot, amount: int)
    | Expire(slot: Slot)

  function SampleCommands(s: Sample, bucket: int): seq<Command> {
    var qps, tok, cost := Slot(Qps, s.project, bucket), Slot(Tok, s.project, bucket), Slot(Cost, s.project, bucket);
    if s.project == "" then []
    else
      [IncrBy(qps, 1), Expire(qps)] +
      (if s.tokens > 0 then [IncrBy(tok, s.tokens), Expire(tok)] else []) +
      (if s.costMicros > 0 then [IncrBy(cost, s.costMicros), Expire(cost)] else [])
  }

  function Commands(samples: seq<Sample>, bucket: int): seq<Command> {
    if samples == [] then []
    else Commands(samples[..|samples| - 1], bucket) + SampleCommands(samples[|samples| - 1], bucket)
  }

  /** What one sample is worth to a metric. */
  function Worth(s: Sample, metric: Metric): int {
    match metric
    case Qps => 1
    case Tok => if s.tokens > 0 then s.tokens else 0
    case Cost => if s.costMicros > 0 then s.costMicros else 0
  }

  function Total(samples: seq<Sample>, metric: Metric, project: string): int {
    if samples == [] then 0
    else Total(samples[..|samples| - 1], metric, project) +
         (if samples[|samples| - 1].project == project then Worth(samples[|samples| - 1], metric) else 0)
  }

  function Incremented(commands: seq<Command>, slot: Slot): int {
    if commands == [] then 0
    else
      var last := commands[|commands| - 1];
      Incremented(commands[..|commands| - 1], slot) + (if last.IncrBy? && last.slot == slot then last.amount else 0)
  }

  lemma {:induction false} IncrementedJoins(a: seq<Command>, b: seq<Command>, slot: Slot)
    ensures Incremented(a + b, slot) == Incremented(a, slot) + Incremented(b, slot)
    decreases |b|
  {
    if b == [] {
      assert a + b == a;
    } else {
      assert (a + b)[..|a + b| - 1] == a + b[..|b| - 1];
      IncrementedJoins(a, b[..|b| - 1], slot);
    }
  }

  lemma BumpIncrements(target: Slot, amount: int, slot: Slot)
    ensures Incremented([IncrBy(target, amount), Expire(target)], slot) == if target == slot then amount else 0
  {
    var bump := [IncrBy(target, amount), Expire(target)];
    assert bump[..1] == [IncrBy(target, amount)] && bump[..1][..0] == [];
    assert Incremented(bump[..1], slot) == if target == slot then amount else 0;
  }

  lemma SampleIncrements(s: Sample, bucket: int, slot: Slot)
    ensures Incremented(SampleCommands(s, bucket), slot) ==
            if s.project != "" && slot.project == s.project && slot.bucket == bucket then Worth(s, slot.metric) else 0
  {
    if s.project != "" {
      var qps, tok, cost := Slot(Qps, s.project, bucket), Slot(Tok, s.project, bucket), Slot(Cost, s.project, bucket);
      var first := [IncrBy(qps, 1), Expire(qps)];
      var second := if s.tokens > 0 then [IncrBy(tok, s.tokens), Expire(tok)] else [];
      var third := if s.costMicros > 0 then [IncrBy(cost, s.costMicros), Expire(cost)] else [];
      BumpIncrements(qps, 1, slot);
      BumpIncrements(tok, s.tokens, slot);
      BumpIncrements(cost, s.costMicros, slot);
      IncrementedJoins(first + second, third, slot);
      IncrementedJoins(first, second, slot);
      assert Incremented([], slot) == 0;
    }
  }

  /** A pipeline bumps each counter of its second by what the batch is worth to it, and
      nothing else; samples without a project count nowhere. */
  lemma {:induction false} PipelineIsTotals(samples: seq<Sample>, bucket: int, slot: Slot)
    ensures Incremented(Commands(samples, bucket), slot) ==
            if slot.project != "" && slot.bucket == bucket then Total(samples, slot.metric, slot.project) else 0
  {
    if samples != [] {
      var init, last := samples[..|samples| - 1], samples[|samples| - 1];
      PipelineIsTotals(init, bucket, slot);
      SampleIncrements(last, bucket, slot);
      IncrementedJoins(Commands(init, bucket), SampleCommands(last, bucket), slot);
    }
  }

  lemma {:induction false} JoinExpires(a: seq<Command>, b: seq<Command>)
    requires EveryBumpExpires(a) && EveryBumpExpires(b)
    ensures EveryBumpExpires(a + b)
  {
    var ab := a + b;
    forall i | 0 <= i < |ab| && ab[i].IncrBy? ensures i + 1 < |ab| && ab[i + 1] == Expire(ab[i].slot) {
      if i < |a| {
        assert a[i] == ab[i];
        assert ab[i + 1] == a[i + 1];
      } else {
        assert b[i - |a|] == ab[i];
        assert ab[i + 1] == b[i + 1 - |a|];
      }
    }
  }

  /** Each increment is followed by the expiry of its counter. */
  ghost predicate EveryBumpExpires(commands: seq<Command>) {
    forall i | 0 <= i < |commands| && commands[i].IncrBy? ::
      i + 1 < |commands| && commands[i + 1] == Expire(commands[i].slot)
  }

  /** No counter that a pipeline bumps is left without an expiry. */
  lemma {:induction false} PipelineExpires(samples: seq<Sample>, bucket: int)
    ensures EveryBumpExpires(Commands(samples, bucket))
  {
    if samples != [] {
      var n := |samples| - 1;
      PipelineExpires(samples[..n], bucket);
      JoinExpires(Commands(samples[..n], bucket), SampleCommands(samples[n], bucket));
    }
  }

  // ---------- Redis ----------

  datatype Counter = Counter(value: int, expires: Option<int>)

  type Store = map<string, Counter>

  predicate Live(store: Store, key: string, now: nat) {
    key in store && (store[key].expires.None? || now < store[key].expires.value)
  }

  function Read(store: Store, key: string, now: nat): int {
    if Live(store, key, now) then store[key].value else 0
  }

  function Executed(store: Store, c: Command, now: nat, retention: int): Store {
    var key := ProjectKey(c.slot);
    match c
    case IncrBy(_, amount) =>
      store[key := if Live(store, key, now) then Counter(store[key].value + amount, store[key].expires)
                   else Counter(amount, None)]
    case Expire(_) =>
      if Live(store, key, now) then store[key := Counter(store[key].value, Some(now + 1000 * retention))] else store
  }

  /** One RecordBatch call. */
  datatype Batch = Batch(samples: seq<Sample>, bucket: int)

  datatype State = State(
    now: nat,
    store: Store,
    pipelines: seq<seq<Command>>,   // what each call still has to send
    applied: seq<Command>,          // the commands Redis has run
    lost: seq<Command>,             // the commands it will never see
    recorded: seq<Batch>)

  datatype Step =
    | Tick(elapsed: nat)
    | Record(samples: seq<Sample>)
    | Exec(pipeline: nat)
    | CutOff(pipeline: nat)
    | Reap(key: string)             // Redis removes a key whose time is up

  const INIT: State := State(0, map[], [], [], [], [])

  predicate Enabled(s: State, step: Step) {
    match step
    case Tick(_) => true
    case Record(_) => true
    case Exec(p) => p < |s.pipelines| && s.pipelines[p] != []
    case CutOff(p) => p < |s.pipelines|
    case Reap(key) => key in s.store && !Live(s.store, key, s.now)
  }

  function Apply(c: Config, s: State, step: Step): State
    requires Enabled(s, step)
  {
    match step
    case Tick(elapsed) => s.(now := s.now + elapsed)
    case Record(samples) =>
      var batch := Batch(samples, s.now / 1000);
      s.(pipelines := s.pipelines + [Commands(samples, batch.bucket)], recorded := s.recorded + [batch])
    case Exec(p) =>
      var command := s.pipelines[p][0];
      s.(store := Executed(s.store, command, s.now, c.retention),
         pipelines := s.pipelines[p := s.pipelines[p][1..]],
         applied := s.applied + [command])
    case CutOff(p) => s.(pipelines := s.pipelines[p := []], lost := s.lost + s.pipelines[p])
    case Reap(key) => s.(store := s.store - {key})
  }

  ghost predicate Legal(c: Config, s: State, steps: seq<Step>)
    decreases |steps|
  {
    steps == [] || (Enabled(s, steps[0]) && Legal(c, Apply(c, s, steps[0]), steps[1..]))
  }

  ghost function Run(c: Config, s: State, steps: seq<Step>): State
    requires Legal(c, s, steps)
    decreases |steps|
  {
    if steps == [] then s else Run(c, Apply(c, s, steps[0]), steps[1..])
  }

  // ---------- what every step keeps ----------

  /** Every command bumps or keeps alive a counter of a second that has begun. */
  ghost predicate Begun(commands: seq<Command>, now: nat) {
    forall i | 0 <= i < |commands| :: 1000 * commands[i].slot.bucket <= now
  }

  /** Until `deadline` the counter reads `expected`; it is not set to expire before. */
  ghost predicate Counts(store: Store, key: string, now: nat, deadline: int, expected: int) {
    && (now < deadline ==> Read(store, key, now) == expected)
    && (key in store && store[key].expires.Some? ==> store[key].expires.value >= deadline)
  }

  /** Every counter outlives its second by the retention, and until then is its log. */
  ghost predicate Retained(c: Config, s: State, slot: Slot) {
    Counts(s.store, ProjectKey(slot), s.now, 1000 * (slot.bucket + c.retention), Incremented(s.applied, slot))
  }

  ghost predicate Inv(c: Config, s: State) {
    && (forall p | 0 <= p < |s.pipelines| :: Begun(s.pipelines[p], s.now))
    && (forall slot: Slot :: Retained(c, s, slot))
  }

  lemma {:induction false} CommandsBegun(samples: seq<Sample>, now: nat)
    ensures Begun(Commands(samples, now / 1000), now)
  {
    if samples != [] {
      CommandsBegun(samples[..|samples| - 1], now);
    }
  }

  lemma RetainedTick(c: Config, s: State, elapsed: nat, slot: Slot)
    requires Retained(c, s, slot)
    ensures Retained(c, s.(now := s.now + elapsed), slot)
  {
  }

  lemma IncrementedStep(applied: seq<Command>, command: Command, slot: Slot)
    ensures Incremented(applied + [command], slot) ==
            Incremented(applied, slot) + (if command.IncrBy? && command.slot == slot then command.amount else 0)
  {
    assert (applied + [command])[..|applied|] == applied;
  }

  lemma CountsExec(store: Store, command: Command, now: nat, retention: int, deadline: int, expected: int)
    requires retention > 0 && deadline <= now + 1000 * retention
    requires Counts(store, ProjectKey(command.slot), now, deadline, expected)
    ensures Counts(Executed(store, command, now, retention), ProjectKey(command.slot), now, deadline,
                   expected + (if command.IncrBy? then command.amount else 0))
  {
    hide ProjectKey;
  }

  lemma RetainedExec(c: Config, s: State, p: nat, slot: Slot)
    requires c.retention > 0 && Inv(c, s) && Enabled(s, Exec(p))
    ensures Retained(c, Apply(c, s, Exec(p)), slot)
  {
    var command := s.pipelines[p][0];
    assert Begun(s.pipelines[p], s.now);
    assert Retained(c, s, slot);
    IncrementedStep(s.applied, command, slot);
    if slot == command.slot {
      hide ProjectKey, Incremented, Executed, Counts;
      CountsExec(s.store, command, s.now, c.retention, 1000 * (slot.bucket + c.retention), Incremented(s.applied, slot));
    } else {
      if ProjectKey(slot) == ProjectKey(command.slot) {
        KeysAreDistinct(slot, command.slot);
      }
      hide ProjectKey, Incremented;
    }
  }

  lemma RetainedReap(c: Config, s: State, key: string, slot: Slot)
    requires Retained(c, s, slot) && Enabled(s, Reap(key))
    ensures Retained(c, Apply(c, s, Reap(key)), slot)
  {
    hide ProjectKey, Incremented;
  }

  lemma InvStep(c: Config, s: State, step: Step)
    requires c.retention > 0 && Inv(c, s) && Enabled(s, step)
    ensures Inv(c, Apply(c, s, step))
  {
    var t := Apply(c, s, step);
    forall slot: Slot ensures Retained(c, t, slot) {
      assert Retained(c, s, slot);
      match step
      case Tick(elapsed) => RetainedTick(c, s, elapsed, slot);
      case Exec(p) => RetainedExec(c, s, p, slot);
      case Reap(key) => RetainedReap(c, s, key, slot);
      case Record(_) =>
      case CutOff(_) =>
    }
    hide Retained, Commands, Executed;
    if step.Record? {
      CommandsBegun(step.samples, s.now);
    }
    forall p | 0 <= p < |t.pipelines| ensures Begun(t.pipelines[p], t.now) {
      assert p < |s.pipelines| ==> Begun(s.pipelines[p], s.now);
    }
  }

  lemma InvInit(c: Config)
    ensures Inv(c, INIT)
  {
  }

  lemma {:induction false} InvRun(c: Config, s: State, steps: seq<Step>)
    requires c.retention > 0 && Inv(c, s) && Legal(c, s, steps)
    ensures Inv(c, Run(c, s, steps))
    decreases |steps|
  {
    if steps != [] {
      InvStep(c, s, steps[0]);
      InvRun(c, Apply(c, s, steps[0]), steps[1..]);
    }
  }

  // ---------- sums over a window ----------

  /** What sumKeys adds up: `n` seconds of one metric and project, from `start`. */
  function WindowSum(store: Store, now: nat, metric: Metric, project: string, start: int, n: nat): int {
    if n == 0 then 0
    else WindowSum(store, now, metric, project, start, n - 1) +
         Read(store, ProjectKey(Slot(metric, project, start + n - 1)), now)
  }

  /** The increments that Redis has run for those seconds, straight from the log. */
  function InWindow(commands: seq<Command>, metric: Metric, project: string, start: int, end: int): int {
    if commands == [] then 0
    else
      var last := commands[|commands| - 1];
      InWindow(commands[..|commands| - 1], metric, project, start, end) +
      (if last.IncrBy? && last.slot.metric == metric && last.slot.project == project && start <= last.slot.bucket < end
       then last.amount else 0)
  }

  lemma {:induction false} WindowGrows(commands: seq<Command>, metric: Metric, project: string, start: int, end: int)
    requires start <= end
    ensures InWindow(commands, metric, project, start, end + 1) ==
            InWindow(commands, metric, project, start, end) + Incremented(commands, Slot(metric, project, end))
    ensures InWindow(commands, metric, project, start, start) == 0
  {
    if commands != [] {
      WindowGrows(commands[..|commands| - 1], metric, project, start, end);
    }
  }

  lemma {:induction false} WindowSumIsLog(c: Config, s: State, metric: Metric, project: string, start: int, n: nat)
    requires Inv(c, s) && s.now < 1000 * (start + c.retention)
    ensures WindowSum(s.store, s.now, metric, project, start, n) == InWindow(s.applied, metric, project, start, start + n)
  {
    WindowGrows(s.applied, metric, project, start, start);
    if n > 0 {
      WindowSumIsLog(c, s, metric, project, start, n - 1);
      WindowGrows(s.applied, metric, project, start, start + n - 1);
      assert Retained(c, s, Slot(metric, project, start + n - 1));
      hide ProjectKey, Incremented, InWindow, Read;
    }
  }

  /** The main result: after any run, each sum that ProjectLive reads is exactly what Redis
      was told to add for that project and metric in seconds [now - W, now - 1]. `called`
      is when ProjectLive took its clock; the reads may come later, up to the slack that
      retention leaves over the window. */
  lemma WindowAgreesWithLog(c: Config, steps: seq<Step>, called: nat, metric: Metric, project: string)
    requires c.window > 0 && c.retention > c.window && Legal(c, INIT, steps)
    requires var now := Run(c, INIT, steps).now;
             called <= now && now < 1000 * (called / 1000 - c.window + c.retention)
    ensures var s, start := Run(c, INIT, steps), called / 1000 - c.window;
            WindowSum(s.store, s.now, metric, project, start, c.window) ==
            InWindow(s.applied, metric, project, start, called / 1000)
  {
    InvInit(c);
    InvRun(c, INIT, steps);
    WindowSumIsLog(c, Run(c, INIT, steps), metric, project, called / 1000 - c.window, c.window);
  }

  /** A retention longer than the window leaves enough slack for reads at the call itself. */
  lemma PromptReadsAreInTime(c: Config, now: nat)
    ensures c.retention > c.window <==> now < 1000 * (now / 1000 - c.window + c.retention)
  {
  }

  // ---------- and over the recorded batches ----------

  function RecordedIn(recorded: seq<Batch>, metric: Metric, project: string, start: int, end: int): int {
    if recorded == [] then 0
    else
      var last := recorded[|recorded| - 1];
      RecordedIn(recorded[..|recorded| - 1], metric, project, start, end) +
      (if start <= last.bucket < end then Total(last.samples, metric, project) else 0)
  }

  function InFlight(pipelines: seq<seq<Command>>, metric: Metric, project: string, start: int, end: int): int {
    if pipelines == [] then 0
    else InFlight(pipelines[..|pipelines| - 1], metric, project, start, end) +
         InWindow(pipelines[|pipelines| - 1], metric, project, start, end)
  }

  ghost predicate Conserved(s: State, metric: Metric, project: string, start: int, end: int) {
    RecordedIn(s.recorded, metric, project, start, end) ==
    InWindow(s.applied, metric, project, start, end) + InWindow(s.lost, metric, project, start, end) +
    InFlight(s.pipelines, metric, project, start, end)
  }

  lemma {:induction false} InWindowJoins(a: seq<Command>, b: seq<Command>, metric: Metric, project: string, start: int, end: int)
    ensures InWindow(a + b, metric, project, start, end) ==
            InWindow(a, metric, project, start, end) + InWindow(b, metric, project, start, end)
    decreases |b|
  {
    if b == [] {
      assert a + b == a;
    } else {
      assert (a + b)[..|a + b| - 1] == a + b[..|b| - 1];
      InWindowJoins(a, b[..|b| - 1], metric, project, start, end);
    }
  }

  lemma {:induction false} InFlightUpdate(pipelines: seq<seq<Command>>, p: nat, rest: seq<Command>,
                                          metric: Metric, project: string, start: int, end: int)
    requires p < |pipelines|
    ensures InFlight(pipelines[p := rest], metric, project, start, end) ==
            InFlight(pipelines, metric, project, start, end)
            - InWindow(pipelines[p], metric, project, start, end) + InWindow(rest, metric, project, start, end)
  {
    var n := |pipelines| - 1;
    if p == n {
      assert pipelines[p := rest][..n] == pipelines[..n];
    } else {
      assert pipelines[p := rest][..n] == pipelines[..n][p := rest];
      InFlightUpdate(pipelines[..n], p, rest, metric, project, start, end);
    }
  }

  lemma {:induction false} InWindowIsIncremented(commands: seq<Command>, metric: Metric, project: string,
                                                 bucket: int, start: int, end: int)
    requires forall i | 0 <= i < |commands| :: commands[i].slot.bucket == bucket
    ensures InWindow(commands, metric, project, start, end) ==
            if start <= bucket < end then Incremented(commands, Slot(metric, project, bucket)) else 0
  {
    if commands != [] {
      InWindowIsIncremented(commands[..|commands| - 1], metric, project, bucket, start, end);
    }
  }

  lemma {:induction false} CommandsBucket(samples: seq<Sample>, bucket: int)
    ensures forall i | 0 <= i < |Commands(samples, bucket)| :: Commands(samples, bucket)[i].slot.bucket == bucket
  {
    if samples != [] {
      CommandsBucket(samples[..|samples| - 1], bucket);
    }
  }

  lemma ConservedStep(c: Config, s: State, step: Step, metric: Metric, project: string, start: int, end: int)
    requires Conserved(s, metric, project, start, end) && Enabled(s, step) && project != ""
    ensures Conserved(Apply(c, s, step), metric, project, start, end)
  {
    var t := Apply(c, s, step);
    match step
    case Record(samples) =>
      var bucket := s.now / 1000;
      CommandsBucket(samples, bucket);
      InWindowIsIncremented(Commands(samples, bucket), metric, project, bucket, start, end);
      PipelineIsTotals(samples, bucket, Slot(metric, project, bucket));
      assert t.pipelines[..|s.pipelines|] == s.pipelines && t.recorded[..|s.recorded|] == s.recorded;
    case Exec(p) =>
      var rest := s.pipelines[p][1..];
      assert s.pipelines[p] == [s.pipelines[p][0]] + rest;
      InWindowJoins([s.pipelines[p][0]], rest, metric, project, start, end);
      InWindowJoins(s.applied, [s.pipelines[p][0]], metric, project, start, end);
      InFlightUpdate(s.pipelines, p, rest, metric, project, start, end);
    case CutOff(p) =>
      InWindowJoins(s.lost, s.pipelines[p], metric, project, start, end);
      InFlightUpdate(s.pipelines, p, [], metric, project, start, end);
    case Tick(_) =>
    case Reap(_) =>
  }

  lemma {:induction false} ConservedRun(c: Config, s: State, steps: seq<Step>, metric: Metric, project: string,
                                        start: int, end: int)
    requires Conserved(s, metric, project, start, end) && Legal(c, s, steps) && project != ""
    ensures Conserved(Run(c, s, steps), metric, project, start, end)
    decreases |steps|
  {
    if steps != [] {
      ConservedStep(c, s, steps[0], metric, project, start, end);
      ConservedRun(c, Apply(c, s, steps[0]), steps[1..], metric, project, start, end);
    }
  }

  lemma {:induction false} NothingInFlight(pipelines: seq<seq<Command>>, metric: Metric, project: string, start: int, end: int)
    requires forall p | 0 <= p < |pipelines| :: pipelines[p] == []
    ensures InFlight(pipelines, metric, project, start, end) == 0
  {
    if pipelines != [] {
      NothingInFlight(pipelines[..|pipelines| - 1], metric, project, start, end);
    }
  }

  /** Once every pipeline has run and none was cut off, the sum read is what the batches of
      those seconds are worth: one per sample for qps, and the positive tokens and costs. */
  lemma WindowAgreesWithBatches(c: Config, steps: seq<Step>, metric: Metric, project: string)
    requires c.window > 0 && c.retention > c.window && Legal(c, INIT, steps) && project != ""
    requires var s := Run(c, INIT, steps);
             s.lost == [] && forall p | 0 <= p < |s.pipelines| :: s.pipelines[p] == []
    ensures var s := Run(c, INIT, steps);
            var start, end := s.now / 1000 - c.window, s.now / 1000;
            WindowSum(s.store, s.now, metric, project, start, c.window) ==
            RecordedIn(s.recorded, metric, project, start, end)
  {
    var s := Run(c, INIT, steps);
    var start, end := s.now / 1000 - c.window, s.now / 1000;
    PromptReadsAreInTime(c, s.now);
    WindowAgreesWithLog(c, steps, s.now, metric, project);
    ConservedRun(c, INIT, steps, metric, project, start, end);
    NothingInFlight(s.pipelines, metric, project, start, end);
  }

  // ---------- a retention no longer than the window ----------

  lemma RunExtends(c: Config, s: State, steps: seq<Step>, step: Step)
    requires Legal(c, s, steps) && Enabled(Run(c, s, steps), step)
    ensures Legal(c, s, steps + [step]) && Run(c, s, steps + [step]) == Apply(c, Run(c, s, steps), step)
    decreases |steps|
  {
    if steps == [] {
      assert (steps + [step])[1..] == [];
    } else {
      assert (steps + [step])[1..] == steps[1..] + [step];
      RunExtends(c, Apply(c, s, steps[0]), steps[1..], step);
    }
  }

  /** One sample, sent whole, and the window later. */
  lemma OneSampleRun(c: Config, project: string) returns (steps: seq<Step>, s: State)
    requires c.window > 0 && c.retention > 0 && project != ""
    ensures Legal(c, INIT, steps) && s == Run(c, INIT, steps)
    ensures s.now == 1000 * c.window && s.lost == [] && s.pipelines == [[]]
    ensures s.recorded == [Batch([Sample(project, 0, 0)], 0)]
    ensures s.store == map[ProjectKey(Slot(Qps, project, 0)) := Counter(1, Some(1000 * c.retention))]
  {
    var sample, slot := Sample(project, 0, 0), Slot(Qps, project, 0);
    var s1 := INIT.(pipelines := [[IncrBy(slot, 1), Expire(slot)]], recorded := [Batch([sample], 0)]);
    assert Commands([sample], 0) == [IncrBy(slot, 1), Expire(slot)] by {
      assert [sample][..0] == [];
    }
    RunExtends(c, INIT, [], Record([sample]));
    var steps1 := [] + [Record([sample])];
    assert Run(c, INIT, steps1) == s1;
    hide Commands, ProjectKey;
    RunExtends(c, INIT, steps1, Exec(0));
    var steps2, s2 := steps1 + [Exec(0)], Apply(c, s1, Exec(0));
    assert s2.store == map[ProjectKey(slot) := Counter(1, None)] && s2.pipelines == [[Expire(slot)]];
    RunExtends(c, INIT, steps2, Exec(0));
    var steps3, s3 := steps2 + [Exec(0)], Apply(c, s2, Exec(0));
    assert [Expire(slot)][1..] == [];
    assert s3.store == map[ProjectKey(slot) := Counter(1, Some(1000 * c.retention))] && s3.pipelines == [[]];
    RunExtends(c, INIT, steps3, Tick(1000 * c.window));
    steps, s := steps3 + [Tick(1000 * c.window)], s3.(now := 1000 * c.window);
  }

  lemma {:induction false} EmptyWindow(store: Store, now: nat, project: string, start: int, n: nat)
    requires forall key <- store :: !Live(store, key, now)
    ensures WindowSum(store, now, Qps, project, start, n) == 0
  {
    if n > 0 {
      EmptyWindow(store, now, project, start, n - 1);
    }
  }

  /** Why the bound is strict: with a retention that only equals the window (New accepts
      it), or is shorter, the oldest second can be gone while ProjectLive still reads it. */
  lemma ShortRetentionLosesTheOldestSecond(c: Config, project: string) returns (steps: seq<Step>)
    requires 0 < c.retention <= c.window && project != ""
    ensures Legal(c, INIT, steps)
    ensures var s := Run(c, INIT, steps);
            && s.lost == [] && (forall p | 0 <= p < |s.pipelines| :: s.pipelines[p] == [])
            && WindowSum(s.store, s.now, Qps, project, s.now / 1000 - c.window, c.window) == 0
            && RecordedIn(s.recorded, Qps, project, s.now / 1000 - c.window, s.now / 1000) == 1
  {
    var s: State;
    steps, s := OneSampleRun(c, project);
    EmptyWindow(s.store, s.now, project, 0, c.window);
    assert s.recorded[..0] == [] && [Sample(project, 0, 0)][..0] == [];
    assert Total([Sample(project, 0, 0)], Qps, project) == 1;
  }

  /** ProjectLive agrees with the batches in every run without cut-off pipelines exactly
      when the retention is longer than the window. */
  lemma ExactIffRetentionIsLonger(c: Config, project: string)
    requires c.window > 0 && c.retention > 0 && project != ""
    ensures c.retention > c.window <==> AlwaysExact(c, project)
  {
    if c.retention > c.window {
      forall steps, metric | Legal(c, INIT, steps) && Settled(Run(c, INIT, steps)) ensures Exact(c, Run(c, INIT, steps), metric, project) {
        WindowAgreesWithBatches(c, steps, metric, project);
      }
    } else {
      var steps := ShortRetentionLosesTheOldestSecond(c, project);
      assert Settled(Run(c, INIT, steps));
      assert !Exact(c, Run(c, INIT, steps), Qps, project);
    }
  }

  ghost predicate Settled(s: State) {
    s.lost == [] && forall p | 0 <= p < |s.pipelines| :: s.pipelines[p] == []
  }

  ghost predicate Exact(c: Config, s: State, metric: Metric, project: string)
    requires c.window > 0
  {
    var start, end := s.now / 1000 - c.window, s.now / 1000;
    WindowSum(s.store, s.now, metric, project, start, c.window) == RecordedIn(s.recorded, metric, project, start, end)
  }

  ghost predicate AlwaysExact(c: Config, project: string)
    requires c.window > 0
  {
    forall steps: seq<Step>, metric: Metric | Legal(c, INIT, steps) && Settled(Run(c, INIT, steps)) ::
      Exact(c, Run(c, INIT, steps), metric, project)
  }

  // ---------- the methods ----------

  function KeysSum(store: Store, keys: seq<string>, now: nat): int {
    if keys == [] then 0 else KeysSum(store, keys[..|keys| - 1], now) + Read(store, keys[|keys| - 1], now)
  }

  lemma {:induction false} KeysSumIsWindowSum(store: Store, keys: seq<string>, now: nat, metric: Metric, project: string, start: int)
    requires forall i | 0 <= i < |keys| :: keys[i] == ProjectKey(Slot(metric, project, start + i))
    ensures KeysSum(store, keys, now) == WindowSum(store, now, metric, project, start, |keys|)
  {
    if keys != [] {
      KeysSumIsWindowSum(store, keys[..|keys| - 1], now, metric, project, start);
    }
  }

  /** The Redis server, as the reader sees it at one moment. */
  class Redis {
    var now: nat
    var store: Store

    constructor ()
      ensures now == 0 && store == map[]
    {
      now, store := 0, map[];
    }

    /** MGET: nil for a missing or expired key, an error when Redis is unreachable. */
    method MGet(keys: seq<string>, up: bool) returns (values: Option<seq<Option<int>>>)
      ensures values.Some? <==> up
      ensures up ==> |values.value| == |keys|
      ensures up ==> forall i | 0 <= i < |keys| ::
                values.value[i] == if Live(store, keys[i], now) then Some(store[keys[i]].value) else None
    {
      if !up {
        return None;
      }
      var found := [];
      for i := 0 to |keys|
        invariant |found| == i
        invariant forall j | 0 <= j < i ::
                    found[j] == if Live(store, keys[j], now) then Some(store[keys[j]].value) else None
      {
        found := found + [if Live(store, keys[i], now) then Some(store[keys[i]].value) else None];
      }
      return Some(found);
    }
  }

  class Realtime {
    const redis: Redis
    const config: Config

    constructor (redis: Redis, window: int, retention: int)
      ensures this.redis == redis && config == New(window, retention)
    {
      this.redis, this.config := redis, New(window, retention);
    }

    /** The pipeline that one RecordBatch call sends. */
    method RecordBatch(samples: seq<Sample>, now: nat) returns (pipe: seq<Command>)
      ensures pipe == Commands(samples, now / 1000)
    {
      var bucket := now / 1000;
      pipe := [];
      for i := 0 to |samples|
        invariant pipe == Commands(samples[..i], bucket)
      {
        assert samples[..i + 1][..i] == samples[..i];
        var s := samples[i];
        if s.project == "" {
          continue;
        }
        var qps := Slot(Qps, s.project, bucket);
        pipe := pipe + [IncrBy(qps, 1), Expire(qps)];
        if s.tokens > 0 {
          var tok := Slot(Tok, s.project, bucket);
          pipe := pipe + [IncrBy(tok, s.tokens), Expire(tok)];
        }
        if s.costMicros > 0 {
          var cost := Slot(Cost, s.project, bucket);
          pipe := pipe + [IncrBy(cost, s.costMicros), Expire(cost)];
        }
      }
      assert samples[..|samples|] == samples;
    }

    method SumKeys(keys: seq<string>, up: bool) returns (total: Option<int>)
      ensures total == if keys == [] || up then Some(KeysSum(redis.store, keys, redis.now)) else None
    {
      if |keys| == 0 {
        return Some(0);
      }
      var values := redis.MGet(keys, up);
      if values.None? {
        return None;
      }
      var sum := 0;
      for i := 0 to |keys|
        invariant sum == KeysSum(redis.store, keys[..i], redis.now)
      {
        assert keys[..i + 1][..i] == keys[..i];
        if values.value[i].Some? {
          sum := sum + values.value[i].value;
        }
      }
      assert keys[..|keys|] == keys;
      total := Some(sum);
    }

    method Keys(metric: Metric, project: string, start: int) returns (keys: seq<string>)
      requires config.window > 0
      ensures |keys| == config.window
      ensures forall i | 0 <= i < |keys| :: keys[i] == ProjectKey(Slot(metric, project, start + i))
    {
      var filled := new string[config.window];
      for i := 0 to config.window
        invariant forall j | 0 <= j < i :: filled[j] == ProjectKey(Slot(metric, project, start + j))
      {
        filled[i] := ProjectKey(Slot(metric, project, start + i));
      }
      keys := filled[..];
    }

    /** Rates over the window, or an error as soon as one of the three reads fails. */
    method ProjectLive(project: string, called: nat, up: (bool, bool, bool)) returns (live: Option<(real, real, real)>)
      requires config.window > 0
      ensures project == "" ==> live == Some((0.0, 0.0, 0.0))
      ensures project != "" && !(up.0 && up.1 && up.2) ==> live == None
      ensures project != "" && up.0 && up.1 && up.2 ==>
                var w, start := config.window, called / 1000 - config.window;
                live == Some((WindowSum(redis.store, redis.now, Qps, project, start, w) as real / w as real,
                              WindowSum(redis.store, redis.now, Tok, project, start, w) as real / w as real,
                              WindowSum(redis.store, redis.now, Cost, project, start, w) as real / 1_000_000.0 / w as real))
    {
      if project == "" {
        return Some((0.0, 0.0, 0.0));
      }
      var start := called / 1000 - config.window;
      var qpsKeys := Keys(Qps, project, start);
      var tokKeys := Keys(Tok, project, start);
      var costKeys := Keys(Cost, project, start);
      var qps := SumKeys(qpsKeys, up.0);
      if qps.None? {
        return None;
      }
      var tok := SumKeys(tokKeys, up.1);
      if tok.None? {
        return None;
      }
      var cost := SumKeys(costKeys, up.2);
      if cost.None? {
        return None;
      }
      KeysSumIsWindowSum(redis.store, qpsKeys, redis.now, Qps, project, start);
      KeysSumIsWindowSum(redis.store, tokKeys, redis.now, Tok, project, start);
      KeysSumIsWindowSum(redis.store, costKeys, redis.now, Cost, project, start);
      var w := config.window as real;
      live := Some((qps.value as real / w, tok.value as real / w, cost.value as real / 1_000_000.0 / w));
    }
  }
}
