/**
Rows and body objects over whole runs: proxies upload bodies, collectors insert
rows, maintainers create, drop and purge, and projects are deleted, in any order
and with any of the drops and purges failing or stopping half way. One clock,
which never goes back.
*/
module Retention {
  import opened Wrappers
  import opened Calendar
  import opened BodyKey
  import opened Text
  import opened Partition

  datatype Config = Config(preCreate: nat, retention: nat)  // retention 0 means keep everything

  /** A proxied call: when it came in (which becomes created_at), and when each of its
      body keys was formed, if that body was uploaded. */
  datatype Call = Call(project: string, trace: string, requestIn: Millis, reqAt: Option<Millis>, respAt: Option<Millis>)

  datatype State = State(
    now: Millis,
    catalog: Catalog,
    calls: set<Call>,      // proxied, or waiting in the stream
    rows: set<Call>,
    inserted: set<Call>,   // every row there has ever been
    objects: set<string>,
    purging: set<Month>,   // months whose partitions some maintainer has dropped
    deleted: set<string>)  // projects whose deletion has begun

  datatype Step =
    | Tick(elapsed: nat)
    | Begin(project: string, trace: string)
    | UploadRequest(call: Call, at: Millis)
    | UploadResponse(call: Call, at: Millis)
    | Insert(call: Call)
    | CreateMonths(n: nat)
    | DropExpired(asOf: Millis, undropped: set<string>)
    | Purge(project: string, month: Month, removed: set<string>)
    | DeleteRows(project: string)
    | DeleteBodies(project: string, removed: set<string>)

  function Init(now: Millis): State {
    State(now, map[], {}, {}, {}, {}, {}, {})
  }

  function RequestKey(call: Call): string
    requires call.reqAt.Some?
  {
    Key(call.project, call.reqAt.value, false, 0, call.trace, "request", "json")
  }

  function ResponseKey(call: Call): string
    requires call.respAt.Some?
  {
    Key(call.project, call.respAt.value, false, 0, call.trace, "response", "bin")
  }

  function Bodies(call: Call): set<string> {
    (if call.reqAt.Some? then {RequestKey(call)} else {}) +
    (if call.respAt.Some? then {ResponseKey(call)} else {})
  }

  /** The years the "200601" layout can name. */
  predicate InYears(c: Config, now: Millis) {
    0 <= MonthOf(now) && MonthOf(now) + c.preCreate < MONTHS
  }

  predicate Enabled(c: Config, s: State, step: Step) {
    match step
    case Tick(d) => InYears(c, s.now + d)
    case Begin(p, _) => SlashFree(p)
    case UploadRequest(call, at) => call in s.calls && call.reqAt.None? && call.requestIn <= at <= s.now
    case UploadResponse(call, at) => call in s.calls && call.respAt.None? && call.requestIn <= at <= s.now
    case Insert(call) => call in s.calls && Accepts(s.catalog, PartitionName(MonthOf(call.requestIn)), call.requestIn)
    case CreateMonths(n) => n <= c.preCreate + 1
    case DropExpired(asOf, _) => c.retention > 0 && asOf <= s.now
    case Purge(p, m, removed) =>
      && SlashFree(p) && m in s.purging
      && forall key <- removed :: HasPrefix(key, MonthPrefix(p, m))
    case DeleteRows(_) => true
    case DeleteBodies(p, removed) =>
      && SlashFree(p) && p in s.deleted
      && forall key <- removed :: HasPrefix(key, ProjectPrefix(p))
  }

  function Apply(c: Config, s: State, step: Step): State
    requires Enabled(c, s, step)
  {
    match step
    case Tick(d) => s.(now := s.now + d)
    case Begin(p, trace) => s.(calls := s.calls + {Call(p, trace, s.now, None, None)})
    case UploadRequest(call, at) =>
      var done := call.(reqAt := Some(at));
      s.(calls := s.calls - {call} + {done}, objects := s.objects + {RequestKey(done)})
    case UploadResponse(call, at) =>
      var done := call.(respAt := Some(at));
      s.(calls := s.calls - {call} + {done}, objects := s.objects + {ResponseKey(done)})
    case Insert(call) =>
      s.(calls := s.calls - {call}, rows := s.rows + {call}, inserted := s.inserted + {call})
    case CreateMonths(n) => s.(catalog := Created(s.catalog, MonthOf(s.now), n))
    case DropExpired(asOf, undropped) =>
      var limit := MonthOf(asOf) - c.retention;
      var months := ExpiredMonths(s.catalog, limit, undropped);
      s.(catalog := s.catalog - Expired(s.catalog, limit, undropped),
         rows := (set row <- s.rows | MonthOf(row.requestIn) !in months),
         purging := s.purging + months)
    case Purge(_, _, removed) => s.(objects := s.objects - removed)
    case DeleteRows(p) => s.(rows := (set row <- s.rows | row.project != p), deleted := s.deleted + {p})
    case DeleteBodies(_, removed) => s.(objects := s.objects - removed)
  }

  ghost predicate Legal(c: Config, s: State, steps: seq<Step>)
    decreases |steps|
  {
    steps == [] || (Enabled(c, s, steps[0]) && Legal(c, Apply(c, s, steps[0]), steps[1..]))
  }

  ghost function Run(c: Config, s: State, steps: seq<Step>): State
    requires Legal(c, s, steps)
    decreases |steps|
  {
    if steps == [] then s else Run(c, Apply(c, s, steps[0]), steps[1..])
  }

  // ---------- what every step keeps ----------

  /** Inside the retention window, of a project nobody is deleting. */
  predicate Protected(c: Config, s: State, call: Call) {
    && call.project !in s.deleted
    && (c.retention == 0 || MonthOf(s.now) - c.retention <= MonthOf(call.requestIn))
  }

  predicate KeyTime(call: Call, at: Option<Millis>, now: Millis) {
    at.Some? ==> call.requestIn <= at.value <= now
  }

  predicate CallOk(c: Config, s: State, call: Call) {
    && SlashFree(call.project) && 0 <= MonthOf(call.requestIn) && call.requestIn <= s.now
    && KeyTime(call, call.reqAt, s.now) && KeyTime(call, call.respAt, s.now)
    && (Protected(c, s, call) ==> Bodies(call) <= s.objects)
  }

  predicate MonthGone(c: Config, s: State, m: Month) {
    c.retention > 0 && 0 <= m < MonthOf(s.now) - c.retention
  }

  ghost predicate Inv(c: Config, s: State) {
    && Tiled(s.catalog) && InYears(c, s.now)
    && (forall m <- s.purging :: MonthGone(c, s, m))
    && (forall call <- s.calls :: CallOk(c, s, call))
    && (forall call <- s.inserted :: CallOk(c, s, call))
    && (forall call <- s.inserted :: Protected(c, s, call) ==> call in s.rows)
  }

  /** A body of a call is filed under its project, in the month of the call or later. */
  lemma BodyIsFiled(c: Config, s: State, call: Call, key: string) returns (month: Month)
    requires CallOk(c, s, call) && InYears(c, s.now) && key in Bodies(call)
    ensures FiledUnder(key, call.project, month)
    ensures MonthOf(call.requestIn) <= month < MONTHS
  {
    hide MonthOf, Key, FormatMonth;
    var at := if call.reqAt.Some? && key == RequestKey(call) then call.reqAt.value else call.respAt.value;
    month := MonthOf(at);
    MonthOfMonotone(call.requestIn, at);
    MonthOfMonotone(at, s.now);
    if call.reqAt.Some? && key == RequestKey(call) {
      KeyIsFiled(call.project, at, false, 0, call.trace, "request", "json");
    } else {
      KeyIsFiled(call.project, at, false, 0, call.trace, "response", "bin");
    }
  }

  /** No purge of a dropped month, and no deletion of another project, touches a body
      of a protected call: not even one whose key fell into a later month. */
  lemma BodiesSurvive(c: Config, s: State, step: Step, call: Call)
    requires Inv(c, s) && Enabled(c, s, step) && CallOk(c, s, call)
    requires Protected(c, Apply(c, s, step), call)
    ensures Bodies(call) <= Apply(c, s, step).objects
  {
    hide MonthOf, Key, FormatMonth, ParseMonth, StartMs, Bodies, Created, Expired, ExpiredMonths;
    if step.Tick? {
      MonthOfMonotone(s.now, s.now + step.elapsed);
    }
    if step.Purge? {
      assert MonthGone(c, s, step.month);
      forall key | key in Bodies(call) ensures key !in step.removed {
        var month := BodyIsFiled(c, s, call, key);
        MonthPrefixExact(key, call.project, month, step.project, step.month);
      }
    }
    if step.DeleteBodies? {
      forall key | key in Bodies(call) ensures key !in step.removed {
        var month := BodyIsFiled(c, s, call, key);
        ProjectPrefixExact(key, call.project, month, step.project);
      }
    }
  }

  lemma CallStep(c: Config, s: State, step: Step, call: Call)
    requires Inv(c, s) && Enabled(c, s, step) && CallOk(c, s, call)
    ensures CallOk(c, Apply(c, s, step), call)
  {
    hide MonthOf, Key, FormatMonth, ParseMonth, StartMs, Bodies, Created, Expired, ExpiredMonths;
    if Protected(c, Apply(c, s, step), call) {
      BodiesSurvive(c, s, step, call);
    }
  }

  lemma UploadStep(c: Config, s: State, step: Step, done: Call)
    requires Inv(c, s) && Enabled(c, s, step)
    requires step.UploadRequest? || step.UploadResponse?
    requires done == if step.UploadRequest? then step.call.(reqAt := Some(step.at)) else step.call.(respAt := Some(step.at))
    ensures CallOk(c, Apply(c, s, step), done)
  {
    hide MonthOf, Key, FormatMonth, ParseMonth, StartMs;
    assert CallOk(c, s, step.call);
    assert Bodies(done) <= Bodies(step.call) + Apply(c, s, step).objects;
  }

  lemma CallsStep(c: Config, s: State, step: Step)
    requires Inv(c, s) && Enabled(c, s, step)
    ensures var t := Apply(c, s, step);
            && (forall call <- t.calls :: CallOk(c, t, call))
            && (forall call <- t.inserted :: CallOk(c, t, call))
  {
    hide MonthOf, Key, FormatMonth, ParseMonth, StartMs, Created, Expired, ExpiredMonths, CallOk;
    var t := Apply(c, s, step);
    forall call | call in t.calls || call in t.inserted ensures CallOk(c, t, call) {
      if call in s.calls || call in s.inserted {
        CallStep(c, s, step, call);
      } else if step.Begin? {
        Fresh(c, s, step.project, step.trace);
      } else {
        UploadStep(c, s, step, call);
      }
    }
  }

  lemma Fresh(c: Config, s: State, project: string, trace: string)
    requires Inv(c, s) && SlashFree(project)
    ensures CallOk(c, Apply(c, s, Begin(project, trace)), Call(project, trace, s.now, None, None))
  {
    hide MonthOf, Key;
  }

  /** Only months before the window are dropped, whenever the threshold was computed. */
  lemma DropStep(c: Config, s: State, step: Step)
    requires Inv(c, s) && Enabled(c, s, step) && step.DropExpired?
    ensures forall m <- ExpiredMonths(s.catalog, MonthOf(step.asOf) - c.retention, step.undropped) :: MonthGone(c, s, m)
    ensures Tiled(Apply(c, s, step).catalog)
  {
    hide MonthOf, Key, FormatMonth, ParseMonth, StartMs;
    MonthOfMonotone(step.asOf, s.now);
    forall name | name in Expired(s.catalog, MonthOf(step.asOf) - c.retention, step.undropped)
      ensures MonthGone(c, s, ParsePartition(name).value)
    {
      ParsedIsName(name);
    }
  }

  lemma RowsStep(c: Config, s: State, step: Step)
    requires Inv(c, s) && Enabled(c, s, step)
    ensures var t := Apply(c, s, step);
            forall call <- t.inserted :: Protected(c, t, call) ==> call in t.rows
  {
    hide MonthOf, Key, FormatMonth, ParseMonth, StartMs, Created, Expired, ExpiredMonths, CallOk;
    var t := Apply(c, s, step);
    if step.DropExpired? {
      DropStep(c, s, step);
    }
    MonthOfMonotone(s.now, t.now);
    forall call | call in t.inserted && Protected(c, t, call) ensures call in t.rows {
      if call in s.inserted {
        assert Protected(c, s, call);
        if step.DropExpired? {
          var months := ExpiredMonths(s.catalog, MonthOf(step.asOf) - c.retention, step.undropped);
          assert !MonthGone(c, s, MonthOf(call.requestIn));
          assert MonthOf(call.requestIn) !in months;
        }
      }
    }
  }

  lemma CatalogStep(c: Config, s: State, step: Step)
    requires Inv(c, s) && Enabled(c, s, step)
    ensures var t := Apply(c, s, step);
            && Tiled(t.catalog) && InYears(c, t.now)
            && (forall m <- t.purging :: MonthGone(c, t, m))
  {
    hide MonthOf, Key, FormatMonth, ParseMonth, StartMs, Created, Expired, ExpiredMonths, CallOk;
    if step.DropExpired? {
      DropStep(c, s, step);
    }
    if step.CreateMonths? {
      CreatedTiled(s.catalog, MonthOf(s.now), step.n);
    }
    var t := Apply(c, s, step);
    MonthOfMonotone(s.now, t.now);
    forall m | m in t.purging ensures MonthGone(c, t, m) {
      assert MonthGone(c, s, m);
    }
  }

  lemma {:induction false} InvRun(c: Config, s: State, steps: seq<Step>)
    requires Inv(c, s) && Legal(c, s, steps)
    ensures Inv(c, Run(c, s, steps))
    decreases |steps|
  {
    hide MonthOf, Apply, Enabled, CallOk, Protected, MonthGone, InYears, Tiled;
    if steps != [] {
      CatalogStep(c, s, steps[0]);
      CallsStep(c, s, steps[0]);
      RowsStep(c, s, steps[0]);
      InvRun(c, Apply(c, s, steps[0]), steps[1..]);
    }
  }

  /**
  Retention lockstep, over every run: a row whose month is not before now - R (or
  any row, with retention off), of a project nobody deletes, is still there, and
  so is every body object uploaded for it.
  */
  lemma RetentionLockstep(c: Config, start: Millis, steps: seq<Step>, call: Call)
    requires InYears(c, start) && Legal(c, Init(start), steps)
    ensures var s := Run(c, Init(start), steps);
            && call in s.inserted && call.project !in s.deleted
            && (c.retention == 0 || MonthOf(s.now) - c.retention <= MonthOf(call.requestIn))
            ==> call in s.rows && Bodies(call) <= s.objects
  {
    hide MonthOf, Apply, Enabled, InYears;
    InvRun(c, Init(start), steps);
  }
}
