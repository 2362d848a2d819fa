/**
A maintainer's tick (internal/partition/maintainer.go) is a run of the steps of module
Retention, so that what every run keeps, every tick keeps.
*/
module Maintenance {
  import opened Calendar
  import opened BodyKey
  import opened Text
  import opened Partition
  import opened Retention

  lemma {:induction false} Append(c: Config, s: State, steps: seq<Step>, step: Step)
    requires Legal(c, s, steps) && Enabled(c, Run(c, s, steps), step)
    ensures Legal(c, s, steps + [step]) && Run(c, s, steps + [step]) == Apply(c, Run(c, s, steps), step)
    decreases |steps|
  {
    hide Enabled, Apply;
    if steps == [] {
      assert (steps + [step])[1..] == [];
    } else {
      assert (steps + [step])[1..] == steps[1..] + [step];
      Append(c, Apply(c, s, steps[0]), steps[1..], step);
    }
  }

  lemma {:induction false} Listing<T>(items: set<T>) returns (list: seq<T>)
    ensures (set x <- list) == items
  {
    if items == {} {
      list := [];
    } else {
      var x :| x in items;
      var rest := Listing(items - {x});
      list := [x] + rest;
      assert items == {x} + (items - {x});
    }
  }

  type Target = (string, Month)

  predicate Spared(key: string, targets: seq<Target>) {
    forall i | 0 <= i < |targets| :: !HasPrefix(key, MonthPrefix(targets[i].0, targets[i].1))
  }

  /** One DeletePrefix after another, each removing all that it should. */
  lemma {:induction false} PurgeTargets(c: Config, from: State, steps: seq<Step>, s: State, targets: seq<Target>)
    returns (steps': seq<Step>)
    requires Legal(c, from, steps) && s == Run(c, from, steps)
    requires forall i | 0 <= i < |targets| :: SlashFree(targets[i].0) && targets[i].1 in s.purging
    ensures Legal(c, from, steps')
    ensures Run(c, from, steps') == s.(objects := set key <- s.objects | Spared(key, targets))
  {
    if targets == [] {
      steps' := steps;
      assert (set key <- s.objects | Spared(key, targets)) == s.objects;
    } else {
      var n := |targets| - 1;
      var t := targets[n];
      steps' := PurgeTargets(c, from, steps, s, targets[..n]);
      var before := Run(c, from, steps');
      var removed := set key <- before.objects | HasPrefix(key, MonthPrefix(t.0, t.1));
      var purge := Purge(t.0, t.1, removed);
      hide HasPrefix, MonthPrefix;
      Append(c, from, steps', purge);
      steps' := steps' + [purge];
      assert forall key :: Spared(key, targets) <==> Spared(key, targets[..n]) && !HasPrefix(key, MonthPrefix(t.0, t.1)) by {
        SparedStep(targets);
      }
      assert before.objects - removed == set key <- s.objects | Spared(key, targets);
    }
  }

  lemma SparedStep(targets: seq<Target>)
    requires targets != []
    ensures var n := |targets| - 1;
            forall key :: Spared(key, targets) <==>
              Spared(key, targets[..n]) && !HasPrefix(key, MonthPrefix(targets[n].0, targets[n].1))
  {
    hide HasPrefix, MonthPrefix;
  }

  lemma PurgedIsSpared(objects: set<string>, projects: set<string>, months: set<Month>, failed: set<string>, targets: seq<Target>)
    requires forall p, m :: (p, m) in targets <==> p in projects && m in months && MonthPrefix(p, m) !in failed
    ensures Purged(objects, projects, months, failed) == set key <- objects | Spared(key, targets)
  {
    hide HasPrefix, MonthPrefix;
    forall key ensures Spared(key, targets) <==> !Purges(projects, months, failed, key) {
      if !Spared(key, targets) {
        var i :| 0 <= i < |targets| && HasPrefix(key, MonthPrefix(targets[i].0, targets[i].1));
        assert (targets[i].0, targets[i].1) in targets;
      }
      if Purges(projects, months, failed, key) {
        var p, m :| p in projects && m in months && HasPrefix(key, MonthPrefix(p, m)) && MonthPrefix(p, m) !in failed;
        assert (p, m) in targets;
      }
    }
  }

  /** Up to and with the drops. */
  lemma DropIsARun(c: Config, s: State, create: Step, drop: Step)
    requires InYears(c, s.now) && create.CreateMonths? && Enabled(c, s, create) && c.retention > 0
    requires drop.DropExpired? && drop.asOf == s.now
    ensures Legal(c, s, [create, drop])
    ensures var t := Run(c, s, [create, drop]);
            var created := Created(s.catalog, MonthOf(s.now), create.n);
            var limit := MonthOf(s.now) - c.retention;
            && t.catalog == created - Expired(created, limit, drop.undropped) && t.objects == s.objects
            && ExpiredMonths(created, limit, drop.undropped) <= t.purging
  {
    hide MonthOf, Created, Expired, ExpiredMonths;
    assert [] + [create] == [create] && [create] + [drop] == [create, drop];
    Append(c, s, [], create);
    Append(c, s, [create], drop);
  }

  /** Whatever fails during it, a tick changes the two stores as some run of the machine. */
  lemma TickIsARun(c: Config, s: State, projects: set<string>, f: Faults) returns (steps: seq<Step>)
    requires InYears(c, s.now) && forall p <- projects :: SlashFree(p)
    ensures Legal(c, s, steps)
    ensures var t := Run(c, s, steps);
            (t.catalog, t.objects) == Ticked(s.catalog, s.objects, MonthOf(s.now), c.preCreate, c.retention, projects, f)
  {
    hide MonthOf, Created, Expired, ExpiredMonths, Purged, SlashFree, MonthPrefix;
    var ok, month := f.created > c.preCreate, MonthOf(s.now);
    var create := CreateMonths(if ok then c.preCreate + 1 else f.created);
    if !ok || c.retention <= 0 || f.query {
      Append(c, s, [], create);
      steps := [] + [create];
    } else {
      var drop := DropExpired(s.now, f.undropped);
      DropIsARun(c, s, create, drop);
      steps := [create, drop];
      hide Apply, Enabled, Legal, Run;
      if !f.list {
        var dropped := Run(c, s, steps);
        var months := ExpiredMonths(Created(s.catalog, month, create.n), month - c.retention, f.undropped);
        var targets := Listing(set p <- projects, m <- months | MonthPrefix(p, m) !in f.unpurged :: (p, m));
        TargetsAre(projects, months, f.unpurged, targets);
        PurgedIsSpared(s.objects, projects, months, f.unpurged, targets);
        steps := PurgeTargets(c, s, steps, dropped, targets);
      }
    }
  }

  lemma TargetsAre(projects: set<string>, months: set<Month>, failed: set<string>, targets: seq<Target>)
    requires (set x <- targets) == set p <- projects, m <- months | MonthPrefix(p, m) !in failed :: (p, m)
    ensures forall p, m :: (p, m) in targets <==> p in projects && m in months && MonthPrefix(p, m) !in failed
    ensures forall i | 0 <= i < |targets| :: targets[i].0 in projects && targets[i].1 in months
  {
    hide MonthPrefix;
    var found, wanted := set x <- targets, set p <- projects, m <- months | MonthPrefix(p, m) !in failed :: (p, m);
    forall p, m ensures (p, m) in targets <==> p in projects && m in months && MonthPrefix(p, m) !in failed {
      assert (p, m) in found <==> (p, m) in wanted;
    }
    forall i | 0 <= i < |targets| ensures targets[i].0 in projects && targets[i].1 in months {
      assert targets[i] in found && targets[i] in wanted;
    }
  }
}
