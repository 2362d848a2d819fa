/**
The partition maintainer (internal/partition/maintainer.go): creating monthly
partitions ahead of time, dropping the ones past retention, and purging the body
objects of the months that were dropped.
*/
module Partition {
  import opened Wrappers
  import opened Calendar
  import opened BodyKey
  import opened Text

  datatype Range = Range(from: Millis, to: Millis)

  /** Children of the `traces` table and the created_at values each accepts. */
  type Catalog = map<string, Range>

  const PREFIX: string := "traces_"

  function PartitionName(m: Month): string {
    PREFIX + FormatMonth(m)
  }

  function ParsePartition(name: string): Option<Month> {
    if HasPrefix(name, PREFIX) then ParseMonth(name[|PREFIX|..]) else None
  }

  function MonthRange(m: Month): Range {
    Range(StartMs(m), StartMs(m + 1))
  }

  /** Names and months correspond one to one for the years 0 to 9999. */
  lemma NameParses(m: Month)
    requires 0 <= m < MONTHS
    ensures ParsePartition(PartitionName(m)) == Some(m)
  {
    FormatParses(m);
    assert PartitionName(m)[|PREFIX|..] == FormatMonth(m);
  }

  lemma ParsedIsName(name: string)
    ensures match ParsePartition(name)
            case Some(m) => 0 <= m < MONTHS && name == PartitionName(m)
            case None => true
  {
    if HasPrefix(name, PREFIX) {
      ParseIsFormat(name[|PREFIX|..]);
      assert name == name[..|PREFIX|] + name[|PREFIX|..];
    }
  }

  /** CREATE TABLE IF NOT EXISTS for `n` months from `first` on. */
  function Created(catalog: Catalog, first: Month, n: nat): Catalog {
    if n == 0 then catalog
    else
      var c := Created(catalog, first, n - 1);
      var m := first + n - 1;
      if PartitionName(m) in c then c else c[PartitionName(m) := MonthRange(m)]
  }

  /** Every child is a monthly partition with its own month's range. */
  ghost predicate Tiled(catalog: Catalog) {
    forall name <- catalog ::
      ParsePartition(name).Some? && catalog[name] == MonthRange(ParsePartition(name).value)
  }

  predicate Accepts(catalog: Catalog, name: string, t: Millis) {
    name in catalog && catalog[name].from <= t < catalog[name].to
  }

  /** The month's own partition exists, with exactly the month's range. */
  predicate HasMonth(catalog: Catalog, m: Month) {
    PartitionName(m) in catalog && catalog[PartitionName(m)] == MonthRange(m)
  }

  lemma {:induction false} CreatedTiled(catalog: Catalog, first: Month, n: nat)
    requires Tiled(catalog) && 0 <= first && first + n <= MONTHS
    ensures Tiled(Created(catalog, first, n))
    ensures forall m | first <= m < first + n :: HasMonth(Created(catalog, first, n), m)
    ensures catalog.Keys <= Created(catalog, first, n).Keys
  {
    hide StartMs, FormatMonth, ParseMonth;
    if n > 0 {
      CreatedTiled(catalog, first, n - 1);
      NameParses(first + n - 1);
      var c := Created(catalog, first, n - 1);
      assert HasMonth(Created(catalog, first, n), first + n - 1);
      forall m | first <= m < first + n - 1 ensures HasMonth(Created(catalog, first, n), m) {
        assert HasMonth(c, m);
      }
    }
  }

  /** In a tiled catalog an instant belongs to its month's partition and to no other. */
  lemma OnePartition(catalog: Catalog, name: string, t: Millis)
    requires Tiled(catalog) && Accepts(catalog, name, t)
    ensures ParsePartition(name) == Some(MonthOf(t)) && name == PartitionName(MonthOf(t))
  {
    hide StartMs, FormatMonth, ParseMonth;
    ParsedIsName(name);
    MonthOfUnique(t, ParsePartition(name).value);
  }

  /** Exactly one partition accepts the instant: the one named after its month. */
  ghost predicate SoleHome(catalog: Catalog, t: Millis) {
    && Accepts(catalog, PartitionName(MonthOf(t)), t)
    && ParsePartition(PartitionName(MonthOf(t))) == Some(MonthOf(t))
    && forall name | Accepts(catalog, name, t) :: name == PartitionName(MonthOf(t))
  }

  /** Both months have partitions, non-empty, the second starting where the first ends. */
  predicate Adjoin(catalog: Catalog, m: Month) {
    && HasMonth(catalog, m) && HasMonth(catalog, m + 1)
    && catalog[PartitionName(m)].from < catalog[PartitionName(m)].to == catalog[PartitionName(m + 1)].from
  }

  predicate Spans(catalog: Catalog, first: Month, last: Month, from: Millis, to: Millis) {
    && HasMonth(catalog, first) && catalog[PartitionName(first)].from == from
    && HasMonth(catalog, last) && catalog[PartitionName(last)].to == to
  }

  /**
  Calendar tiling. After creation at `now`, the partitions of this month and the
  next `preCreate` are non-empty and contiguous, from the start of this month to
  the start of the month after the last; each instant in between is accepted by
  exactly one partition of the whole table, whose name parses back to its month.
  */
  lemma CalendarTiling(catalog: Catalog, now: Millis, preCreate: nat)
    requires Tiled(catalog) && 0 <= MonthOf(now) && MonthOf(now) + preCreate < MONTHS
    ensures var c := Created(catalog, MonthOf(now), preCreate + 1);
            var first, last := MonthOf(now), MonthOf(now) + preCreate;
            && Tiled(c)
            && Spans(c, first, last, MonthStart(now), AddMonths(now, preCreate + 1))
            && MonthStart(now) <= now < AddMonths(now, preCreate + 1)
            && (forall m | first <= m < last :: Adjoin(c, m))
            && forall t | MonthStart(now) <= t < AddMonths(now, preCreate + 1) :: SoleHome(c, t)
  {
    hide StartMs, FormatMonth, ParseMonth, MonthOf, MonthStart, AddMonths;
    var c := Created(catalog, MonthOf(now), preCreate + 1);
    var first, last := MonthOf(now), MonthOf(now) + preCreate;
    CreatedTiled(catalog, first, preCreate + 1);
    AddMonthsMoves(now, preCreate + 1);
    assert HasMonth(c, first) && HasMonth(c, last);
    MonthsInOrder(first + 1, last + 1);
    forall m | first <= m < last ensures Adjoin(c, m) {
      assert HasMonth(c, m) && HasMonth(c, m + 1);
      StartsInOrder(m, m + 1);
    }
    forall t | MonthStart(now) <= t < AddMonths(now, preCreate + 1) ensures SoleHome(c, t) {
      Between(now, t, preCreate);
      assert HasMonth(c, MonthOf(t));
      NameParses(MonthOf(t));
      forall name | Accepts(c, name, t) ensures name == PartitionName(MonthOf(t)) {
        OnePartition(c, name, t);
      }
    }
  }

  lemma MonthsInOrder(a: Month, b: Month)
    requires a <= b
    ensures StartMs(a) <= StartMs(b)
  {
    hide StartMs;
    StartsInOrder(a, b);
  }

  lemma Between(now: Millis, t: Millis, preCreate: nat)
    requires StartMs(MonthOf(now)) <= t < StartMs(MonthOf(now) + preCreate + 1)
    ensures MonthOf(now) <= MonthOf(t) <= MonthOf(now) + preCreate
  {
    hide StartMs, MonthOf;
    StartsInOrder(MonthOf(t), MonthOf(now));
    StartsInOrder(MonthOf(now) + preCreate, MonthOf(t));
  }

  /** The partitions one drop pass removes; `undropped` are those whose DROP failed. */
  function Expired(catalog: Catalog, threshold: Month, undropped: set<string>): set<string> {
    set name <- catalog | ParsePartition(name).Some? && ParsePartition(name).value < threshold && name !in undropped
  }

  function ExpiredMonths(catalog: Catalog, threshold: Month, undropped: set<string>): set<Month> {
    set name <- Expired(catalog, threshold, undropped) :: ParsePartition(name).value
  }

  /** Some DeletePrefix call that succeeded covers the object. */
  predicate Purges(projects: set<string>, months: set<Month>, failed: set<string>, key: string) {
    exists p, m | p in projects && m in months :: HasPrefix(key, MonthPrefix(p, m)) && MonthPrefix(p, m) !in failed
  }

  function Purged(objects: set<string>, projects: set<string>, months: set<Month>, failed: set<string>): set<string> {
    set key <- objects | !Purges(projects, months, failed, key)
  }

  lemma NothingPurged(objects: set<string>, projects: set<string>, failed: set<string>)
    ensures Purged(objects, projects, {}, failed) == objects
  {
  }

  /** Which calls fail during one Ensure. */
  datatype Faults = Faults(
    created: nat,           // CREATE statements that succeed before one fails
    query: bool,            // listing the partitions fails
    undropped: set<string>, // partitions whose DROP fails
    list: bool,             // listing the projects fails
    unpurged: set<string>)  // prefixes whose DeletePrefix fails

  /** What one tick makes of the two stores: `f.created` partitions get created before a
      CREATE fails, the partitions of expired months go, and the bodies of exactly those. */
  function Ticked(catalog: Catalog, objects: set<string>, month: Month, preCreate: nat, retention: int,
                  projects: set<string>, f: Faults): (Catalog, set<string>)
    requires 0 <= month && month + preCreate < MONTHS
  {
    var ok := f.created > preCreate;
    var created := Created(catalog, month, if ok then preCreate + 1 else f.created);
    if !ok || retention <= 0 || f.query then (created, objects)
    else
      (created - Expired(created, month - retention, f.undropped),
       if f.list then objects
       else Purged(objects, projects, ExpiredMonths(created, month - retention, f.undropped), f.unpurged))
  }

  class Maintainer {
    const preCreate: nat
    const retentionMonths: int
    const projects: Option<seq<string>>  // None when no project repository and body store are wired in
    var catalog: Catalog
    var objects: set<string>

    ghost predicate Valid()
      reads this
    {
      Tiled(catalog)
    }

    constructor (preCreate: int, retentionMonths: int, projects: Option<seq<string>>)
      ensures Valid() && catalog == map[] && objects == {}
      ensures this.preCreate == (if preCreate < 0 then 0 else preCreate)
      ensures this.retentionMonths == retentionMonths && this.projects == projects
    {
      this.preCreate := if preCreate < 0 then 0 else preCreate;
      this.retentionMonths := retentionMonths;
      this.projects := projects;
      catalog, objects := map[], {};
    }

    ghost function ProjectSet(): set<string>
    {
      if projects.Some? then set p <- projects.value else {}
    }

    method CreateMonth(ref: Millis)
      requires Valid() && 0 <= MonthOf(ref) < MONTHS
      modifies `catalog
      ensures Valid() && catalog == Created(old(catalog), MonthOf(ref), 1)
    {
      hide StartMs, FormatMonth, ParseMonth, MonthOf, MonthStart, AddMonths;
      var start, end := MonthStart(ref), AddMonths(ref, 1);
      AddMonthsMoves(ref, 1);
      MonthOfStart(MonthOf(ref));
      var name := PartitionName(MonthOf(start));
      CreatedTiled(catalog, MonthOf(ref), 1);
      assert Created(catalog, MonthOf(ref), 0) == catalog;
      if name !in catalog {
        catalog := catalog[name := Range(start, end)];
      }
    }

    /** DROPs every partition that starts before `threshold`; returns the months dropped. */
    method DropOlderThan(threshold: Millis, query: bool, undropped: set<string>) returns (dropped: seq<Month>)
      requires Valid() && threshold == StartMs(MonthOf(threshold))
      modifies `catalog
      ensures Valid()
      ensures query ==> dropped == [] && catalog == old(catalog)
      ensures !query ==>
                && catalog == old(catalog) - Expired(old(catalog), MonthOf(threshold), undropped)
                && (set m <- dropped) == ExpiredMonths(old(catalog), MonthOf(threshold), undropped)
    {
      hide StartMs, FormatMonth, ParseMonth, MonthOf;
      dropped := [];
      if query {
        return;
      }
      var names, limit := catalog.Keys, MonthOf(threshold);
      ghost var before, gone := catalog, {};
      while names != {}
        invariant names <= before.Keys && gone <= before.Keys - names
        invariant gone == Expired(before, limit, undropped) - names
        invariant catalog == before - gone
        invariant forall m :: m in dropped <==> exists name :: name in gone && ParsePartition(name) == Some(m)
        decreases names
      {
        var name :| name in names;
        names := names - {name};
        var parsed := ParsePartition(name);
        if parsed.None? {
          continue;
        }
        StartsInOrder(parsed.value, limit);
        if StartMs(parsed.value) >= threshold || name in undropped {
          continue;
        }
        catalog := catalog - {name};
        gone := gone + {name};
        dropped := dropped + [parsed.value];
      }
      assert gone == Expired(before, limit, undropped);
      forall m ensures m in dropped <==> m in ExpiredMonths(before, limit, undropped) {
      }
    }

    /** Deletes "{project}/{YYYYMM}/" for every known project and every dropped month. */
    method PurgeBodiesForMonths(months: seq<Month>, list: bool, unpurged: set<string>)
      modifies `objects
      ensures objects == if list then old(objects)
                         else Purged(old(objects), ProjectSet(), (set m <- months), unpurged)
    {
      if |months| == 0 || projects.None? || list {
        return;
      }
      var ids := projects.value;
      ghost var before := objects;
      for i := 0 to |ids|
        invariant forall key :: key in objects <==>
                    key in before && forall p, m | p in ids[..i] && m in months ::
                                       !(HasPrefix(key, MonthPrefix(p, m)) && MonthPrefix(p, m) !in unpurged)
      {
        for j := 0 to |months|
          invariant forall key :: key in objects <==>
                      && key in before
                      && (forall p, m | p in ids[..i] && m in months ::
                            !(HasPrefix(key, MonthPrefix(p, m)) && MonthPrefix(p, m) !in unpurged))
                      && (forall m | m in months[..j] ::
                            !(HasPrefix(key, MonthPrefix(ids[i], m)) && MonthPrefix(ids[i], m) !in unpurged))
        {
          var prefix := MonthPrefix(ids[i], months[j]);
          assert months[..j + 1] == months[..j] + [months[j]];
          if prefix in unpurged {
            continue;
          }
          objects := set key <- objects | !HasPrefix(key, prefix);
        }
        assert ids[..i + 1] == ids[..i] + [ids[i]];
        assert months[..|months|] == months;
      }
      assert ids[..|ids|] == ids;
    }

    /**
    One tick. The first failing CREATE ends it; otherwise partitions of months
    before now - retention go, and so do the bodies of exactly the months dropped.
    */
    method Ensure(now: Millis, f: Faults) returns (ok: bool)
      requires Valid() && 0 <= MonthOf(now) && MonthOf(now) + preCreate < MONTHS
      modifies this
      ensures Valid()
      ensures ok == (f.created > preCreate)
      ensures (catalog, objects) ==
              Ticked(old(catalog), old(objects), MonthOf(now), preCreate, retentionMonths, ProjectSet(), f)
    {
      hide StartMs, FormatMonth, ParseMonth, MonthOf, MonthStart, AddMonths, Purges, Purged, Expired, ExpiredMonths, Tiled;
      var first := MonthOf(now);
      for i := 0 to preCreate + 1
        invariant Valid() && i <= f.created && objects == old(objects)
        invariant catalog == Created(old(catalog), first, i)
      {
        if i == f.created {
          return false;
        }
        AddMonthsMoves(now, i);
        CreateMonth(AddMonths(now, i));
        assert Created(Created(old(catalog), first, i), first + i, 1) == Created(old(catalog), first, i + 1) by {
          assert Created(Created(old(catalog), first, i), first + i, 0) == Created(old(catalog), first, i);
        }
      }
      ok := true;
      if retentionMonths > 0 {
        AddMonthsMoves(now, -retentionMonths);
        var threshold := AddMonths(now, -retentionMonths);
        AddMonthsMoves(threshold, 0);
        ghost var created := catalog;
        var dropped := DropOlderThan(MonthStart(threshold), f.query, f.undropped);
        PurgeBodiesForMonths(dropped, f.list, f.unpurged);
        if f.query {
          NothingPurged(old(objects), ProjectSet(), f.unpurged);
          assert (set m <- dropped) == {};
        } else {
          assert catalog == created - Expired(created, first - retentionMonths, f.undropped);
        }
      }
    }
  }

  /** What is left after a tick in which nothing failed: of all partitions exactly
      those of the months from now - R on, which is R + 1 months up to this one. */
  lemma RetentionKeeps(catalog: Catalog, now: Millis, preCreate: nat, retention: nat)
    requires Tiled(catalog) && 0 <= MonthOf(now) && MonthOf(now) + preCreate < MONTHS
    ensures var created := Created(catalog, MonthOf(now), preCreate + 1);
            var kept := created - Expired(created, MonthOf(now) - retention, {});
            && Tiled(kept)
            && forall m | 0 <= m < MONTHS ::
                 PartitionName(m) in kept <==> PartitionName(m) in created && MonthOf(now) - retention <= m
  {
    hide StartMs, FormatMonth, ParseMonth, MonthOf;
    var created := Created(catalog, MonthOf(now), preCreate + 1);
    CreatedTiled(catalog, MonthOf(now), preCreate + 1);
    forall m | 0 <= m < MONTHS ensures ParsePartition(PartitionName(m)) == Some(m) {
      NameParses(m);
    }
  }
  const NO_FAULT := Faults(0, false, {}, false, {})

  lemma {:induction false} CreatedAre(catalog: Catalog, first: Month, n: nat, m: Month)
    requires 0 <= first && first + n <= MONTHS && 0 <= m < MONTHS
    ensures PartitionName(m) in Created(catalog, first, n) <==> PartitionName(m) in catalog || first <= m < first + n
  {
    hide FormatMonth, StartMs;
    if n > 0 {
      CreatedAre(catalog, first, n - 1, m);
      NamesDiffer(m, first + n - 1);
    }
  }

  lemma NamesDiffer(a: Month, b: Month)
    requires 0 <= a < MONTHS && 0 <= b < MONTHS
    ensures PartitionName(a) == PartitionName(b) <==> a == b
  {
    hide FormatMonth, ParseMonth, ParsePartition;
    NameParses(a);
    NameParses(b);
  }

  /** A tick without faults: the partitions of now and ahead are there, those before now - R
      are gone and no others. */
  lemma FaultlessTick(catalog: Catalog, objects: set<string>, month: Month, preCreate: nat, retention: int,
                      projects: set<string>, m: Month)
    requires Tiled(catalog) && 0 <= month && month + preCreate < MONTHS && 0 <= m < MONTHS
    ensures var kept := Ticked(catalog, objects, month, preCreate, retention, projects, NO_FAULT.(created := preCreate + 1)).0;
            PartitionName(m) in kept <==>
              && (PartitionName(m) in catalog || month <= m <= month + preCreate)
              && (retention <= 0 || month - retention <= m)
  {
    CreatedAre(catalog, month, preCreate + 1, m);
    NameParses(m);
    hide Created, PartitionName, ParsePartition, ExpiredMonths, Purged;
  }

  lemma PurgesIff(projects: set<string>, months: set<Month>, key: string, owner: string, m: Month)
    requires 0 <= m < MONTHS && forall d <- months :: 0 <= d < MONTHS
    requires FiledUnder(key, owner, m) && SlashFree(owner) && forall p <- projects :: SlashFree(p)
    ensures Purges(projects, months, {}, key) <==> owner in projects && m in months
  {
    hide MonthPrefix, HasPrefix, SlashFree, FiledUnder;
    forall p, d | p in projects && d in months
      ensures HasPrefix(key, MonthPrefix(p, d)) <==> owner == p && m == d
    {
      MonthPrefixExact(key, owner, m, p, d);
    }
  }

  lemma TickedBodies(catalog: Catalog, objects: set<string>, month: Month, preCreate: nat, retention: int,
                     projects: set<string>, key: string)
    requires 0 <= month && month + preCreate < MONTHS
    ensures var kept := Ticked(catalog, objects, month, preCreate, retention, projects, NO_FAULT.(created := preCreate + 1)).1;
            var months := ExpiredMonths(Created(catalog, month, preCreate + 1), month - retention, {});
            key in kept <==> key in objects && (retention > 0 ==> !Purges(projects, months, {}, key))
  {
    hide Created, Purges, ExpiredMonths, Expired;
  }

  /** And so with the bodies: those of a known project and a month whose partition the tick
      dropped are gone, all others stay. */
  lemma FaultlessPurge(catalog: Catalog, objects: set<string>, month: Month, preCreate: nat, retention: int,
                       projects: set<string>, key: string, owner: string, m: Month)
    requires Tiled(catalog) && 0 <= month && month + preCreate < MONTHS && 0 <= m < MONTHS
    requires FiledUnder(key, owner, m) && SlashFree(owner) && forall p <- projects :: SlashFree(p)
    ensures var kept := Ticked(catalog, objects, month, preCreate, retention, projects, NO_FAULT.(created := preCreate + 1)).1;
            var dropped := retention > 0 && PartitionName(m) in catalog && m < month - retention;
            key in kept <==> key in objects && !(dropped && owner in projects)
  {
    hide *;
    var created, limit := Created(catalog, month, preCreate + 1), month - retention;
    var months := ExpiredMonths(created, limit, {});
    ExpiredInYears(created, limit);
    CreatedAre(catalog, month, preCreate + 1, m);
    MonthExpired(created, limit, m);
    PurgesIff(projects, months, key, owner, m);
    TickedBodies(catalog, objects, month, preCreate, retention, projects, key);
  }

  lemma MonthExpired(catalog: Catalog, limit: Month, m: Month)
    requires 0 <= m < MONTHS
    ensures m in ExpiredMonths(catalog, limit, {}) <==> PartitionName(m) in catalog && m < limit
  {
    NameParses(m);
    hide FormatMonth, ParseMonth, PartitionName, ParsePartition;
    if m in ExpiredMonths(catalog, limit, {}) {
      var name :| name in Expired(catalog, limit, {}) && ParsePartition(name).value == m;
      ParsedIsName(name);
    }
    if PartitionName(m) in catalog && m < limit {
      assert PartitionName(m) in Expired(catalog, limit, {});
    }
  }

  lemma ExpiredInYears(catalog: Catalog, limit: Month)
    ensures forall m <- ExpiredMonths(catalog, limit, {}) :: 0 <= m < MONTHS
  {
    hide FormatMonth, ParseMonth, ParsePartition;
    forall m | m in ExpiredMonths(catalog, limit, {}) ensures 0 <= m < MONTHS {
      var name :| name in Expired(catalog, limit, {}) && ParsePartition(name).value == m;
      ParsedIsName(name);
    }
  }
}
