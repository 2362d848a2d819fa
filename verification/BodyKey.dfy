/**
Object keys of the body store (internal/bodystore/key.go) and the prefixes that
are deleted from it (maintainer.go, handlers.go).
*/
module BodyKey {
  import opened Calendar
  import opened Text

  /** bodystore.Key; `now` stands in for a zero time. */
  function Key(project: string, at: Millis, isZero: bool, now: Millis, trace: string, part: string, ext: string): string {
    project + "/" + FormatMonth(MonthOf(if isZero then now else at)) + "/" + trace + "/" + part + "." + ext
  }

  /** What purgeBodiesForMonths deletes for one project and month. */
  function MonthPrefix(project: string, month: Month): string {
    project + "/" + FormatMonth(month) + "/"
  }

  /** What DeleteProject deletes. */
  function ProjectPrefix(project: string): string {
    project + "/"
  }

  predicate SlashFree(s: string) {
    '/' !in s
  }

  /** An object filed under a project and a month, whatever its last two segments are. */
  ghost predicate FiledUnder(key: string, project: string, month: Month) {
    exists rest :: key == project + "/" + FormatMonth(month) + "/" + rest
  }

  /** Under the month of its time, or of now when it has none. */
  lemma KeyIsFiled(project: string, at: Millis, isZero: bool, now: Millis, trace: string, part: string, ext: string)
    ensures FiledUnder(Key(project, at, isZero, now, trace, part, ext), project, MonthOf(if isZero then now else at))
  {
    hide FormatMonth, MonthOf;
    var rest := trace + "/" + part + "." + ext;
    assert Key(project, at, isZero, now, trace, part, ext) ==
           project + "/" + FormatMonth(MonthOf(if isZero then now else at)) + "/" + rest;
  }

  lemma FormatSlashFree(m: Month)
    requires 0 <= m < MONTHS
    ensures SlashFree(FormatMonth(m))
  {
    FormatParses(m);
  }

  /** A project's prefix holds exactly that project's objects. */
  lemma ProjectPrefixExact(key: string, owner: string, month: Month, project: string)
    requires FiledUnder(key, owner, month) && SlashFree(owner) && SlashFree(project)
    ensures HasPrefix(key, ProjectPrefix(project)) <==> owner == project
  {
    var rest :| key == owner + "/" + FormatMonth(month) + "/" + rest;
    var tail := FormatMonth(month) + "/" + rest;
    assert key == owner + ['/'] + tail;
    if HasPrefix(key, ProjectPrefix(project)) {
      var cut := key[|project| + 1..];
      assert key == project + ['/'] + cut;
      SplitFirst(owner, tail, project, cut, '/');
    }
  }

  /** Two keys split at their first two slashes alike. */
  lemma TwoSegments(a: string, b: string, c: string, d: string, e: string, f: string)
    requires a + ['/'] + (b + ['/'] + c) == d + ['/'] + (e + ['/'] + f)
    requires SlashFree(a) && SlashFree(b) && SlashFree(d) && SlashFree(e)
    ensures a == d && b == e
  {
    SplitFirst(a, b + ['/'] + c, d, e + ['/'] + f, '/');
    SplitFirst(b, c, e, f, '/');
  }

  /** No two bodies share a key: if projects and traces are slash-free, and parts have no dot
      ("request" and "response" do not), keys are equal only for the same project, month,
      trace, part and extension. */
  lemma KeysAreDistinct(project: string, at: Millis, trace: string, part: string, ext: string,
                        project': string, at': Millis, trace': string, part': string, ext': string)
    requires SlashFree(project) && SlashFree(trace) && SlashFree(project') && SlashFree(trace')
    requires 0 <= MonthOf(at) < MONTHS && 0 <= MonthOf(at') < MONTHS && '.' !in part && '.' !in part'
    requires Key(project, at, false, 0, trace, part, ext) == Key(project', at', false, 0, trace', part', ext')
    ensures (project, MonthOf(at), trace, part, ext) == (project', MonthOf(at'), trace', part', ext')
  {
    var m, m' := MonthOf(at), MonthOf(at');
    FormatSlashFree(m);
    FormatSlashFree(m');
    KeyParts(project, at, trace, part, ext);
    KeyParts(project', at', trace', part', ext');
    hide Key, FormatMonth, MonthOf;
    var rest, rest' := trace + ['/'] + (part + ['.'] + ext), trace' + ['/'] + (part' + ['.'] + ext');
    SplitFirst(project, FormatMonth(m) + ['/'] + rest, project', FormatMonth(m') + ['/'] + rest', '/');
    SplitFirst(FormatMonth(m), rest, FormatMonth(m'), rest', '/');
    FormatInjective(m, m');
    SplitFirst(trace, part + ['.'] + ext, trace', part' + ['.'] + ext', '/');
    SplitFirst(part, ext, part', ext', '.');
  }

  lemma KeyParts(project: string, at: Millis, trace: string, part: string, ext: string)
    ensures Key(project, at, false, 0, trace, part, ext) ==
            project + ['/'] + (FormatMonth(MonthOf(at)) + ['/'] + (trace + ['/'] + (part + ['.'] + ext)))
  {
    hide FormatMonth, MonthOf;
  }

  /** A month prefix holds exactly the objects of that project and that month. */
  lemma MonthPrefixExact(key: string, owner: string, month: Month, project: string, purged: Month)
    requires FiledUnder(key, owner, month) && SlashFree(owner) && SlashFree(project)
    requires 0 <= month < MONTHS && 0 <= purged < MONTHS
    ensures HasPrefix(key, MonthPrefix(project, purged)) <==> owner == project && month == purged
  {
    FormatSlashFree(month);
    FormatSlashFree(purged);
    if owner == project && month == purged {
      PrefixHolds(key, owner, FormatMonth(month));
    }
    if HasPrefix(key, MonthPrefix(project, purged)) {
      PrefixTells(key, owner, FormatMonth(month), project, FormatMonth(purged));
      FormatInjective(month, purged);
    }
  }

  lemma PrefixHolds(key: string, owner: string, month: string)
    requires exists rest :: key == owner + "/" + month + "/" + rest
    ensures HasPrefix(key, owner + "/" + month + "/")
  {
  }

  lemma PrefixTells(key: string, owner: string, month: string, project: string, purged: string)
    requires exists rest :: key == owner + "/" + month + "/" + rest
    requires SlashFree(owner) && SlashFree(month) && SlashFree(project) && SlashFree(purged)
    requires HasPrefix(key, project + "/" + purged + "/")
    ensures owner == project && month == purged
  {
    var rest :| key == owner + "/" + month + "/" + rest;
    var cut := key[|project + "/" + purged + "/"|..];
    assert key == project + "/" + purged + "/" + cut;
    assert key == owner + ['/'] + (month + ['/'] + rest);
    assert key == project + ['/'] + (purged + ['/'] + cut);
    TwoSegments(owner, month, rest, project, purged, cut);
  }

  /** Slash-free ids are needed: the prefix of project "a" in one month also holds the
      objects of a project that is called "a/" and that month. */
  lemma SlashBreaksIsolation(month: Month, at: Millis, trace: string, part: string, ext: string)
    ensures HasPrefix(Key("a/" + FormatMonth(month), at, false, 0, trace, part, ext), MonthPrefix("a", month))
  {
    hide FormatMonth, MonthOf;
    var key := Key("a/" + FormatMonth(month), at, false, 0, trace, part, ext);
    assert key == ("a/" + FormatMonth(month) + "/") +
                  (FormatMonth(MonthOf(at)) + "/" + trace + "/" + part + "." + ext);
  }
}
