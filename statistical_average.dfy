/**
 * The statistical-average interface: every observation is folded into the
 * hour, day, month and year fragments of its generated-at time, one level
 * after the other, and the fragments are served per route with their
 * search metadata.
 */
module StatisticalAverage {
  import opened Wrappers
  import opened Calendar
  import opened Rdf
  import opened Aggregate
  import opened Levels
  import Http
  import Utils

  // ======================================================== bucket files

  /** The fragment files, by path, as the statements they hold. */
  type Files = map<string, seq<Triple>>

  /** `fragmentsPath + '/' + gat.format(...) + '.trig'` for each level. */
  function HourPath(cfg: AvgConfig, g: Instant): string
    requires Valid(g)
  {
    cfg.fragmentsPath + "/" + HourKey(g) + ".trig"
  }

  function DayPath(cfg: AvgConfig, g: Instant): string
    requires Valid(g)
  {
    cfg.fragmentsPath + "/" + DayKey(g) + ".trig"
  }

  function MonthPath(cfg: AvgConfig, g: Instant): string
    requires Valid(g)
  {
    cfg.fragmentsPath + "/" + MonthKey(g) + ".trig"
  }

  function YearPath(cfg: AvgConfig, g: Instant): string
    requires Valid(g)
  {
    cfg.fragmentsPath + "/" + YearKey(g) + ".trig"
  }

  /** The file of the level above the hour that `span` names. */
  function UpperPath(cfg: AvgConfig, g: Instant, span: Span): string
    requires Valid(g)
  {
    match span
    case Days => DayPath(cfg, g)
    case Months => MonthPath(cfg, g)
    case Years => YearPath(cfg, g)
  }

  /** The four files an observation at `g` goes into. */
  function BucketPaths(cfg: AvgConfig, g: Instant): set<string>
    requires Valid(g)
  {
    {HourPath(cfg, g), DayPath(cfg, g), MonthPath(cfg, g), YearPath(cfg, g)}
  }

  /** The four files are different files: their names have different lengths. */
  lemma BucketPathsDistinct(cfg: AvgConfig, g: Instant)
    requires Valid(g)
    ensures |HourPath(cfg, g)| == |DayPath(cfg, g)| + 3 == |MonthPath(cfg, g)| + 6 == |YearPath(cfg, g)| + 9
    ensures |BucketPaths(cfg, g)| == 4
  {
  }

  // ======================================================== the cascade

  /**
   * The files after one level was handled, and the level handed upwards;
   * `None` when the level threw and the cascade stopped there.
   */
  datatype Stage = Stage(files: Files, level: Option<Level>)

  /**
   * `handleHourLevel`: an existing hour file is updated with the readings
   * of the observation (reading the sample size of a file without one
   * throws), otherwise the hour fragment is created from the observation.
   */
  function HourStage(cfg: AvgConfig, files: Files, path: string, obs: seq<Triple>, g: Instant): Stage
    requires Valid(g)
  {
    if path in files then
      if HasSample(files[path]) then
        var r := UpdateHour(ReadingValues(obs), files[path], Sample(files[path]), g);
        Stage(files[path := r.data], Some(r))
      else Stage(files, None)
    else
      var data := HourFragment(cfg, obs, g);
      Stage(files[path := data], Some(Level(data, ReadingValues(obs))))
  }

  /** `createDayFragment`, `createMonthFragment` and `createYearFragment` on the level below. */
  function Created(cfg: AvgConfig, lower: seq<Triple>, g: Instant, span: Span): seq<Triple>
    requires Valid(g)
  {
    match span
    case Days => DayFragment(cfg, lower, g)
    case Months => MonthFragment(cfg, lower, g)
    case Years => YearFragment(cfg, lower, g)
  }

  /**
   * `handleDayLevel`, `handleMonthLevel` and `handleYearLevel`: an existing
   * file is updated with the values of the level below, otherwise the level
   * below is relabelled into a new fragment and its values are handed on.
   */
  function UpperStage(cfg: AvgConfig, s: Stage, path: string, g: Instant, span: Span): Stage
    requires Valid(g)
  {
    if s.level.None? then s
    else
      var lower := s.level.value;
      if path in s.files then
        if HasSample(s.files[path]) then
          var r := Update(lower.values, s.files[path], Sample(s.files[path]), g);
          Stage(s.files[path := r.data], Some(r))
        else Stage(s.files, None)
      else
        var data := Created(cfg, lower.data, g, span);
        Stage(s.files[path := data], Some(Level(data, lower.values)))
  }

  /** The four levels, hour first, kept in the files `hp`, `dp`, `mp` and `yp`. */
  function Cascade(cfg: AvgConfig, files: Files, obs: seq<Triple>, g: Instant,
                   hp: string, dp: string, mp: string, yp: string): Stage
    requires Valid(g)
  {
    var h := HourStage(cfg, files, hp, obs, g);
    var d := UpperStage(cfg, h, dp, g, Days);
    var m := UpperStage(cfg, d, mp, g, Months);
    UpperStage(cfg, m, yp, g, Years)
  }

  /** `onData` on the fragment files. */
  function Ingest(cfg: AvgConfig, files: Files, obs: seq<Triple>, g: Instant): Stage
    requires Valid(g)
  {
    Cascade(cfg, files, obs, g, HourPath(cfg, g), DayPath(cfg, g), MonthPath(cfg, g), YearPath(cfg, g))
  }

  // ======================================================== routes

  /** `s.split('_')[0]`: the text before the first underscore. */
  function SplitHead(s: string): (r: string)
    ensures |r| <= |s| && r == s[..|r|] && '_' !in r
    ensures |r| < |s| ==> s[|r|] == '_'
  {
    if s == [] || s[0] == '_' then [] else [s[0]] + SplitHead(s[1..])
  }

  /** The four fragment routes with their path parameters. */
  datatype Route =
    | YearRoute(year: string)
    | MonthRoute(year: string, month: string)
    | DayRoute(year: string, month: string, day: string)
    | HourRoute(year: string, month: string, day: string, hour: string)

  /** The file a route reads: the first part of every parameter, joined as the level's file name. */
  function RoutePath(cfg: AvgConfig, r: Route): string {
    cfg.fragmentsPath + "/" +
    (match r
     case YearRoute(y) => SplitHead(y)
     case MonthRoute(y, m) => SplitHead(y) + "-" + SplitHead(m)
     case DayRoute(y, m, d) => SplitHead(y) + "-" + SplitHead(m) + "-" + SplitHead(d)
     case HourRoute(y, m, d, h) => SplitHead(y) + "-" + SplitHead(m) + "-" + SplitHead(d) + "T" + SplitHead(h))
    + ".trig"
  }

  /** Only the hour route serves its fragment without search metadata. */
  predicate WithMetadata(r: Route) {
    !r.HourRoute?
  }

  /** `addMetadata`: the range gate's search template over `initial_final`. */
  function AddMetadata(id: string): (r: seq<Triple>)
    ensures |r| == 8
    ensures forall t :: t in r ==> t.graph.None? && t.subj in {id, id + "#search", id + "#mapping"}
    ensures Triple(id + "#search", HydraTemplate, Lit(id + "/{+initial_final}"), None) in r
  {
    var search := id + "#search";
    var mapping := id + "#mapping";
    [ Triple(id, RdfType, Iri(RangeGate), None),
      Triple(id, HydraSearch, Iri(search), None),
      Triple(search, HydraTemplate, Lit(id + "/{+initial_final}"), None),
      Triple(search, HydraMapping, Lit(mapping), None),
      Triple(mapping, HydraVariable, Lit("initial"), None),
      Triple(mapping, HydraVariable, Lit("final"), None),
      Triple(mapping, HydraProperty, Iri(Initial), None),
      Triple(mapping, HydraProperty, Iri(Final), None) ]
  }

  /** The 200 answer of `handleRequest` with the static statements first. */
  function Served(cfg: AvgConfig, ts: seq<Triple>): Http.Response {
    Http.Response(200, map["Access-Control-Allow-Origin" := "*", "Content-Type" := "text/plain"],
                  Http.Statements(cfg.staticTriples + ts))
  }

  // ======================================================== the interface

  /** A parsed file handed out as a fresh array, as `getTriplesFromFile` returns a new list. */
  method ReadFile(ts: seq<Triple>) returns (a: array<Triple>)
    ensures fresh(a) && a[..] == ts
  {
    a := new Triple[|ts|](i requires 0 <= i < |ts| => ts[i]);
  }

  class StatisticalAverageInterface {
    const cfg: AvgConfig
    var files: Files
    var latestData: seq<Triple>
    var latestGat: Option<Instant>

    /** The interface over the fragment files already on disk. */
    constructor(cfg: AvgConfig, stored: Files)
      ensures this.cfg == cfg && files == stored && latestData == [] && latestGat == None
    {
      this.cfg := cfg;
      files := stored;
      latestData := [];
      latestGat := None;
    }

    /** `handleHourLevel`. */
    method HandleHourLevel(obs: seq<Triple>, g: Instant, path: string) returns (level: Option<Level>)
      requires Valid(g) && path == HourPath(cfg, g)
      modifies this
      ensures var s := HourStage(cfg, old(files), path, obs, g);
              files == s.files && level == s.level
      ensures latestData == old(latestData) && latestGat == old(latestGat)
    {
      if path in files {
        var stored := ReadFile(files[path]);
        if !HasSample(stored[..]) {
          return None;
        }
        var values := UpdateHourFragment(obs, stored, g);
        files := files[path := stored[..]];
        level := Some(Level(stored[..], values));
      } else {
        var data, values := CreateHourFragment(cfg, obs, g);
        files := files[path := data];
        level := Some(Level(data, values));
      }
    }

    /** `handleDayLevel`, `handleMonthLevel` and `handleYearLevel`, for the level `span` names. */
    method HandleUpperLevel(lower: Level, g: Instant, span: Span, path: string) returns (level: Option<Level>)
      requires Valid(g) && path == UpperPath(cfg, g, span)
      modifies this
      ensures var s := UpperStage(cfg, Stage(old(files), Some(lower)), path, g, span);
              files == s.files && level == s.level
      ensures latestData == old(latestData) && latestGat == old(latestGat)
    {
      if path in files {
        var stored := ReadFile(files[path]);
        if !HasSample(stored[..]) {
          return None;
        }
        var values := UpdateFragment(lower.values, stored, g);
        files := files[path := stored[..]];
        level := Some(Level(stored[..], values));
      } else {
        var below := ReadFile(lower.data);
        var data;
        match span {
          case Days =>
            CreateDayFragment(cfg, below, g);
            data := below[..];
          case Months =>
            CreateMonthFragment(cfg, below, g);
            data := below[..];
          case Years =>
            data := CreateYearFragment(cfg, below, g);
        }
        files := files[path := data];
        level := Some(Level(data, lower.values));
      }
    }

    /**
     * `onData`: remembers the observation and its generated-at time and
     * folds it into the four levels; a level that throws (an unhandled
     * rejection of the handler's promise) ends the cascade there.
     */
    method OnData(obs: seq<Triple>, gat: Instant)
      requires Valid(gat)
      modifies this
      ensures latestData == obs && latestGat == Some(gat)
      ensures files == Ingest(cfg, old(files), obs, gat).files
    {
      latestData := obs;
      latestGat := Some(gat);
      var hp, dp, mp, yp := HourPath(cfg, gat), DayPath(cfg, gat), MonthPath(cfg, gat), YearPath(cfg, gat);
      var h := HandleHourLevel(obs, gat, hp);
      if h.None? {
        return;
      }
      var d := HandleUpperLevel(h.value, gat, Days, dp);
      if d.None? {
        return;
      }
      var m := HandleUpperLevel(d.value, gat, Months, mp);
      if m.None? {
        return;
      }
      var y := HandleUpperLevel(m.value, gat, Years, yp);
    }

    /**
     * `handleRequest`: a missing file is a 404; the year, month and day
     * routes append the search metadata of the fragment named by the first
     * generated-at statement, and a file without one makes the handler
     * throw.
     */
    method HandleRequest(route: Route) returns (r: Http.Response)
      ensures var path := RoutePath(cfg, route);
              && (path !in files ==> r == Http.NotFound)
              && (path in files && !WithMetadata(route) ==> r == Served(cfg, files[path]))
              && (path in files && WithMetadata(route) ==>
                    var gats := Utils.GetTriplesBySPOG(files[path], None, Some(GeneratedAtTime), None, None);
                    r == if gats == [] then Http.InternalError
                         else Served(cfg, files[path] + AddMetadata(gats[0].subj)))
    {
      var path := RoutePath(cfg, route);
      if path !in files {
        return Http.NotFound;
      }
      var ft := files[path];
      if WithMetadata(route) {
        var gats := Utils.GetTriplesBySPOG(ft, None, Some(GeneratedAtTime), None, None);
        if gats == [] {
          return Http.InternalError;
        }
        ft := ft + AddMetadata(gats[0].subj);
      }
      r := Served(cfg, ft);
    }
  }

  // ===================================================== route properties

  /** `(a + '_' + b).split('_')[0]` is `a` when `a` holds no '_'. */
  lemma {:induction false} SplitHeadOf(a: string, b: string)
    requires '_' !in a
    ensures SplitHead(a + "_" + b) == a
  {
    if a != [] {
      assert (a + "_" + b)[1..] == a[1..] + "_" + b;
      SplitHeadOf(a[1..], b);
      assert a == [a[0]] + a[1..];
    }
  }

  /** A two-digit segment `aa_bb` is read back as `aa`. */
  lemma FieldHead(a: nat, b: nat)
    requires a < 100 && b < 100
    ensures SplitHead(Digits2(a) + "_" + Digits2(b)) == Digits2(a)
  {
    DigitsHaveNoUnderscore(Digits2(a));
    SplitHeadOf(Digits2(a), Digits2(b));
  }

  /** A year segment `yyyy_yyyy` is read back as the four-digit year. */
  lemma YearHead(g: Instant)
    requires Valid(g)
    ensures SplitHead(YearSegment(g)) == YearKey(g)
  {
    NumeralOfYear(g.year);
    DigitsHaveNoUnderscore(YearKey(g));
    SplitHeadOf(NatToString(g.year), NatToString(g.year + 1));
  }

  /** The first part of each segment of a fragment identifier is the bucket's own key field. */
  lemma SegmentHeads(g: Instant)
    requires Valid(g)
    ensures SplitHead(YearSegment(g)) == YearKey(g)
    ensures SplitHead(MonthSegment(g)) == Digits2(g.month)
    ensures SplitHead(DaySegment(g)) == Digits2(g.day)
    ensures SplitHead(HourSegment(g)) == Digits2(g.hour)
  {
    YearHead(g);
    FieldHead(g.month, AddOneMonth(g).month);
    FieldHead(g.day, AddOneDay(g).day);
    FieldHead(g.hour, AddOneHour(g).hour);
  }

  /**
   * Following a fragment identifier resolves to the file the cascade keeps
   * that fragment in: the route parameters taken from the identifiers of
   * the buckets of `g` read exactly the year, month, day and hour files of `g`.
   */
  lemma BucketRoutes(cfg: AvgConfig, g: Instant)
    requires Valid(g)
    ensures RoutePath(cfg, YearRoute(YearSegment(g))) == YearPath(cfg, g)
    ensures RoutePath(cfg, MonthRoute(YearSegment(g), MonthSegment(g))) == MonthPath(cfg, g)
    ensures RoutePath(cfg, DayRoute(YearSegment(g), MonthSegment(g), DaySegment(g))) == DayPath(cfg, g)
    ensures RoutePath(cfg, HourRoute(YearSegment(g), MonthSegment(g), DaySegment(g), HourSegment(g)))
            == HourPath(cfg, g)
  {
    SegmentHeads(g);
  }

  // ======================================================== properties

  /** `p` is absent from both maps or holds the same statements in both. */
  ghost predicate SameAt(before: Files, after: Files, p: string) {
    (p in before <==> p in after) && (p in before ==> before[p] == after[p])
  }

  /** `after` keeps every file of `before` and differs from it only at `paths`. */
  ghost predicate WritesOnly(before: Files, after: Files, paths: set<string>) {
    before.Keys <= after.Keys && forall p :: p !in paths ==> SameAt(before, after, p)
  }

  lemma HourStageWrites(cfg: AvgConfig, files: Files, path: string, obs: seq<Triple>, g: Instant)
    requires Valid(g)
    ensures WritesOnly(files, HourStage(cfg, files, path, obs, g).files, {path})
  {
  }

  lemma UpperStageWrites(cfg: AvgConfig, s: Stage, path: string, g: Instant, span: Span)
    requires Valid(g)
    ensures WritesOnly(s.files, UpperStage(cfg, s, path, g, span).files, {path})
  {
  }

  /** A level can be handled over `files`: its file is absent, or has a sample size to read. */
  predicate Readable(files: Files, path: string) {
    path in files ==> HasSample(files[path])
  }

  /** The hour level goes through unless its file exists without a sample size. */
  lemma HourStageCompletes(cfg: AvgConfig, files: Files, path: string, obs: seq<Triple>, g: Instant)
    requires Valid(g)
    ensures var s := HourStage(cfg, files, path, obs, g);
            && (s.level.Some? <==> Readable(files, path))
            && (s.level.Some? ==> path in s.files)
  {
  }

  /** A level above the hour goes through unless it is reached with nothing or its file has no sample size. */
  lemma UpperStageCompletes(cfg: AvgConfig, s: Stage, path: string, g: Instant, span: Span)
    requires Valid(g)
    ensures var r := UpperStage(cfg, s, path, g, span);
            && (r.level.Some? <==> s.level.Some? && Readable(s.files, path))
            && (r.level.Some? ==> path in r.files)
  {
  }

  /** The cascade writes no file but its four, and removes none. */
  lemma CascadeWritesOnly(cfg: AvgConfig, files: Files, obs: seq<Triple>, g: Instant,
                          hp: string, dp: string, mp: string, yp: string)
    requires Valid(g)
    ensures var r := Cascade(cfg, files, obs, g, hp, dp, mp, yp).files;
            && WritesOnly(files, r, {hp, dp, mp, yp})
            && r.Keys <= files.Keys + {hp, dp, mp, yp}
  {
    var h := HourStage(cfg, files, hp, obs, g);
    var d := UpperStage(cfg, h, dp, g, Days);
    var m := UpperStage(cfg, d, mp, g, Months);
    var y := UpperStage(cfg, m, yp, g, Years);
    HourStageWrites(cfg, files, hp, obs, g);
    UpperStageWrites(cfg, h, dp, g, Days);
    UpperStageWrites(cfg, d, mp, g, Months);
    UpperStageWrites(cfg, m, yp, g, Years);
    forall p | p !in {hp, dp, mp, yp}
      ensures SameAt(files, y.files, p)
    {
      assert SameAt(files, h.files, p) && SameAt(h.files, d.files, p);
      assert SameAt(d.files, m.files, p) && SameAt(m.files, y.files, p);
    }
  }

  /** An observation writes no file but the four of its buckets, and removes none. */
  lemma IngestWritesOnlyBuckets(cfg: AvgConfig, files: Files, obs: seq<Triple>, g: Instant)
    requires Valid(g)
    ensures var r := Ingest(cfg, files, obs, g).files;
            && WritesOnly(files, r, BucketPaths(cfg, g))
            && r.Keys <= files.Keys + BucketPaths(cfg, g)
  {
    CascadeWritesOnly(cfg, files, obs, g, HourPath(cfg, g), DayPath(cfg, g), MonthPath(cfg, g), YearPath(cfg, g));
  }

  /** Over four different files, the cascade goes through exactly when none of them exists without a sample size. */
  lemma CascadeCompletes(cfg: AvgConfig, files: Files, obs: seq<Triple>, g: Instant,
                         hp: string, dp: string, mp: string, yp: string)
    requires Valid(g)
    requires hp != dp && hp != mp && hp != yp && dp != mp && dp != yp && mp != yp
    ensures var r := Cascade(cfg, files, obs, g, hp, dp, mp, yp);
            && (r.level.Some? <==> Readable(files, hp) && Readable(files, dp) && Readable(files, mp) && Readable(files, yp))
            && (r.level.Some? ==> hp in r.files && dp in r.files && mp in r.files && yp in r.files)
  {
    var h := HourStage(cfg, files, hp, obs, g);
    var d := UpperStage(cfg, h, dp, g, Days);
    var m := UpperStage(cfg, d, mp, g, Months);
    HourStageWrites(cfg, files, hp, obs, g);
    UpperStageWrites(cfg, h, dp, g, Days);
    UpperStageWrites(cfg, d, mp, g, Months);
    UpperStageWrites(cfg, m, yp, g, Years);
    HourStageCompletes(cfg, files, hp, obs, g);
    UpperStageCompletes(cfg, h, dp, g, Days);
    UpperStageCompletes(cfg, d, mp, g, Months);
    UpperStageCompletes(cfg, m, yp, g, Years);
    assert SameAt(files, h.files, dp) && SameAt(files, h.files, mp) && SameAt(files, h.files, yp);
    assert SameAt(h.files, d.files, mp) && SameAt(h.files, d.files, yp) && SameAt(d.files, m.files, yp);
  }

  /**
   * The cascade runs through all four levels exactly when every bucket
   * file that already exists has a sample size, and then all four exist.
   */
  lemma IngestCompletes(cfg: AvgConfig, files: Files, obs: seq<Triple>, g: Instant)
    requires Valid(g)
    ensures var r := Ingest(cfg, files, obs, g);
            && (r.level.Some? <==> (Readable(files, HourPath(cfg, g)) && Readable(files, DayPath(cfg, g))
                                    && Readable(files, MonthPath(cfg, g)) && Readable(files, YearPath(cfg, g))))
            && (r.level.Some? ==> HourPath(cfg, g) in r.files && DayPath(cfg, g) in r.files
                                  && MonthPath(cfg, g) in r.files && YearPath(cfg, g) in r.files)
  {
    BucketPathsDistinct(cfg, g);
    CascadeCompletes(cfg, files, obs, g, HourPath(cfg, g), DayPath(cfg, g), MonthPath(cfg, g), YearPath(cfg, g));
  }

  /** An hour fragment that does not exist is created from the observation. */
  lemma HourStageCreates(cfg: AvgConfig, files: Files, path: string, obs: seq<Triple>, g: Instant)
    requires Valid(g) && path !in files
    ensures var hour := HourFragment(cfg, obs, g);
            HourStage(cfg, files, path, obs, g) == Stage(files[path := hour], Some(Level(hour, ReadingValues(obs))))
  {
  }

  /** An upper fragment that does not exist is created from the level below, whose values go on up. */
  lemma UpperStageCreates(cfg: AvgConfig, s: Stage, path: string, g: Instant, span: Span)
    requires Valid(g) && s.level.Some? && path !in s.files
    ensures var data := Created(cfg, s.level.value.data, g, span);
            UpperStage(cfg, s, path, g, span) == Stage(s.files[path := data], Some(Level(data, s.level.value.values)))
  {
  }

  /** Over four different absent files, the cascade creates each level from the one below. */
  lemma CascadeCreates(cfg: AvgConfig, files: Files, obs: seq<Triple>, g: Instant,
                       hp: string, dp: string, mp: string, yp: string)
    requires Valid(g)
    requires hp != dp && hp != mp && hp != yp && dp != mp && dp != yp && mp != yp
    requires hp !in files && dp !in files && mp !in files && yp !in files
    ensures var hour := HourFragment(cfg, obs, g);
            var day := Created(cfg, hour, g, Days);
            var month := Created(cfg, day, g, Months);
            var year := Created(cfg, month, g, Years);
            var r := Cascade(cfg, files, obs, g, hp, dp, mp, yp);
            && r.files == files[hp := hour][dp := day][mp := month][yp := year]
            && r.level == Some(Level(year, ReadingValues(obs)))
  {
    var h := HourStage(cfg, files, hp, obs, g);
    HourStageCreates(cfg, files, hp, obs, g);
    var d := UpperStage(cfg, h, dp, g, Days);
    UpperStageCreates(cfg, h, dp, g, Days);
    var m := UpperStage(cfg, d, mp, g, Months);
    UpperStageCreates(cfg, d, mp, g, Months);
    UpperStageCreates(cfg, m, yp, g, Years);
  }

  /**
   * The first observation in a year creates all four fragments, each one
   * relabelled from the one below, and hands the readings up unchanged.
   */
  lemma FirstOfYear(cfg: AvgConfig, files: Files, obs: seq<Triple>, g: Instant)
    requires Valid(g)
    requires HourPath(cfg, g) !in files && DayPath(cfg, g) !in files
    requires MonthPath(cfg, g) !in files && YearPath(cfg, g) !in files
    ensures var hour := HourFragment(cfg, obs, g);
            var day := DayFragment(cfg, hour, g);
            var month := MonthFragment(cfg, day, g);
            var year := YearFragment(cfg, month, g);
            var r := Ingest(cfg, files, obs, g);
            && r.files == files[HourPath(cfg, g) := hour][DayPath(cfg, g) := day][MonthPath(cfg, g) := month][YearPath(cfg, g) := year]
            && r.level == Some(Level(year, ReadingValues(obs)))
  {
    BucketPathsDistinct(cfg, g);
    CascadeCreates(cfg, files, obs, g, HourPath(cfg, g), DayPath(cfg, g), MonthPath(cfg, g), YearPath(cfg, g));
  }

  // ------------------------------------------------ sample sizes

  /**
   * After its level was handled, the file at `path` counts one sample more
   * than before, or one when it is new.
   */
  predicate Counted(before: Files, after: Files, path: string) {
    && path in after && HasSample(after[path])
    && Sample(after[path]) == if path in before && HasSample(before[path]) then Incremented(Sample(before[path])) else Some(1)
  }

  /** A created day, month or year fragment counts one sample. */
  lemma CreatedCountsOne(cfg: AvgConfig, lower: seq<Triple>, g: Instant, span: Span)
    requires Valid(g) && HasSample(lower)
    ensures HasSample(Created(cfg, lower, g, span)) && Sample(Created(cfg, lower, g, span)) == Some(1)
  {
    match span
    case Days => RelabelledSample(lower, DayId(cfg, g), Some(MonthId(cfg, g) + "/"), Days, StartOfDay(g));
    case Months => RelabelledSample(lower, MonthId(cfg, g), Some(YearId(cfg, g) + "/"), Months, StartOfMonth(g));
    case Years => YearFragmentShape(cfg, lower, g);
  }

  /** The hour level counts its sample; what it hands up is what it wrote. */
  lemma HourStageCounts(cfg: AvgConfig, files: Files, path: string, obs: seq<Triple>, g: Instant)
    requires Valid(g) && Readable(files, path)
    requires forall t :: t in obs ==> t.pred != SampleSize
    ensures var s := HourStage(cfg, files, path, obs, g);
            && Counted(files, s.files, path)
            && s.level.Some? && s.level.value.data == s.files[path]
  {
    if path in files {
      UpdateHourCountsSample(ReadingValues(obs), files[path], g);
    } else {
      HourStartsAtOneSample(cfg, obs, g);
    }
  }

  /** A level above the hour, reached with a counted level, counts its sample too. */
  lemma UpperStageCounts(cfg: AvgConfig, s: Stage, path: string, g: Instant, span: Span)
    requires Valid(g) && s.level.Some? && HasSample(s.level.value.data) && Readable(s.files, path)
    ensures var r := UpperStage(cfg, s, path, g, span);
            && Counted(s.files, r.files, path)
            && r.level.Some? && r.level.value.data == r.files[path]
  {
    if path in s.files {
      UpdateCountsSample(s.level.value.values, s.files[path], g);
    } else {
      CreatedCountsOne(cfg, s.level.value.data, g, span);
    }
  }

  /** A file a stage does not write stays as readable as it was. */
  lemma StaysReadable(before: Files, after: Files, written: string, p: string)
    requires WritesOnly(before, after, {written}) && p != written && Readable(before, p)
    ensures Readable(after, p)
  {
    assert SameAt(before, after, p);
  }

  /** Four stages over four different files, each counting its own file and writing no other. */
  lemma CountedChain(files: Files, f1: Files, f2: Files, f3: Files, f4: Files,
                     hp: string, dp: string, mp: string, yp: string)
    requires hp != dp && hp != mp && hp != yp && dp != mp && dp != yp && mp != yp
    requires WritesOnly(files, f1, {hp}) && WritesOnly(f1, f2, {dp})
    requires WritesOnly(f2, f3, {mp}) && WritesOnly(f3, f4, {yp})
    requires Counted(files, f1, hp) && Counted(f1, f2, dp) && Counted(f2, f3, mp) && Counted(f3, f4, yp)
    ensures Counted(files, f4, hp) && Counted(files, f4, dp) && Counted(files, f4, mp) && Counted(files, f4, yp)
  {
    assert SameAt(f1, f2, hp) && SameAt(f2, f3, hp) && SameAt(f3, f4, hp);
    assert SameAt(files, f1, dp) && SameAt(f2, f3, dp) && SameAt(f3, f4, dp);
    assert SameAt(files, f1, mp) && SameAt(f1, f2, mp) && SameAt(f3, f4, mp);
    assert SameAt(files, f1, yp) && SameAt(f1, f2, yp) && SameAt(f2, f3, yp);
  }

  /**
   * Over four different files that can all be handled, one observation
   * adds one sample to each of the four fragments (a new one counts one).
   */
  lemma CascadeCounts(cfg: AvgConfig, files: Files, obs: seq<Triple>, g: Instant,
                      hp: string, dp: string, mp: string, yp: string)
    requires Valid(g)
    requires hp != dp && hp != mp && hp != yp && dp != mp && dp != yp && mp != yp
    requires Readable(files, hp) && Readable(files, dp) && Readable(files, mp) && Readable(files, yp)
    requires forall t :: t in obs ==> t.pred != SampleSize
    ensures var r := Cascade(cfg, files, obs, g, hp, dp, mp, yp).files;
            Counted(files, r, hp) && Counted(files, r, dp) && Counted(files, r, mp) && Counted(files, r, yp)
  {
    var h := HourStage(cfg, files, hp, obs, g);
    HourStageWrites(cfg, files, hp, obs, g);
    HourStageCounts(cfg, files, hp, obs, g);
    StaysReadable(files, h.files, hp, dp);
    StaysReadable(files, h.files, hp, mp);
    StaysReadable(files, h.files, hp, yp);
    var d := UpperStage(cfg, h, dp, g, Days);
    UpperStageWrites(cfg, h, dp, g, Days);
    UpperStageCounts(cfg, h, dp, g, Days);
    StaysReadable(h.files, d.files, dp, mp);
    StaysReadable(h.files, d.files, dp, yp);
    var m := UpperStage(cfg, d, mp, g, Months);
    UpperStageWrites(cfg, d, mp, g, Months);
    UpperStageCounts(cfg, d, mp, g, Months);
    StaysReadable(d.files, m.files, mp, yp);
    var y := UpperStage(cfg, m, yp, g, Years);
    UpperStageWrites(cfg, m, yp, g, Years);
    UpperStageCounts(cfg, m, yp, g, Years);
    CountedChain(files, h.files, d.files, m.files, y.files, hp, dp, mp, yp);
  }


  /**
   * Each observation adds one to the sample size of the hour, day, month
   * and year fragment it falls in, so a fragment created by the first of k
   * observations counts k; a bucket file that exists without a sample size
   * stops the cascade instead.
   */
  lemma IngestCounts(cfg: AvgConfig, files: Files, obs: seq<Triple>, g: Instant)
    requires Valid(g)
    requires Readable(files, HourPath(cfg, g)) && Readable(files, DayPath(cfg, g))
    requires Readable(files, MonthPath(cfg, g)) && Readable(files, YearPath(cfg, g))
    requires forall t :: t in obs ==> t.pred != SampleSize
    ensures var r := Ingest(cfg, files, obs, g).files;
            && Counted(files, r, HourPath(cfg, g)) && Counted(files, r, DayPath(cfg, g))
            && Counted(files, r, MonthPath(cfg, g)) && Counted(files, r, YearPath(cfg, g))
  {
    BucketPathsDistinct(cfg, g);
    CascadeCounts(cfg, files, obs, g, HourPath(cfg, g), DayPath(cfg, g), MonthPath(cfg, g), YearPath(cfg, g));
  }
}
