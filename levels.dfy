/**
 * Day, month and year fragments created from the fragment one level down:
 * each statement moves into the new fragment, the description's interval,
 * range gate and sample size are replaced, and the year level drops its
 * range gate statements.
 */
module Levels {
  import opened Wrappers
  import opened Calendar
  import opened Rdf
  import opened Aggregate
  import Utils

  /** The unit of time a created fragment spans. */
  datatype Span = Days | Months | Years

  /** moment `add(1, unit)` for the span's unit. */
  function Advance(u: Span, t: Instant): (r: Instant)
    requires IsDate(t)
    ensures IsDate(r)
  {
    match u
    case Days => AddOneDay(t)
    case Months => AddOneMonth(t)
    case Years => AddOneYear(t)
  }

  /** JavaScript truthiness of a statement's graph. */
  predicate InNamedGraph(t: Triple) {
    t.graph.Some? && t.graph.value != ""
  }

  /**
   * One statement moved into the fragment `id`: a statement in a named
   * graph moves to graph `id`, any other becomes a statement about `id`.
   */
  function Moved(t: Triple, id: string): Triple {
    if InNamedGraph(t) then t.(graph := Some(id)) else t.(subj := id)
  }

  /**
   * The object a moved statement carries: `here` is the date cursor and
   * `next` the cursor advanced by one unit; the year level has no range
   * gate to write.
   */
  function RelabelObject(t: Triple, gate: Option<string>, here: Instant, next: Instant): Term {
    if t.pred == Initial then TimeLit(here)
    else if t.pred == Final then TimeLit(next)
    else if t.pred == HasRangeGate && gate.Some? then Iri(gate.value)
    else if t.pred == SampleSize then IntLit(1)
    else t.obj
  }

  function Relabel(t: Triple, id: string, gate: Option<string>, here: Instant, next: Instant): Triple {
    Moved(t, id).(obj := RelabelObject(t, gate, here, next))
  }

  /** moment `add(k, unit)`: the start advanced by k units, one at a time. */
  function Moment(u: Span, start: Instant, k: nat): (r: Instant)
    requires IsDate(start)
    ensures IsDate(r)
  {
    if k == 0 then start else Advance(u, Moment(u, start, k - 1))
  }

  /** The number of final statements in `ts`. */
  function Finals(ts: seq<Triple>): (n: nat)
    ensures n <= |ts|
  {
    if ts == [] then 0 else Finals(ts[..|ts| - 1]) + (if ts[|ts| - 1].pred == Final then 1 else 0)
  }

  /** The relabelled statements so far and the loop's date cursor. */
  datatype Pass = Pass(data: seq<Triple>, cursor: Instant)

  /**
   * The creation loop after it has gone through `ts`: every statement is
   * moved and relabelled with the cursor as it stands, and the cursor
   * starts at the bucket's start and is advanced in place by every final
   * statement (the loop writes the final text with `tempDate.add`).
   */
  function Relabelled(ts: seq<Triple>, id: string, gate: Option<string>, u: Span, start: Instant): (r: Pass)
    requires IsDate(start)
    ensures |r.data| == |ts| && IsDate(r.cursor)
  {
    if ts == [] then Pass([], start)
    else
      var prev := Relabelled(ts[..|ts| - 1], id, gate, u, start);
      var t := ts[|ts| - 1];
      Pass(prev.data + [Relabel(t, id, gate, prev.cursor, Advance(u, prev.cursor))],
           if t.pred == Final then Advance(u, prev.cursor) else prev.cursor)
  }

  /** `createDayFragment`: the hour level moved into the day fragment. */
  function DayFragment(cfg: AvgConfig, hlevel: seq<Triple>, g: Instant): seq<Triple>
    requires IsDate(g)
  {
    Relabelled(hlevel, DayId(cfg, g), Some(MonthId(cfg, g) + "/"), Days, StartOfDay(g)).data
  }

  /** `createMonthFragment`: the day level moved into the month fragment. */
  function MonthFragment(cfg: AvgConfig, dlevel: seq<Triple>, g: Instant): seq<Triple>
    requires IsDate(g)
  {
    Relabelled(dlevel, MonthId(cfg, g), Some(YearId(cfg, g) + "/"), Months, StartOfMonth(g)).data
  }

  /** The month level after the loop of `createYearFragment`, before its filter. */
  function YearRelabelled(cfg: AvgConfig, mlevel: seq<Triple>, g: Instant): seq<Triple>
    requires IsDate(g)
  {
    Relabelled(mlevel, YearId(cfg, g), None, Years, StartOfYear(g)).data
  }

  /** `filter(m => m.predicate !== hasRangeGate)`. */
  function WithoutRangeGates(ts: seq<Triple>): (r: seq<Triple>)
    ensures |r| <= |ts|
    ensures forall t :: t in r <==> t in ts && t.pred != HasRangeGate
  {
    if ts == [] then []
    else (if ts[0].pred != HasRangeGate then [ts[0]] else []) + WithoutRangeGates(ts[1..])
  }

  /** `createYearFragment`: the month level moved into the year fragment, without range gates. */
  function YearFragment(cfg: AvgConfig, mlevel: seq<Triple>, g: Instant): seq<Triple>
    requires IsDate(g)
  {
    WithoutRangeGates(YearRelabelled(cfg, mlevel, g))
  }

  // ------------------------------------------------ the in-place loops

  /** The body of the creation loops on one statement: the `if`s one after the other. */
  method RelabelStatement(t: Triple, id: string, gate: Option<string>, u: Span, cursor: Instant)
    returns (r: Triple, cursor': Instant)
    requires IsDate(cursor)
    ensures r == Relabel(t, id, gate, cursor, Advance(u, cursor))
    ensures cursor' == if t.pred == Final then Advance(u, cursor) else cursor
    ensures r.pred == t.pred
  {
    PredicatesDistinct();
    r, cursor' := t, cursor;
    if InNamedGraph(r) {
      r := r.(graph := Some(id));
    } else {
      r := r.(subj := id);
    }
    if r.pred == Initial {
      r := r.(obj := TimeLit(cursor'));
    }
    if r.pred == Final {
      cursor' := Advance(u, cursor');
      r := r.(obj := TimeLit(cursor'));
    }
    if r.pred == HasRangeGate && gate.Some? {
      r := r.(obj := Iri(gate.value));
    }
    if r.pred == SampleSize {
      r := r.(obj := IntLit(1));
    }
  }

  lemma RelabelStep(ts: seq<Triple>, i: nat, id: string, gate: Option<string>, u: Span, start: Instant)
    requires i < |ts| && IsDate(start)
    ensures var prev := Relabelled(ts[..i], id, gate, u, start);
            Relabelled(ts[..i + 1], id, gate, u, start)
            == Pass(prev.data + [Relabel(ts[i], id, gate, prev.cursor, Advance(u, prev.cursor))],
                    if ts[i].pred == Final then Advance(u, prev.cursor) else prev.cursor)
  {
    assert ts[..i + 1][..i] == ts[..i];
  }

  /** One turn of the creation loop, against `Relabelled`. */
  method RelabelNext(ghost ts: seq<Triple>, ghost i: nat, ghost done: seq<Triple>,
                     t: Triple, id: string, gate: Option<string>, u: Span, start: Instant, cursor: Instant)
    returns (r: Triple, cursor': Instant)
    requires i < |ts| && t == ts[i] && IsDate(start)
    requires Pass(done, cursor) == Relabelled(ts[..i], id, gate, u, start)
    ensures Pass(done + [r], cursor') == Relabelled(ts[..i + 1], id, gate, u, start)
  {
    RelabelStep(ts, i, id, gate, u, start);
    r, cursor' := RelabelStatement(t, id, gate, u, cursor);
  }

  method RelabelLevel(level: array<Triple>, id: string, gate: Option<string>, u: Span, start: Instant)
    requires IsDate(start)
    modifies level
    ensures level[..] == Relabelled(old(level[..]), id, gate, u, start).data
  {
    ghost var orig := level[..];
    var tempDate := start;
    for i := 0 to level.Length
      invariant Pass(level[..i], tempDate) == Relabelled(orig[..i], id, gate, u, start)
      invariant forall j :: i <= j < level.Length ==> level[j] == orig[j]
    {
      ghost var done := level[..i];
      assert level[i] == orig[i];
      var t;
      t, tempDate := RelabelNext(orig, i, done, level[i], id, gate, u, start, tempDate);
      level[i] := t;
      assert level[..i + 1] == done + [t];
    }
    assert level.Length == |orig|;
    assert orig[..level.Length] == orig;
  }

  /** `createDayFragment`: rewrites the hour level in place into the day fragment. */
  method CreateDayFragment(cfg: AvgConfig, hlevel: array<Triple>, g: Instant)
    requires IsDate(g)
    modifies hlevel
    ensures hlevel[..] == DayFragment(cfg, old(hlevel[..]), g)
  {
    RelabelLevel(hlevel, DayId(cfg, g), Some(MonthId(cfg, g) + "/"), Days, StartOfDay(g));
  }

  /** `createMonthFragment`: rewrites the day level in place into the month fragment. */
  method CreateMonthFragment(cfg: AvgConfig, dlevel: array<Triple>, g: Instant)
    requires IsDate(g)
    modifies dlevel
    ensures dlevel[..] == MonthFragment(cfg, old(dlevel[..]), g)
  {
    RelabelLevel(dlevel, MonthId(cfg, g), Some(YearId(cfg, g) + "/"), Months, StartOfMonth(g));
  }

  /**
   * `createYearFragment`: rewrites the month level in place and returns a
   * new sequence without its range gate statements.
   */
  method CreateYearFragment(cfg: AvgConfig, mlevel: array<Triple>, g: Instant) returns (r: seq<Triple>)
    requires IsDate(g)
    modifies mlevel
    ensures mlevel[..] == YearRelabelled(cfg, old(mlevel[..]), g)
    ensures r == YearFragment(cfg, old(mlevel[..]), g)
  {
    RelabelLevel(mlevel, YearId(cfg, g), None, Years, StartOfYear(g));
    r := WithoutRangeGates(mlevel[..]);
  }

  // ------------------------------------------------ properties

  /** After the loop the cursor has been advanced once per final statement. */
  lemma {:induction false} CursorAfter(ts: seq<Triple>, id: string, gate: Option<string>, u: Span, start: Instant)
    requires IsDate(start)
    ensures Relabelled(ts, id, gate, u, start).cursor == Moment(u, start, Finals(ts))
  {
    if ts != [] {
      CursorAfter(ts[..|ts| - 1], id, gate, u, start);
    }
  }

  /**
   * Relabelling keeps every predicate; a statement in a named graph keeps
   * its subject and moves to graph `id`, any other keeps its graph and
   * becomes a statement about `id`; means and every statement outside the
   * description keep their objects.
   */
  lemma RelabelKeeps(t: Triple, id: string, gate: Option<string>, here: Instant, next: Instant)
    ensures var r := Relabel(t, id, gate, here, next);
            && r.pred == t.pred
            && (InNamedGraph(t) ==> r.subj == t.subj && r.graph == Some(id))
            && (!InNamedGraph(t) ==> r.subj == id && r.graph == t.graph)
            && (t.pred == Initial ==> r.obj == TimeLit(here))
            && (t.pred == Final ==> r.obj == TimeLit(next))
            && (t.pred == HasRangeGate && gate.Some? ==> r.obj == Iri(gate.value))
            && (t.pred == SampleSize ==> r.obj == IntLit(1))
            && (t.pred != Initial && t.pred != Final && t.pred != HasRangeGate && t.pred != SampleSize ==> r.obj == t.obj)
  {
    PredicatesDistinct();
  }

  /** Relabelling a longer list extends the relabelling of its prefix. */
  lemma RelabelledPrefix(ts: seq<Triple>, id: string, gate: Option<string>, u: Span, start: Instant)
    requires ts != [] && IsDate(start)
    ensures var init := ts[..|ts| - 1];
            forall k :: 0 <= k < |init| ==>
              Relabelled(ts, id, gate, u, start).data[k] == Relabelled(init, id, gate, u, start).data[k]
  {
  }

  /** Statement i is relabelled as the loop reaches it: later statements do not change it. */
  lemma {:induction false} RelabelledAt(ts: seq<Triple>, id: string, gate: Option<string>, u: Span, start: Instant, i: nat)
    requires i < |ts| && IsDate(start)
    ensures Relabelled(ts, id, gate, u, start).data[i] == Relabelled(ts[..i + 1], id, gate, u, start).data[i]
  {
    var init := ts[..|ts| - 1];
    if i < |init| {
      RelabelledAt(init, id, gate, u, start, i);
      assert init[..i + 1] == ts[..i + 1];
      RelabelledPrefix(ts, id, gate, u, start);
    } else {
      assert ts[..i + 1] == ts;
    }
  }

  /** Until the first final statement the date cursor stays at the start. */
  lemma {:induction false} NoFinalsYet(ts: seq<Triple>, id: string, gate: Option<string>, u: Span, start: Instant)
    requires IsDate(start)
    requires forall j :: 0 <= j < |ts| ==> ts[j].pred != Final
    ensures Relabelled(ts, id, gate, u, start).cursor == start
  {
    if ts != [] {
      var init := ts[..|ts| - 1];
      forall j | 0 <= j < |init|
        ensures init[j].pred != Final
      {
        assert init[j] == ts[j];
      }
      NoFinalsYet(init, id, gate, u, start);
    }
  }

  /**
   * The interval of a created fragment: an initial statement before any
   * final one gets the bucket's start, the first final statement the start
   * of the next bucket.
   */
  lemma DescriptionInterval(ts: seq<Triple>, id: string, gate: Option<string>, u: Span, start: Instant, i: nat)
    requires i < |ts| && IsDate(start)
    requires forall j :: 0 <= j < i ==> ts[j].pred != Final
    ensures var d := Relabelled(ts, id, gate, u, start).data;
            && (ts[i].pred == Initial ==> d[i].obj == TimeLit(start))
            && (ts[i].pred == Final ==> d[i].obj == TimeLit(Advance(u, start)))
  {
    forall j | 0 <= j < |ts[..i]|
      ensures ts[..i][j].pred != Final
    {
      assert ts[..i][j] == ts[j];
    }
    NoFinalsYet(ts[..i], id, gate, u, start);
    RelabelledAt(ts, id, gate, u, start, i);
    RelabelStep(ts, i, id, gate, u, start);
    RelabelKeeps(ts[i], id, gate, start, Advance(u, start));
  }

  /** The shape of a created level, statement by statement. */
  lemma RelabelledShape(ts: seq<Triple>, id: string, gate: Option<string>, u: Span, start: Instant, i: nat)
    requires i < |ts| && IsDate(start)
    ensures var d := Relabelled(ts, id, gate, u, start).data;
            && d[i].pred == ts[i].pred
            && (InNamedGraph(ts[i]) ==> d[i].subj == ts[i].subj && d[i].graph == Some(id))
            && (!InNamedGraph(ts[i]) ==> d[i].subj == id && d[i].graph == ts[i].graph)
            && (ts[i].pred == HasRangeGate && gate.Some? ==> d[i].obj == Iri(gate.value))
            && (ts[i].pred == SampleSize ==> d[i].obj == IntLit(1))
            && (ts[i].pred != Initial && ts[i].pred != Final && ts[i].pred != HasRangeGate && ts[i].pred != SampleSize
                ==> d[i].obj == ts[i].obj)
  {
    RelabelledAt(ts, id, gate, u, start, i);
    RelabelStep(ts, i, id, gate, u, start);
    var k := Relabelled(ts[..i], id, gate, u, start).cursor;
    RelabelKeeps(ts[i], id, gate, k, Advance(u, k));
  }

  /** A created level restarts its sample count at 1. */
  lemma RelabelledSample(ts: seq<Triple>, id: string, gate: Option<string>, u: Span, start: Instant)
    requires HasSample(ts) && IsDate(start)
    ensures var d := Relabelled(ts, id, gate, u, start).data;
            HasSample(d) && Sample(d) == Some(1)
  {
    var d := Relabelled(ts, id, gate, u, start).data;
    forall i | 0 <= i < |ts|
      ensures d[i].pred == ts[i].pred && (ts[i].pred == SampleSize ==> d[i].obj == IntLit(1))
    {
      RelabelledShape(ts, id, gate, u, start, i);
    }
    NextSample(ts, d, IntLit(1));
  }

  /** Every mean statement of the fragment sits in a named graph. */
  predicate MeansNamed(ts: seq<Triple>) {
    forall t :: t in ts && t.pred == Mean ==> InNamedGraph(t)
  }

  /**
   * When the means sit in named graphs, a created level keeps them about
   * the same subjects (the sensors), now in the graph of the new fragment.
   */
  lemma RelabelledMeans(ts: seq<Triple>, id: string, gate: Option<string>, u: Span, start: Instant)
    requires MeansNamed(ts) && id != "" && IsDate(start)
    ensures var d := Relabelled(ts, id, gate, u, start).data;
            && MeansNamed(d)
            && MeanSubjects(d) == MeanSubjects(ts)
            && forall i :: 0 <= i < |d| && d[i].pred == Mean ==> d[i].graph == Some(id) && d[i].obj == ts[i].obj
  {
    PredicatesDistinct();
    var d := Relabelled(ts, id, gate, u, start).data;
    forall i | 0 <= i < |d| && ts[i].pred == Mean
      ensures d[i].pred == Mean && d[i].subj == ts[i].subj && d[i].graph == Some(id) && d[i].obj == ts[i].obj
    {
      assert ts[i] in ts;
      RelabelledShape(ts, id, gate, u, start, i);
    }
    forall i | 0 <= i < |d|
      ensures d[i].pred == ts[i].pred
    {
      RelabelledShape(ts, id, gate, u, start, i);
    }
    forall t | t in d && t.pred == Mean
      ensures InNamedGraph(t) && t.subj in MeanSubjects(ts)
    {
      var i :| 0 <= i < |d| && d[i] == t;
      assert ts[i] in ts;
    }
    forall s | s in MeanSubjects(ts)
      ensures s in MeanSubjects(d)
    {
      var t :| t in ts && t.pred == Mean && t.subj == s;
      var i :| 0 <= i < |ts| && ts[i] == t;
      assert d[i] in d;
    }
  }

  /** A new hour fragment has its means in its own graph. */
  lemma HourMeansNamed(cfg: AvgConfig, obs: seq<Triple>, g: Instant)
    requires IsDate(g)
    requires forall t :: t in obs ==> t.pred != Mean
    ensures MeansNamed(HourFragment(cfg, obs, g))
  {
    PredicatesDistinct();
    var id := HourId(cfg, g);
    var r := Rewritten(obs, id);
    var start := StartOfHour(g);
    var d := Description(id, start, AddOneHour(start), DayId(cfg, g) + "/");
    assert |id| > 0 by {
      assert HourId(cfg, g) == Base(cfg) + YearSegment(g) + "/" + MonthSegment(g) + "/" + DaySegment(g) + "/" + HourSegment(g);
    }
    forall t | t in r && t.pred == Mean
      ensures InNamedGraph(t)
    {
      var i :| 0 <= i < |r| && r[i] == t;
      assert obs[i] in obs;
      RewrittenStatements(obs, id, i);
    }
    DescriptionHasNoMeans(id, start, AddOneHour(start), DayId(cfg, g) + "/");
    assert HourFragment(cfg, obs, g) == r + d;
  }

  // ------------------------------------------------ the year level's filter

  lemma {:induction false} RangeGatesKeepSamples(ts: seq<Triple>)
    ensures var c := Utils.ByPredicate(SampleSize);
            Utils.Filter(WithoutRangeGates(ts), c) == Utils.Filter(ts, c)
  {
    PredicatesDistinct();
    var c := Utils.ByPredicate(SampleSize);
    if ts != [] {
      RangeGatesKeepSamples(ts[1..]);
      var head := if ts[0].pred != HasRangeGate then [ts[0]] else [];
      Utils.FilterConcat(head, WithoutRangeGates(ts[1..]), c);
    }
  }

  /**
   * A year fragment holds no range gate statement, holds every other
   * statement of the relabelled month level, and keeps its sample count.
   */
  lemma YearFragmentShape(cfg: AvgConfig, mlevel: seq<Triple>, g: Instant)
    requires IsDate(g)
    ensures var y := YearFragment(cfg, mlevel, g);
            var m := YearRelabelled(cfg, mlevel, g);
            && (forall t :: t in y ==> t.pred != HasRangeGate)
            && (forall t :: t in m && t.pred != HasRangeGate ==> t in y)
            && (HasSample(mlevel) ==> HasSample(y) && Sample(y) == Some(1))
  {
    var m := YearRelabelled(cfg, mlevel, g);
    var y := YearFragment(cfg, mlevel, g);
    if HasSample(mlevel) {
      RelabelledSample(mlevel, YearId(cfg, g), None, Years, StartOfYear(g));
      RangeGatesKeepSamples(m);
      SampleStatementsFilter(m);
      SampleStatementsFilter(y);
    }
  }
}
