/**
 * The statistical-average levels: integer running means over the parking
 * vacancy readings, and the rewrites that create an hour, day, month or year
 * fragment and fold a new reading into a stored one. Numbers read from
 * literals are `Option<int>`, None standing for JavaScript's NaN.
 */
module Aggregate {
  import opened Wrappers
  import opened Calendar
  import opened Rdf
  import Utils

  // ================================================================ means

  /** `parseInt(getLiteralValue(o))`: the integer an object reads as, None for NaN. */
  function ParseInt(o: Term): Option<int> {
    if o.IntLit? then Some(o.n) else None
  }

  /** `Math.floor(x / d)` for a nonzero divisor of either sign. */
  function FloorDiv(x: int, d: int): (q: int)
    requires d != 0
    ensures d > 0 ==> q * d <= x < (q + 1) * d
  {
    if d > 0 then x / d else (-x) / (-d)
  }

  function Max(a: int, b: int): int {
    if a >= b then a else b
  }

  lemma MulMonotone(a: int, b: int, d: int)
    requires d >= 0 && a <= b
    ensures a * d <= b * d
  {
    assert (b - a) * d >= 0;
  }

  lemma DivBetween(x: int, d: int, lo: int, hi: int)
    requires d > 0 && lo * d <= x <= hi * d
    ensures lo <= x / d <= hi
  {
    var q := x / d;
    assert q * d <= x < (q + 1) * d;
    if q + 1 <= lo {
      MulMonotone(q + 1, lo, d);
      assert false;
    }
    if hi + 1 <= q {
      MulMonotone(hi + 1, q, d);
      assert false;
    }
  }

  /** With a nonnegative sample, the floor mean stays between the two values it averages. */
  lemma MeanWithin(n: int, aggregate: int, sample: int)
    ensures sample >= 0 ==>
              Min(aggregate, n) <= FloorDiv(aggregate * sample + n, sample + 1) <= Max(aggregate, n)
  {
    if sample >= 0 {
      var lo, hi := Min(aggregate, n), Max(aggregate, n);
      assert lo * sample <= aggregate * sample <= hi * sample;
      DivBetween(aggregate * sample + n, sample + 1, lo, hi);
    }
  }

  /**
   * `calculateMean(n, aggregate, sample)`: the floor of the mean of `sample`
   * copies of `aggregate` and one `n`. With a nonnegative sample the result
   * lies between the old mean and the new value.
   */
  function CalculateMean(n: int, aggregate: int, sample: int): (r: int)
    requires sample != -1
    ensures sample + 1 > 0 ==> r * (sample + 1) <= aggregate * sample + n < (r + 1) * (sample + 1)
    ensures sample >= 0 ==> Min(aggregate, n) <= r <= Max(aggregate, n)
  {
    MeanWithin(n, aggregate, sample);
    FloorDiv(aggregate * sample + n, sample + 1)
  }

  /**
   * The literal `'"' + calculateMean(...) + '"'` writes: NaN when a number is
   * missing, and the infinities (or NaN for 0/0) when the divisor is zero.
   */
  function MeanTerm(n: Option<int>, aggregate: Option<int>, sample: Option<int>): (t: Term)
    ensures t.IntLit? <==> n.Some? && aggregate.Some? && sample.Some? && sample.value != -1
    ensures t.IntLit? && sample.value >= 0 ==> Min(aggregate.value, n.value) <= t.n <= Max(aggregate.value, n.value)
  {
    if n.None? || aggregate.None? || sample.None? then Lit("NaN")
    else if sample.value == -1 then
      var x := n.value - aggregate.value;
      if x > 0 then Lit("Infinity") else if x < 0 then Lit("-Infinity") else Lit("NaN")
    else IntLit(CalculateMean(n.value, aggregate.value, sample.value))
  }

  /**
   * The mean a fragment holds after its k+1 readings: the first reading on
   * creation (sample size 1), then one `calculateMean` per update with the
   * sample size counting the readings folded in so far.
   */
  function RunningMean(xs: seq<int>): int
    requires |xs| > 0
  {
    if |xs| == 1 then xs[0]
    else CalculateMean(xs[|xs| - 1], RunningMean(xs[..|xs| - 1]), |xs| - 1)
  }

  /** The running mean of readings that all lie in [lo, hi] lies in [lo, hi]. */
  lemma {:induction false} RunningMeanBounds(xs: seq<int>, lo: int, hi: int)
    requires |xs| > 0
    requires forall i :: 0 <= i < |xs| ==> lo <= xs[i] <= hi
    ensures lo <= RunningMean(xs) <= hi
  {
    if |xs| > 1 {
      var init := xs[..|xs| - 1];
      assert forall i :: 0 <= i < |init| ==> init[i] == xs[i];
      RunningMeanBounds(init, lo, hi);
    }
  }

  /** Readings 10, 20, 30 give the means 10, 15 and 20. */
  lemma RunningMeanExample()
    ensures RunningMean([10]) == 10
    ensures RunningMean([10, 20]) == 15
    ensures RunningMean([10, 20, 30]) == 20
  {
    assert [10, 20][..1] == [10];
    assert [10, 20, 30][..2] == [10, 20];
  }

  // ======================================================== identifiers

  /** What the aggregate interface is configured with; `staticTriples` is the parsed static file. */
  datatype AvgConfig = AvgConfig(serverUrl: string, name: string, fragmentsPath: string, staticTriples: seq<Triple>)

  /** Subject (or graph) to latest value: the `Map` the levels hand upwards. */
  type Values = map<string, Option<int>>

  /** `values.get(s)` read by `parseInt`: a missing key is NaN as well. */
  function Lookup(values: Values, s: string): Option<int> {
    if s in values then values[s] else None
  }

  /** A fragment's statements, and the value map the next level up is fed. */
  datatype Level = Level(data: seq<Triple>, values: Values)

  function Base(cfg: AvgConfig): string {
    cfg.serverUrl + cfg.name + "/fragment/"
  }

  /** The path segments `A_B` naming a bucket and the next one. */
  function YearSegment(g: Instant): string {
    (if g.year >= 0 then NatToString(g.year) else "-" + NatToString(-g.year))
    + "_" + (if g.year + 1 >= 0 then NatToString(g.year + 1) else "-" + NatToString(-(g.year + 1)))
  }

  function MonthSegment(g: Instant): string
    requires IsDate(g)
  {
    Digits2(g.month) + "_" + Digits2(AddOneMonth(g).month)
  }

  function DaySegment(g: Instant): string
    requires IsDate(g)
  {
    Digits2(g.day) + "_" + Digits2(AddOneDay(g).day)
  }

  function HourSegment(g: Instant): string
    requires IsDate(g)
  {
    Digits2(g.hour) + "_" + Digits2(AddOneHour(g).hour)
  }

  /** The fragment identifiers of the four buckets of `g`; each level's range gate is its id plus '/'. */
  function YearId(cfg: AvgConfig, g: Instant): string {
    Base(cfg) + YearSegment(g)
  }

  function MonthId(cfg: AvgConfig, g: Instant): string
    requires IsDate(g)
  {
    YearId(cfg, g) + "/" + MonthSegment(g)
  }

  function DayId(cfg: AvgConfig, g: Instant): string
    requires IsDate(g)
  {
    MonthId(cfg, g) + "/" + DaySegment(g)
  }

  function HourId(cfg: AvgConfig, g: Instant): string
    requires IsDate(g)
  {
    DayId(cfg, g) + "/" + HourSegment(g)
  }

  // ============================================================ readings

  /** `getPVFromRawData`: each vacancy reading's subject to its value, the last reading winning. */
  function ReadingValues(ts: seq<Triple>): Values {
    if ts == [] then map[]
    else
      var prev := ReadingValues(ts[..|ts| - 1]);
      var t := ts[|ts| - 1];
      if t.pred == VacantSpaces then prev[t.subj := ParseInt(t.obj)] else prev
  }

  /** Whether statement i is the last vacancy reading about its subject. */
  predicate LastReading(ts: seq<Triple>, i: int)
    requires 0 <= i < |ts|
  {
    ts[i].pred == VacantSpaces
    && forall j :: i < j < |ts| && ts[j].pred == VacantSpaces ==> ts[j].subj != ts[i].subj
  }

  /** Some statement of `ts` reads a value for `s`. */
  predicate IsRead(ts: seq<Triple>, s: string) {
    exists i :: 0 <= i < |ts| && ts[i].pred == VacantSpaces && ts[i].subj == s
  }

  /** The value map holds exactly the subjects that were read. */
  lemma {:induction false} ReadingValuesKeys(ts: seq<Triple>)
    ensures forall s :: s in ReadingValues(ts) <==> IsRead(ts, s)
  {
    if ts != [] {
      var init, t := ts[..|ts| - 1], ts[|ts| - 1];
      ReadingValuesKeys(init);
      forall s
        ensures s in ReadingValues(ts) <==> IsRead(ts, s)
      {
        if IsRead(init, s) {
          var i :| 0 <= i < |init| && init[i].pred == VacantSpaces && init[i].subj == s;
          assert ts[i] == init[i];
        }
        if IsRead(ts, s) && !(t.pred == VacantSpaces && t.subj == s) {
          var i :| 0 <= i < |ts| && ts[i].pred == VacantSpaces && ts[i].subj == s;
          assert i < |init| && init[i] == ts[i];
        }
      }
    }
  }

  /** Each read subject is mapped to its last reading. */
  lemma {:induction false} ReadingValuesLast(ts: seq<Triple>, i: nat)
    requires i < |ts| && LastReading(ts, i)
    ensures ts[i].subj in ReadingValues(ts) && ReadingValues(ts)[ts[i].subj] == ParseInt(ts[i].obj)
  {
    var init, t := ts[..|ts| - 1], ts[|ts| - 1];
    if i < |ts| - 1 {
      assert LastReading(init, i) by {
        forall j | i < j < |init| && init[j].pred == VacantSpaces
          ensures init[j].subj != init[i].subj
        {
          assert init[j] == ts[j];
        }
      }
      ReadingValuesLast(init, i);
      assert t.pred == VacantSpaces ==> t.subj != ts[i].subj;
    }
  }

  /** `getPVFromRawData`, the loop filling a `Map`. */
  method GetPVFromRawData(triples: seq<Triple>) returns (res: Values)
    ensures res == ReadingValues(triples)
  {
    res := map[];
    for i := 0 to |triples|
      invariant res == ReadingValues(triples[..i])
    {
      assert triples[..i + 1][..i] == triples[..i];
      if triples[i].pred == VacantSpaces {
        res := res[triples[i].subj := ParseInt(triples[i].obj)];
      }
    }
    assert triples[..|triples|] == triples;
  }

  // =================================================== creating an hour

  /** The in-place rewrite of one observation statement into the hour fragment. */
  function HourStatement(t: Triple, id: string): Triple {
    if t.pred == VacantSpaces then t.(graph := Some(id), pred := Mean)
    else if t.pred == GeneratedAtTime then t.(subj := id)
    else t
  }

  /** The five statements describing a new hour fragment, in the default graph. */
  function Description(id: string, initial: Instant, final: Instant, gate: string): (d: seq<Triple>)
    ensures |d| == 5
  {
    [ Triple(id, RdfType, Iri(RangeFragment), None),
      Triple(id, Initial, TimeLit(initial), None),
      Triple(id, Final, TimeLit(final), None),
      Triple(id, HasRangeGate, Iri(gate), None),
      Triple(id, SampleSize, IntLit(1), None) ]
  }

  function HourDescription(cfg: AvgConfig, g: Instant): seq<Triple>
    requires IsDate(g)
  {
    var start := StartOfHour(g);
    Description(HourId(cfg, g), start, AddOneHour(start), DayId(cfg, g) + "/")
  }

  lemma DescriptionHasNoMeans(id: string, initial: Instant, final: Instant, gate: string)
    ensures MeanSubjects(Description(id, initial, final, gate)) == {}
  {
    PredicatesDistinct();
    var d := Description(id, initial, final, gate);
    assert forall t :: t in d ==> t.pred != Mean;
  }

  /** The observation's statements, each rewritten for the hour fragment `id`. */
  function Rewritten(obs: seq<Triple>, id: string): (r: seq<Triple>)
    ensures |r| == |obs|
  {
    seq(|obs|, i requires 0 <= i < |obs| => HourStatement(obs[i], id))
  }

  /** `createHourFragment`: the rewritten observation followed by its description. */
  function HourFragment(cfg: AvgConfig, obs: seq<Triple>, g: Instant): seq<Triple>
    requires IsDate(g)
  {
    Rewritten(obs, HourId(cfg, g)) + HourDescription(cfg, g)
  }

  /** The loop of `createHourFragment`: rewrite the parsed statements in place and collect the readings. */
  method RewriteObservation(obs: seq<Triple>, id: string) returns (quads: seq<Triple>, values: Values)
    ensures quads == Rewritten(obs, id)
    ensures values == ReadingValues(obs)
  {
    PredicatesDistinct();
    var a := new Triple[|obs|](i requires 0 <= i < |obs| => obs[i]);
    values := map[];
    for i := 0 to |obs|
      invariant forall j :: 0 <= j < i ==> a[j] == HourStatement(obs[j], id)
      invariant forall j :: i <= j < |obs| ==> a[j] == obs[j]
      invariant values == ReadingValues(obs[..i])
    {
      assert obs[..i + 1][..i] == obs[..i];
      ghost var before := a[i];
      if a[i].pred == VacantSpaces {
        a[i] := a[i].(graph := Some(id), pred := Mean);
        values := values[a[i].subj := ParseInt(a[i].obj)];
      }
      if a[i].pred == GeneratedAtTime {
        a[i] := a[i].(subj := id);
      }
      assert a[i] == HourStatement(before, id);
    }
    assert obs[..|obs|] == obs;
    quads := a[..];
  }

  /** `createHourFragment`. */
  method CreateHourFragment(cfg: AvgConfig, obs: seq<Triple>, g: Instant) returns (data: seq<Triple>, values: Values)
    requires IsDate(g)
    ensures data == HourFragment(cfg, obs, g)
    ensures values == ReadingValues(obs)
  {
    var quads;
    quads, values := RewriteObservation(obs, HourId(cfg, g));
    data := quads + HourDescription(cfg, g);
  }

  /** Subjects of the mean statements of a fragment. */
  function MeanSubjects(ts: seq<Triple>): set<string> {
    set t | t in ts && t.pred == Mean :: t.subj
  }

  /**
   * Rewriting turns the vacancy readings into mean statements in the
   * fragment's graph, keeping subject and value, makes the generated-at
   * statement about the fragment and leaves every other statement alone.
   */
  lemma RewrittenStatements(obs: seq<Triple>, id: string, i: nat)
    requires i < |obs|
    ensures var r := Rewritten(obs, id);
            && (obs[i].pred == VacantSpaces ==>
                  r[i].pred == Mean && r[i].graph == Some(id) && r[i].subj == obs[i].subj && r[i].obj == obs[i].obj)
            && (obs[i].pred == GeneratedAtTime ==> r[i] == obs[i].(subj := id))
            && (obs[i].pred != VacantSpaces && obs[i].pred != GeneratedAtTime ==> r[i] == obs[i])
  {
    PredicatesDistinct();
  }

  /** The mean statements of the rewritten observation are about exactly the subjects read. */
  lemma RewrittenMeans(obs: seq<Triple>, id: string)
    requires forall t :: t in obs ==> t.pred != Mean
    ensures MeanSubjects(Rewritten(obs, id)) == ReadingValues(obs).Keys
  {
    PredicatesDistinct();
    var r := Rewritten(obs, id);
    ReadingValuesKeys(obs);
    forall s | s in MeanSubjects(r)
      ensures s in ReadingValues(obs)
    {
      var t :| t in r && t.pred == Mean && t.subj == s;
      var i :| 0 <= i < |r| && r[i] == t;
      assert obs[i] in obs;
    }
    forall s | s in ReadingValues(obs)
      ensures s in MeanSubjects(r)
    {
      var i :| 0 <= i < |obs| && obs[i].pred == VacantSpaces && obs[i].subj == s;
      assert r[i] in r;
    }
  }

  lemma MeanSubjectsConcat(a: seq<Triple>, b: seq<Triple>)
    ensures MeanSubjects(a + b) == MeanSubjects(a) + MeanSubjects(b)
  {
    assert forall t :: t in a + b <==> t in a || t in b;
  }

  /**
   * A new hour fragment is the rewritten observation and five statements
   * more, the last one setting the sample size to 1; its mean subjects are
   * exactly the subjects of the value map it hands upwards.
   */
  lemma HourFragmentShape(cfg: AvgConfig, obs: seq<Triple>, g: Instant)
    requires IsDate(g)
    requires forall t :: t in obs ==> t.pred != Mean
    ensures var data := HourFragment(cfg, obs, g);
            && |data| == |obs| + 5
            && data[..|obs|] == Rewritten(obs, HourId(cfg, g))
            && data[|obs| + 4] == Triple(HourId(cfg, g), SampleSize, IntLit(1), None)
            && MeanSubjects(data) == ReadingValues(obs).Keys
  {
    var r := Rewritten(obs, HourId(cfg, g));
    var start := StartOfHour(g);
    var d := HourDescription(cfg, g);
    RewrittenMeans(obs, HourId(cfg, g));
    DescriptionHasNoMeans(HourId(cfg, g), start, AddOneHour(start), DayId(cfg, g) + "/");
    MeanSubjectsConcat(r, d);
    assert (r + d)[..|obs|] == r;
  }

  // ================================================= updating a fragment

  /** `getTriplesBySPOG(old, null, sampleSize)`. */
  function SampleStatements(ts: seq<Triple>): seq<Triple> {
    Utils.GetTriplesBySPOG(ts, None, Some(SampleSize), None, None)
  }

  /** The stored fragment has a sample size statement (otherwise reading its object throws). */
  predicate HasSample(ts: seq<Triple>) {
    |SampleStatements(ts)| > 0
  }

  /** The sample size an update reads: the first sampleSize statement's value. */
  function Sample(ts: seq<Triple>): Option<int>
    requires HasSample(ts)
  {
    ParseInt(SampleStatements(ts)[0].obj)
  }

  /** The literal `'"' + (sampleValue + 1) + '"'`. */
  function Succ(sample: Option<int>): Term {
    if sample.Some? then IntLit(sample.value + 1) else Lit("NaN")
  }

  /**
   * The rewrite of one stored statement by an update: a mean folds in the
   * new value `n`, the generated-at time becomes `gat`, the sample size
   * grows by one; the predicates are distinct, so at most one case applies.
   */
  function Rewrite(t: Triple, n: Option<int>, sample: Option<int>, gat: Instant): Triple {
    if t.pred == Mean then t.(obj := MeanTerm(n, ParseInt(t.obj), sample))
    else if t.pred == GeneratedAtTime then t.(obj := TimeLit(gat))
    else if t.pred == SampleSize then t.(obj := Succ(sample))
    else t
  }

  /**
   * `updateHourFragment` after its loop has reached the end of `ts`: new
   * values are looked up in the fixed map of the observation, and the
   * returned map is a new one holding the new means.
   */
  function UpdateHour(newValues: Values, ts: seq<Triple>, sample: Option<int>, gat: Instant): (r: Level)
    ensures |r.data| == |ts|
  {
    if ts == [] then Level([], map[])
    else
      var prev := UpdateHour(newValues, ts[..|ts| - 1], sample, gat);
      var t := ts[|ts| - 1];
      var t' := Rewrite(t, Lookup(newValues, t.subj), sample, gat);
      Level(prev.data + [t'], if t.pred == Mean then prev.values[t.subj := ParseInt(t'.obj)] else prev.values)
  }

  /**
   * `updateFragment` after its loop has reached the end of `ts`: the incoming
   * map is updated as the loop goes, so a later mean statement about the
   * same subject reads the value an earlier one wrote.
   */
  function Update(newValues: Values, ts: seq<Triple>, sample: Option<int>, gat: Instant): (r: Level)
    ensures |r.data| == |ts|
  {
    if ts == [] then Level([], newValues)
    else
      var prev := Update(newValues, ts[..|ts| - 1], sample, gat);
      var t := ts[|ts| - 1];
      var t' := Rewrite(t, Lookup(prev.values, t.subj), sample, gat);
      Level(prev.data + [t'], if t.pred == Mean then prev.values[t.subj := ParseInt(t'.obj)] else prev.values)
  }

  /** `updateHourFragment`: rewrites the stored statements in place. */
  method UpdateHourFragment(newer: seq<Triple>, stored: array<Triple>, gat: Instant) returns (values: Values)
    requires HasSample(stored[..])
    modifies stored
    ensures var r := UpdateHour(ReadingValues(newer), old(stored[..]), Sample(old(stored[..])), gat);
            stored[..] == r.data && values == r.values
  {
    var newValues := GetPVFromRawData(newer);
    var sampleValue := Sample(stored[..]);
    ghost var orig := stored[..];
    values := map[];
    for i := 0 to stored.Length
      invariant Level(stored[..i], values) == UpdateHour(newValues, orig[..i], sampleValue, gat)
      invariant forall j :: i <= j < stored.Length ==> stored[j] == orig[j]
    {
      UpdateHourStep(newValues, orig, i, sampleValue, gat);
      var t := RewriteStatement(stored[i], Lookup(newValues, stored[i].subj), sampleValue, gat);
      if t.pred == Mean {
        values := values[t.subj := ParseInt(t.obj)];
      }
      stored[i] := t;
      assert stored[..i + 1] == stored[..i] + [stored[i]];
    }
    assert stored.Length == |orig|;
    assert orig[..stored.Length] == orig;
  }

  /** `updateFragment`: rewrites the stored statements in place and updates the passed-in map. */
  method UpdateFragment(newValues: Values, stored: array<Triple>, gat: Instant) returns (values: Values)
    requires HasSample(stored[..])
    modifies stored
    ensures var r := Update(newValues, old(stored[..]), Sample(old(stored[..])), gat);
            stored[..] == r.data && values == r.values
  {
    var sampleValue := Sample(stored[..]);
    ghost var orig := stored[..];
    values := newValues;
    for i := 0 to stored.Length
      invariant Level(stored[..i], values) == Update(newValues, orig[..i], sampleValue, gat)
      invariant forall j :: i <= j < stored.Length ==> stored[j] == orig[j]
    {
      UpdateStep(newValues, orig, i, sampleValue, gat);
      var t := RewriteStatement(stored[i], Lookup(values, stored[i].subj), sampleValue, gat);
      if t.pred == Mean {
        values := values[t.subj := ParseInt(t.obj)];
      }
      stored[i] := t;
      assert stored[..i + 1] == stored[..i] + [stored[i]];
    }
    assert stored.Length == |orig|;
    assert orig[..stored.Length] == orig;
  }

  /** One more stored statement is one more step of `UpdateHour`. */
  lemma UpdateHourStep(newValues: Values, ts: seq<Triple>, i: nat, sample: Option<int>, gat: Instant)
    requires i < |ts|
    ensures var prev := UpdateHour(newValues, ts[..i], sample, gat);
            var t' := Rewrite(ts[i], Lookup(newValues, ts[i].subj), sample, gat);
            UpdateHour(newValues, ts[..i + 1], sample, gat)
            == Level(prev.data + [t'], if ts[i].pred == Mean then prev.values[ts[i].subj := ParseInt(t'.obj)] else prev.values)
  {
    assert ts[..i + 1][..i] == ts[..i];
  }

  /** One more stored statement is one more step of `Update`. */
  lemma UpdateStep(newValues: Values, ts: seq<Triple>, i: nat, sample: Option<int>, gat: Instant)
    requires i < |ts|
    ensures var prev := Update(newValues, ts[..i], sample, gat);
            var t' := Rewrite(ts[i], Lookup(prev.values, ts[i].subj), sample, gat);
            Update(newValues, ts[..i + 1], sample, gat)
            == Level(prev.data + [t'], if ts[i].pred == Mean then prev.values[ts[i].subj := ParseInt(t'.obj)] else prev.values)
  {
    assert ts[..i + 1][..i] == ts[..i];
  }

  /**
   * The body of the update loops on one statement: three `if`s in a row; the
   * predicates are distinct, so together they perform `Rewrite`.
   */
  method RewriteStatement(t: Triple, n: Option<int>, sample: Option<int>, gat: Instant) returns (r: Triple)
    ensures r == Rewrite(t, n, sample, gat)
    ensures r.subj == t.subj && r.pred == t.pred && r.graph == t.graph
  {
    PredicatesDistinct();
    r := t;
    if r.pred == Mean {
      r := r.(obj := MeanTerm(n, ParseInt(r.obj), sample));
    }
    if r.pred == GeneratedAtTime {
      r := r.(obj := TimeLit(gat));
    }
    if r.pred == SampleSize {
      r := r.(obj := Succ(sample));
    }
  }

  // ------------------------------------------------ properties of updates

  /**
   * An update keeps every statement's subject, predicate and graph, rewrites
   * only mean, generated-at and sample size objects, and leaves every other
   * statement exactly as it was.
   */
  lemma RewriteKeeps(t: Triple, n: Option<int>, sample: Option<int>, gat: Instant)
    ensures var r := Rewrite(t, n, sample, gat);
            && r.subj == t.subj && r.pred == t.pred && r.graph == t.graph
            && (t.pred == Mean ==> r.obj == MeanTerm(n, ParseInt(t.obj), sample))
            && (t.pred == GeneratedAtTime ==> r.obj == TimeLit(gat))
            && (t.pred == SampleSize ==> r.obj == Succ(sample))
            && (t.pred != Mean && t.pred != GeneratedAtTime && t.pred != SampleSize ==> r == t)
  {
    PredicatesDistinct();
  }

  /** `updateHourFragment` rewrites statement i with the observation's value for its subject. */
  lemma {:induction false} UpdateHourAt(newValues: Values, ts: seq<Triple>, sample: Option<int>, gat: Instant, i: nat)
    requires i < |ts|
    ensures UpdateHour(newValues, ts, sample, gat).data[i] == Rewrite(ts[i], Lookup(newValues, ts[i].subj), sample, gat)
  {
    var init := ts[..|ts| - 1];
    if i < |init| {
      UpdateHourAt(newValues, init, sample, gat, i);
      assert init[i] == ts[i];
    }
  }

  /** `updateFragment` rewrites statement i with the map as the statements before it left it. */
  lemma {:induction false} UpdateAt(newValues: Values, ts: seq<Triple>, sample: Option<int>, gat: Instant, i: nat)
    requires i < |ts|
    ensures Update(newValues, ts, sample, gat).data[i]
            == Rewrite(ts[i], Lookup(Update(newValues, ts[..i], sample, gat).values, ts[i].subj), sample, gat)
  {
    var init := ts[..|ts| - 1];
    if i < |init| {
      UpdateAt(newValues, init, sample, gat, i);
      assert init[i] == ts[i] && init[..i] == ts[..i];
    } else {
      assert ts[..i] == init;
    }
  }

  lemma MeanSubjectsSnoc(ts: seq<Triple>, t: Triple)
    ensures MeanSubjects(ts + [t]) == MeanSubjects(ts) + (if t.pred == Mean then {t.subj} else {})
  {
    MeanSubjectsConcat(ts, [t]);
    assert MeanSubjects([t]) == (if t.pred == Mean then {t.subj} else {}) by {
      assert forall u :: u in [t] <==> u == t;
    }
  }

  /**
   * `updateFragment` returns the incoming map with the mean subjects added:
   * every other entry is kept as it was.
   */
  lemma {:induction false} UpdateKeepsOthers(newValues: Values, ts: seq<Triple>, sample: Option<int>, gat: Instant)
    ensures var r := Update(newValues, ts, sample, gat);
            && r.values.Keys == newValues.Keys + MeanSubjects(ts)
            && forall s :: s in newValues && s !in MeanSubjects(ts) ==> r.values[s] == newValues[s]
  {
    if ts != [] {
      var init, t := ts[..|ts| - 1], ts[|ts| - 1];
      UpdateKeepsOthers(newValues, init, sample, gat);
      assert ts == init + [t];
      MeanSubjectsSnoc(init, t);
    }
  }

  /** `updateHourFragment` returns a map over exactly the mean subjects of the fragment. */
  lemma {:induction false} UpdateHourKeys(newValues: Values, ts: seq<Triple>, sample: Option<int>, gat: Instant)
    ensures UpdateHour(newValues, ts, sample, gat).values.Keys == MeanSubjects(ts)
  {
    if ts == [] {
      assert MeanSubjects(ts) == {};
    } else {
      var init, t := ts[..|ts| - 1], ts[|ts| - 1];
      UpdateHourKeys(newValues, init, sample, gat);
      assert ts == init + [t];
      MeanSubjectsSnoc(init, t);
    }
  }

  /**
   * `updateHourFragment` returns, for the subject of a mean statement that
   * no later mean statement is about, the mean just written there.
   */
  lemma {:induction false} UpdateHourMeanValue(newValues: Values, ts: seq<Triple>, sample: Option<int>, gat: Instant, i: nat)
    requires i < |ts| && ts[i].pred == Mean
    requires forall j :: i < j < |ts| && ts[j].pred == Mean ==> ts[j].subj != ts[i].subj
    ensures var r := UpdateHour(newValues, ts, sample, gat);
            ts[i].subj in r.values && r.values[ts[i].subj] == ParseInt(r.data[i].obj)
  {
    var init := ts[..|ts| - 1];
    if i < |init| {
      assert init[i] == ts[i];
      assert forall j :: i < j < |init| ==> init[j] == ts[j];
      UpdateHourMeanValue(newValues, init, sample, gat, i);
    }
  }

  /**
   * `updateFragment` returns, for the subject of a mean statement that no
   * later mean statement is about, the mean just written there.
   */
  lemma {:induction false} UpdateMeanValue(newValues: Values, ts: seq<Triple>, sample: Option<int>, gat: Instant, i: nat)
    requires i < |ts| && ts[i].pred == Mean
    requires forall j :: i < j < |ts| && ts[j].pred == Mean ==> ts[j].subj != ts[i].subj
    ensures var r := Update(newValues, ts, sample, gat);
            ts[i].subj in r.values && r.values[ts[i].subj] == ParseInt(r.data[i].obj)
  {
    var init := ts[..|ts| - 1];
    if i < |init| {
      assert init[i] == ts[i];
      assert forall j :: i < j < |init| ==> init[j] == ts[j];
      UpdateMeanValue(newValues, init, sample, gat, i);
    }
  }

  /**
   * For a mean statement whose subject has no earlier mean statement (the
   * case of a fragment with one mean per subject), `updateFragment` folds in
   * the incoming map's value, as `updateHourFragment` does.
   */
  lemma FirstMeanReadsIncoming(newValues: Values, ts: seq<Triple>, sample: Option<int>, gat: Instant, i: nat)
    requires i < |ts| && ts[i].pred == Mean && ts[i].subj !in MeanSubjects(ts[..i])
    ensures Update(newValues, ts, sample, gat).data[i].obj
            == MeanTerm(Lookup(newValues, ts[i].subj), ParseInt(ts[i].obj), sample)
  {
    UpdateAt(newValues, ts, sample, gat, i);
    UpdateKeepsOthers(newValues, ts[..i], sample, gat);
    RewriteKeeps(ts[i], Lookup(Update(newValues, ts[..i], sample, gat).values, ts[i].subj), sample, gat);
  }

  // ------------------------------------------------ sample sizes

  /** The sampleSize statements are the filter of the fragment by that predicate. */
  lemma SampleStatementsFilter(ts: seq<Triple>)
    ensures SampleStatements(ts) == Utils.Filter(ts, Utils.ByPredicate(SampleSize))
  {
  }

  /** What an update's sample size statement reads back as: one more, or NaN. */
  function Incremented(sample: Option<int>): Option<int> {
    if sample.Some? then Some(sample.value + 1) else None
  }

  /**
   * A fragment whose statements have the predicates of `ts`, position by
   * position, and whose sampleSize statements all hold `obj`.
   */
  predicate SamplesRewritten(ts: seq<Triple>, ds: seq<Triple>, obj: Term) {
    && |ds| == |ts|
    && forall i :: 0 <= i < |ts| ==> ds[i].pred == ts[i].pred && (ts[i].pred == SampleSize ==> ds[i].obj == obj)
  }

  /** The first sample size statement of `ds` is where that of `ts` is, and holds `obj`. */
  lemma NextSample(ts: seq<Triple>, ds: seq<Triple>, obj: Term)
    requires HasSample(ts) && SamplesRewritten(ts, ds, obj)
    ensures HasSample(ds) && Sample(ds) == ParseInt(obj)
  {
    var c := Utils.ByPredicate(SampleSize);
    SampleStatementsFilter(ts);
    SampleStatementsFilter(ds);
    Utils.FilterFirstMatch(ts, c);
    Utils.FirstMatchSpec(ts, c);
    var k := Utils.FirstMatch(ts, c);
    forall j | 0 <= j < k
      ensures !Utils.Satisfies(ds[j], c)
    {
      assert ds[j].pred == ts[j].pred;
    }
    assert k < |ds| && ds[k].pred == SampleSize && ds[k].obj == obj;
    Utils.FirstMatchIs(ds, c, k);
    Utils.FilterFirstMatch(ds, c);
  }

  /** `updateHourFragment` writes the incremented sample size back into the fragment. */
  lemma UpdateHourCountsSample(newValues: Values, ts: seq<Triple>, gat: Instant)
    requires HasSample(ts)
    ensures var r := UpdateHour(newValues, ts, Sample(ts), gat);
            HasSample(r.data) && Sample(r.data) == Incremented(Sample(ts))
  {
    var sample := Sample(ts);
    var r := UpdateHour(newValues, ts, sample, gat);
    forall i | 0 <= i < |ts|
      ensures r.data[i].pred == ts[i].pred && (ts[i].pred == SampleSize ==> r.data[i].obj == Succ(sample))
    {
      UpdateHourAt(newValues, ts, sample, gat, i);
      RewriteKeeps(ts[i], Lookup(newValues, ts[i].subj), sample, gat);
    }
    NextSample(ts, r.data, Succ(sample));
  }

  /** `updateFragment` writes the incremented sample size back into the fragment. */
  lemma UpdateCountsSample(newValues: Values, ts: seq<Triple>, gat: Instant)
    requires HasSample(ts)
    ensures var r := Update(newValues, ts, Sample(ts), gat);
            HasSample(r.data) && Sample(r.data) == Incremented(Sample(ts))
  {
    var sample := Sample(ts);
    var r := Update(newValues, ts, sample, gat);
    forall i | 0 <= i < |ts|
      ensures r.data[i].pred == ts[i].pred && (ts[i].pred == SampleSize ==> r.data[i].obj == Succ(sample))
    {
      UpdateAt(newValues, ts, sample, gat, i);
      RewriteKeeps(ts[i], Lookup(Update(newValues, ts[..i], sample, gat).values, ts[i].subj), sample, gat);
    }
    NextSample(ts, r.data, Succ(sample));
  }

  /** A description placed after statements with no sample size counts one sample. */
  lemma DescriptionSample(prefix: seq<Triple>, id: string, initial: Instant, final: Instant, gate: string)
    requires forall t :: t in prefix ==> t.pred != SampleSize
    ensures HasSample(prefix + Description(id, initial, final, gate))
    ensures Sample(prefix + Description(id, initial, final, gate)) == Some(1)
  {
    PredicatesDistinct();
    var c := Utils.ByPredicate(SampleSize);
    var d := Description(id, initial, final, gate);
    var ts := prefix + d;
    forall j | 0 <= j < |prefix| + 4
      ensures !Utils.Satisfies(ts[j], c)
    {
      if j < |prefix| {
        assert ts[j] == prefix[j];
        assert prefix[j] in prefix;
      } else {
        assert ts[j] == d[j - |prefix|];
      }
    }
    assert ts[|prefix| + 4] == d[4];
    Utils.FirstMatchIs(ts, c, |prefix| + 4);
    SampleStatementsFilter(ts);
    Utils.FilterFirstMatch(ts, c);
  }

  /** A new hour fragment starts with sample size 1 (its observation carries none). */
  lemma HourStartsAtOneSample(cfg: AvgConfig, obs: seq<Triple>, g: Instant)
    requires IsDate(g)
    requires forall t :: t in obs ==> t.pred != SampleSize
    ensures HasSample(HourFragment(cfg, obs, g)) && Sample(HourFragment(cfg, obs, g)) == Some(1)
  {
    PredicatesDistinct();
    var id := HourId(cfg, g);
    var r := Rewritten(obs, id);
    forall t | t in r
      ensures t.pred != SampleSize
    {
      var i :| 0 <= i < |r| && r[i] == t;
      assert obs[i] in obs;
    }
    var start := StartOfHour(g);
    DescriptionSample(r, id, start, AddOneHour(start), DayId(cfg, g) + "/");
  }

  // ------------------------------------------------ the running mean of a fragment

  /**
   * A new hour fragment holds, for a reading x, the mean statement
   * `RunningMean([x])` and sample size 1.
   */
  lemma HourFragmentHoldsFirstReading(cfg: AvgConfig, obs: seq<Triple>, g: Instant, i: nat, x: int)
    requires IsDate(g)
    requires forall t :: t in obs ==> t.pred != SampleSize
    requires i < |obs| && obs[i].pred == VacantSpaces && obs[i].obj == IntLit(x)
    ensures var data := HourFragment(cfg, obs, g);
            && i < |data| && data[i].pred == Mean && data[i].subj == obs[i].subj
            && data[i].obj == IntLit(RunningMean([x]))
            && HasSample(data) && Sample(data) == Some(|[x]|)
  {
    RewrittenStatements(obs, HourId(cfg, g), i);
    HourStartsAtOneSample(cfg, obs, g);
  }

  /**
   * An hour update of a fragment that holds `RunningMean(xs)` for a subject
   * and counts |xs| samples, with the new reading x for that subject, holds
   * `RunningMean(xs + [x])` and counts |xs| + 1: by induction with
   * `HourFragmentHoldsFirstReading`, a fragment created and then updated
   * with the readings xs holds their running mean and counts |xs|.
   */
  lemma UpdateHourFoldsReading(newValues: Values, ts: seq<Triple>, gat: Instant, i: nat, xs: seq<int>, x: int)
    requires HasSample(ts) && |xs| > 0 && Sample(ts) == Some(|xs|)
    requires i < |ts| && ts[i].pred == Mean && ts[i].obj == IntLit(RunningMean(xs))
    requires ts[i].subj in newValues && newValues[ts[i].subj] == Some(x)
    ensures var r := UpdateHour(newValues, ts, Sample(ts), gat);
            && r.data[i].pred == Mean && r.data[i].subj == ts[i].subj
            && r.data[i].obj == IntLit(RunningMean(xs + [x]))
            && HasSample(r.data) && Sample(r.data) == Some(|xs + [x]|)
  {
    UpdateHourAt(newValues, ts, Sample(ts), gat, i);
    RewriteKeeps(ts[i], Lookup(newValues, ts[i].subj), Sample(ts), gat);
    assert (xs + [x])[..|xs|] == xs;
    UpdateHourCountsSample(newValues, ts, gat);
  }
}
