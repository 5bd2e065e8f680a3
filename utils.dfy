/**
 * The fragment index lookup (`dateBinarySearch`) and the statement filter
 * (`getTriplesBySPOG`) of the server's utility object.
 */
module Utils {
  import opened Wrappers
  import opened Rdf

  // ================================================== fragment index lookup

  predicate StrictlyAscending(f: seq<int>) {
    forall i, j :: 0 <= i < j < |f| ==> f[i] < f[j]
  }

  /**
   * Reference definition of the covering fragment: the last index whose start
   * is at or before `target`, or 0 when every start is later.
   */
  function LastAtOrBefore(f: seq<int>, target: int): (i: nat)
    requires |f| > 0
    ensures i < |f|
  {
    if |f| == 1 || f[|f| - 1] <= target then |f| - 1 else LastAtOrBefore(f[..|f| - 1], target)
  }

  /** In an ascending index, an index that brackets `target` is the covering one. */
  lemma {:induction false} LastAtOrBeforeUnique(f: seq<int>, target: int, i: nat)
    requires StrictlyAscending(f) && i < |f|
    requires i == 0 || f[i] <= target
    requires i == |f| - 1 || target < f[i + 1]
    ensures LastAtOrBefore(f, target) == i
  {
    if i < |f| - 1 {
      assert f[i + 1] <= f[|f| - 1];
      var g := f[..|f| - 1];
      assert g[i] == f[i];
      assert i < |g| - 1 ==> g[i + 1] == f[i + 1];
      LastAtOrBeforeUnique(g, target, i);
    }
  }

  /** Querying exactly at a fragment start finds that fragment. */
  lemma LastAtOrBeforeAtStart(f: seq<int>, j: nat)
    requires StrictlyAscending(f) && j < |f|
    ensures LastAtOrBefore(f, f[j]) == j
  {
    LastAtOrBeforeUnique(f, f[j], j);
  }

  /**
   * `dateBinarySearch`: three-way binary search for the fragment covering
   * `target` in the fragment start times, clamped to the first and last
   * fragment. Returns the covering start and its index.
   */
  method DateBinarySearch(target: int, fragments: seq<int>) returns (start: int, index: nat)
    requires |fragments| > 0
    ensures index < |fragments| && start == fragments[index]
    ensures target <= fragments[0] ==> index == 0
    ensures fragments[0] < target && fragments[|fragments| - 1] <= target ==> index == |fragments| - 1
    ensures fragments[0] < target ==> fragments[index] <= target
    ensures StrictlyAscending(fragments) ==> index == |fragments| - 1 || target < fragments[index + 1]
    ensures StrictlyAscending(fragments) ==> index == LastAtOrBefore(fragments, target)
    ensures StrictlyAscending(fragments) ==>
              forall j :: 0 <= j < |fragments| && fragments[j] == target ==> index == j
  {
    var min, max := 0, |fragments| - 1;
    var found: Option<nat> := None;
    if target <= fragments[min] {
      found := Some(min);
    } else if target >= fragments[max] {
      found := Some(max);
    } else {
      while found.None?
        invariant 0 <= min < max < |fragments|
        invariant fragments[min] < target < fragments[max]
        invariant found.Some? ==> found.value < |fragments| && fragments[found.value] <= target
        invariant found.Some? && StrictlyAscending(fragments) ==>
                    found.value == |fragments| - 1 || target < fragments[found.value + 1]
        decreases found.None?, max - min
      {
        var mid := (min + max) / 2;
        if target > fragments[mid] {
          if target < fragments[mid + 1] {
            found := Some(mid);
          } else if target == fragments[mid + 1] {
            found := Some(mid + 1);
          } else {
            min := mid;
          }
        } else if target == fragments[mid] {
          found := Some(mid);
        } else {
          if target >= fragments[mid - 1] {
            found := Some(mid - 1);
          } else {
            max := mid;
          }
        }
      }
    }
    index := found.value;
    start := fragments[index];
    if StrictlyAscending(fragments) {
      LastAtOrBeforeUnique(fragments, target, index);
      forall j | 0 <= j < |fragments| && fragments[j] == target
        ensures index == j
      {
        LastAtOrBeforeAtStart(fragments, j);
      }
    }
  }

  // ======================== the search as JavaScript runs it on any listing

  /** `fragments[i]` in JavaScript: undefined outside the array. */
  function Lookup(f: seq<int>, i: int): (r: Option<int>)
    ensures r.Some? <==> 0 <= i < |f|
    ensures r.Some? ==> r.value == f[i]
  {
    if 0 <= i < |f| then Some(f[i]) else None
  }

  /** Relational comparisons with undefined are false in JavaScript. */
  predicate JsLess(a: int, b: Option<int>) { b.Some? && a < b.value }
  predicate JsLessEq(a: int, b: Option<int>) { b.Some? && a <= b.value }
  predicate JsGreater(a: int, b: Option<int>) { b.Some? && a > b.value }
  predicate JsGreaterEq(a: int, b: Option<int>) { b.Some? && a >= b.value }

  datatype SearchState = Searching(min: int, max: int) | Found(index: int)

  /** The two clamping tests that precede the loop, on any listing. */
  function JsSearchEntry(target: int, f: seq<int>): (s: SearchState)
    ensures |f| == 0 ==> s == Searching(0, -1)
  {
    if JsLessEq(target, Lookup(f, 0)) then Found(0)
    else if JsGreaterEq(target, Lookup(f, |f| - 1)) then Found(|f| - 1)
    else Searching(0, |f| - 1)
  }

  /**
   * One pass of the loop body exactly as written, including its reads past
   * either end of the array (`Math.floor` of a halved sum is Dafny's `/ 2`).
   */
  function JsSearchStep(target: int, f: seq<int>, min: int, max: int): SearchState {
    var mid := (min + max) / 2;
    if JsGreater(target, Lookup(f, mid)) then
      if JsLess(target, Lookup(f, mid + 1)) then Found(mid)
      else if Lookup(f, mid + 1) == Some(target) then Found(mid + 1)
      else Searching(mid, max)
    else if Lookup(f, mid) == Some(target) then Found(mid)
    else if JsGreaterEq(target, Lookup(f, mid - 1)) then Found(mid - 1)
    else Searching(min, mid)
  }

  /** The state after `k` passes of the loop, starting from the entry tests. */
  function JsSearchAfter(target: int, f: seq<int>, k: nat): SearchState {
    if k == 0 then JsSearchEntry(target, f)
    else match JsSearchAfter(target, f, k - 1)
      case Found(i) => Found(i)
      case Searching(lo, hi) => JsSearchStep(target, f, lo, hi)
  }

  /**
   * On an empty listing the loop never ends: `min = 0, max = -1` is a fixed
   * point of the loop body, so no number of passes reaches a result.
   */
  lemma {:induction false} EmptyListingNeverFinishes(target: int, k: nat)
    ensures JsSearchAfter(target, [], k) == Searching(0, -1)
  {
    if k > 0 {
      EmptyListingNeverFinishes(target, k - 1);
      assert (0 + -1) / 2 == -1;
    }
  }

  // ======================================================= statement filter

  /** One `filter` stage of `getTriplesBySPOG`. */
  datatype Criterion = BySubject(s: string) | ByPredicate(p: string) | ByObject(o: Term) | ByGraph(g: string)

  predicate Satisfies(t: Triple, c: Criterion) {
    match c
    case BySubject(s) => t.subj == s
    case ByPredicate(p) => t.pred == p
    case ByObject(o) => t.obj == o
    case ByGraph(g) => t.graph == Some(g)
  }

  /** `array.filter(...)` for one criterion. */
  function Filter(ts: seq<Triple>, c: Criterion): (r: seq<Triple>)
    ensures |r| <= |ts|
    ensures forall t :: t in r <==> t in ts && Satisfies(t, c)
  {
    if ts == [] then []
    else (if Satisfies(ts[0], c) then [ts[0]] else []) + Filter(ts[1..], c)
  }

  /** JavaScript truthiness of a string criterion: given and not empty. */
  predicate Given(c: Option<string>) {
    c.Some? && c.value != ""
  }

  /** Truthiness of an object criterion; an empty IRI is the empty string there. */
  predicate GivenTerm(c: Option<Term>) {
    c.Some? && c.value != Iri("")
  }

  /** The criteria that take part, in the order the source applies them. */
  function Criteria(s: Option<string>, p: Option<string>, o: Option<Term>, g: Option<string>): (cs: seq<Criterion>)
    ensures |cs| <= 4
  {
    (if Given(s) then [BySubject(s.value)] else [])
    + (if Given(p) then [ByPredicate(p.value)] else [])
    + (if GivenTerm(o) then [ByObject(o.value)] else [])
    + (if Given(g) then [ByGraph(g.value)] else [])
  }

  /** Reference definition: one pass keeping the statements that meet every criterion. */
  function SelectMatching(ts: seq<Triple>, cs: seq<Criterion>): seq<Triple> {
    if ts == [] then []
    else (if forall c :: c in cs ==> Satisfies(ts[0], c) then [ts[0]] else []) + SelectMatching(ts[1..], cs)
  }

  /**
   * `getTriplesBySPOG`: the statements matching every given criterion; a
   * missing (or empty) criterion filters nothing.
   */
  function GetTriplesBySPOG(ts: seq<Triple>, s: Option<string>, p: Option<string>, o: Option<Term>, g: Option<string>): (r: seq<Triple>)
    ensures |r| <= |ts|
    ensures forall t :: t in r ==> t in ts
    ensures Given(s) ==> forall t :: t in r ==> t.subj == s.value
    ensures Given(p) ==> forall t :: t in r ==> t.pred == p.value
    ensures GivenTerm(o) ==> forall t :: t in r ==> t.obj == o.value
    ensures Given(g) ==> forall t :: t in r ==> t.graph == g
    ensures !Given(s) && !Given(p) && !GivenTerm(o) && !Given(g) ==> r == ts
  {
    var bySubject := if Given(s) then Filter(ts, BySubject(s.value)) else ts;
    var byPredicate := if Given(p) then Filter(bySubject, ByPredicate(p.value)) else bySubject;
    var byObject := if GivenTerm(o) then Filter(byPredicate, ByObject(o.value)) else byPredicate;
    if Given(g) then Filter(byObject, ByGraph(g.value)) else byObject
  }

  lemma {:induction false} SelectNothing(ts: seq<Triple>)
    ensures SelectMatching(ts, []) == ts
  {
    if ts != [] {
      SelectNothing(ts[1..]);
    }
  }

  /** Filtering a selection by one more criterion selects by the extended list. */
  lemma {:induction false} FilterSelect(ts: seq<Triple>, cs: seq<Criterion>, c: Criterion)
    ensures Filter(SelectMatching(ts, cs), c) == SelectMatching(ts, cs + [c])
  {
    if ts != [] {
      FilterSelect(ts[1..], cs, c);
      var head := if forall d :: d in cs ==> Satisfies(ts[0], d) then [ts[0]] else [];
      assert SelectMatching(ts, cs) == head + SelectMatching(ts[1..], cs);
      FilterConcat(head, SelectMatching(ts[1..], cs), c);
      assert (forall d :: d in cs + [c] ==> Satisfies(ts[0], d))
        <==> (forall d :: d in cs ==> Satisfies(ts[0], d)) && Satisfies(ts[0], c);
    }
  }

  lemma {:induction false} FilterConcat(a: seq<Triple>, b: seq<Triple>, c: Criterion)
    ensures Filter(a + b, c) == Filter(a, c) + Filter(b, c)
  {
    if a != [] {
      assert (a + b)[1..] == a[1..] + b;
      FilterConcat(a[1..], b, c);
    } else {
      assert a + b == b;
    }
  }

  /** Position of the first statement meeting `c`, or `|ts|` when none does. */
  function FirstMatch(ts: seq<Triple>, c: Criterion): (k: nat)
    ensures k <= |ts|
  {
    if ts == [] then 0
    else if Satisfies(ts[0], c) then 0
    else 1 + FirstMatch(ts[1..], c)
  }

  /** `FirstMatch` is first: nothing before it meets `c`, and it does unless it is the end. */
  lemma {:induction false} FirstMatchSpec(ts: seq<Triple>, c: Criterion)
    ensures var k := FirstMatch(ts, c);
            && (k < |ts| ==> Satisfies(ts[k], c))
            && forall j :: 0 <= j < k ==> !Satisfies(ts[j], c)
  {
    if ts != [] && !Satisfies(ts[0], c) {
      FirstMatchSpec(ts[1..], c);
      var k := FirstMatch(ts[1..], c);
      forall j | 0 <= j < k + 1
        ensures !Satisfies(ts[j], c)
      {
        if j > 0 {
          assert ts[j] == ts[1..][j - 1];
        }
      }
    }
  }

  /** A position with nothing before it meeting `c` that meets `c` itself (or is the end) is `FirstMatch`. */
  lemma {:induction false} FirstMatchIs(ts: seq<Triple>, c: Criterion, i: nat)
    requires i <= |ts| && (i < |ts| ==> Satisfies(ts[i], c))
    requires forall j :: 0 <= j < i ==> !Satisfies(ts[j], c)
    ensures FirstMatch(ts, c) == i
  {
    if ts != [] && i > 0 {
      forall j | 0 <= j < i - 1
        ensures !Satisfies(ts[1..][j], c)
      {
        assert ts[1..][j] == ts[j + 1];
      }
      FirstMatchIs(ts[1..], c, i - 1);
    }
  }

  /** The filter's first element is the first match; the filter is empty iff there is none. */
  lemma {:induction false} FilterFirstMatch(ts: seq<Triple>, c: Criterion)
    ensures Filter(ts, c) != [] <==> FirstMatch(ts, c) < |ts|
    ensures FirstMatch(ts, c) < |ts| ==> Filter(ts, c)[0] == ts[FirstMatch(ts, c)]
  {
    if ts != [] && !Satisfies(ts[0], c) {
      FilterFirstMatch(ts[1..], c);
    }
  }

  /** One optional stage of the chain extends the criteria it selects by. */
  lemma OptionalStage(ts: seq<Triple>, cs: seq<Criterion>, prev: seq<Triple>, active: bool, c: Criterion)
    requires prev == SelectMatching(ts, cs)
    ensures (if active then Filter(prev, c) else prev) == SelectMatching(ts, cs + (if active then [c] else []))
  {
    if active {
      FilterSelect(ts, cs, c);
    } else {
      assert cs + [] == cs;
    }
  }

  /**
   * The chain of filters is the order-preserving selection of exactly the
   * statements that meet all given criteria.
   */
  lemma SpogSelectsMatching(ts: seq<Triple>, s: Option<string>, p: Option<string>, o: Option<Term>, g: Option<string>)
    ensures GetTriplesBySPOG(ts, s, p, o, g) == SelectMatching(ts, Criteria(s, p, o, g))
  {
    var a := if Given(s) then [BySubject(s.GetOr(""))] else [];
    var b := if Given(p) then [ByPredicate(p.GetOr(""))] else [];
    var c := if GivenTerm(o) then [ByObject(o.GetOr(Iri("")))] else [];
    var d := if Given(g) then [ByGraph(g.GetOr(""))] else [];
    SelectNothing(ts);
    var t1 := if Given(s) then Filter(ts, BySubject(s.GetOr(""))) else ts;
    OptionalStage(ts, [], ts, Given(s), BySubject(s.GetOr("")));
    assert [] + a == a;
    var t2 := if Given(p) then Filter(t1, ByPredicate(p.GetOr(""))) else t1;
    OptionalStage(ts, a, t1, Given(p), ByPredicate(p.GetOr("")));
    var t3 := if GivenTerm(o) then Filter(t2, ByObject(o.GetOr(Iri("")))) else t2;
    OptionalStage(ts, a + b, t2, GivenTerm(o), ByObject(o.GetOr(Iri(""))));
    var t4 := if Given(g) then Filter(t3, ByGraph(g.GetOr(""))) else t3;
    OptionalStage(ts, a + b + c, t3, Given(g), ByGraph(g.GetOr("")));
    assert Criteria(s, p, o, g) == a + b + c + d;
  }
}
