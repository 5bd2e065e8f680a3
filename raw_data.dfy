/**
 * The raw fragment store: every observation is appended, in arrival order,
 * to the current fragment file, which is rolled over to a new file (named by
 * the observation's timestamp) once it has grown past the configured size.
 * Its read side answers `/latest` with conditional GET and `/fragments` with
 * a redirect to the canonical fragment start, paging metadata and caching.
 */
module RawData {
  import opened Wrappers
  import opened Calendar
  import opened Rdf
  import Http
  import Utils

  /** An observation as it arrives: its serialised TriG text and its generated-at time. */
  datatype Observation = Observation(text: string, generatedAt: Instant)

  /** What one data event carries: the argument array, or a single value. */
  datatype Payload = Batch(items: seq<Observation>) | Single(item: Observation)

  /** One entry of the configured metadata object: key, optional '@type', '@value'. */
  datatype MetaEntry = MetaEntry(key: string, kind: Option<string>, value: string)

  /**
   * The interface's configuration. `staticText` is what parsing and
   * re-serialising the static triples file yields ('' when none is configured).
   */
  datatype Config = Config(
    serverUrl: string,
    name: string,
    fragmentsPath: string,
    fragmentMaxSize: int,
    metadata: seq<MetaEntry>,
    staticText: string)

  /** The fields `storeData` and `init` update, and the fragment files on disk. */
  datatype Store = Store(
    byteCounter: nat,
    lastFragment: Option<string>,
    latestData: Option<Observation>,
    lastGat: Option<Instant>,
    staticTriples: Option<string>,
    files: map<string, string>)

  // ======================================================= byte lengths

  /** Bytes of one character in UTF-8. */
  function Utf8Width(c: char): nat {
    if c as int < 0x80 then 1 else if c as int < 0x800 then 2 else if c as int < 0x10000 then 3 else 4
  }

  /** `Buffer.from(s).byteLength`: the UTF-8 length of the text. */
  function Utf8Length(s: string): (n: nat)
    ensures |s| <= n <= 4 * |s|
  {
    if s == [] then 0 else Utf8Width(s[0]) + Utf8Length(s[1..])
  }

  lemma {:induction false} Utf8LengthConcat(a: string, b: string)
    ensures Utf8Length(a + b) == Utf8Length(a) + Utf8Length(b)
  {
    if a != [] {
      assert (a + b)[1..] == a[1..] + b;
      Utf8LengthConcat(a[1..], b);
    } else {
      assert a + b == b;
    }
  }

  // ============================================================ ingestion

  /** The file a fragment opened at `t` is written to. */
  function FragmentFile(cfg: Config, t: Instant): string
    requires IsDate(t)
  {
    cfg.fragmentsPath + "/" + Iso(t) + ".trig"
  }

  /** The content of a file, empty when it does not exist yet (as `appendFile` creates it). */
  function FileContent(files: map<string, string>, path: string): string {
    if path in files then files[path] else ""
  }

  /**
   * Consistency of the store's fields: a nonzero counter belongs to an open
   * fragment file that is at least that long, and a latest observation comes
   * with its timestamp and the static triples.
   */
  predicate Consistent(st: Store) {
    && (st.byteCounter > 0 ==> st.lastFragment.Some?)
    && (st.lastFragment.Some? ==>
          st.lastFragment.value in st.files && st.byteCounter <= Utf8Length(st.files[st.lastFragment.value]))
    && (st.latestData.Some? <==> st.lastGat.Some?)
    && (st.latestData.Some? ==>
          st.staticTriples.Some? && st.lastGat.value == st.latestData.value.generatedAt && Valid(st.lastGat.value))
  }

  /** The rollover test of `storeData`; the comparison is strict. */
  predicate RollsOver(cfg: Config, st: Store) {
    st.byteCounter == 0 || st.byteCounter > cfg.fragmentMaxSize
  }

  /**
   * `storeData`: roll over to a file named by the latest timestamp if the
   * current fragment is empty or too large, then append the latest observation.
   */
  function StoreStep(cfg: Config, st: Store): (r: Store)
    requires Consistent(st) && st.latestData.Some?
    ensures Consistent(r)
    ensures r.lastFragment.Some?
    ensures FileContent(r.files, r.lastFragment.value)
            == FileContent(st.files, r.lastFragment.value) + st.latestData.value.text
    ensures forall p :: p in st.files && p != r.lastFragment.value ==> p in r.files && r.files[p] == st.files[p]
    ensures r.files.Keys == st.files.Keys + {r.lastFragment.value}
  {
    var roll := RollsOver(cfg, st);
    var path := if roll then FragmentFile(cfg, st.lastGat.value) else st.lastFragment.value;
    var counter := if roll then 0 else st.byteCounter;
    var text := st.latestData.value.text;
    var content := FileContent(st.files, path) + text;
    Utf8LengthConcat(FileContent(st.files, path), text);
    st.(lastFragment := Some(path), byteCounter := counter + Utf8Length(text), files := st.files[path := content])
  }

  /** `init`: load the static triples once, record the observation as latest, store it. */
  function InitStep(cfg: Config, st: Store, obs: Observation): (r: Store)
    requires Consistent(st) && Valid(obs.generatedAt)
    ensures Consistent(r)
    ensures r.latestData == Some(obs) && r.lastGat == Some(obs.generatedAt)
  {
    var staticTriples := if st.staticTriples.None? then Some(cfg.staticText) else st.staticTriples;
    StoreStep(cfg, st.(staticTriples := staticTriples, latestData := Some(obs), lastGat := Some(obs.generatedAt)))
  }

  /** `init` applied to each observation in turn. */
  function IngestAll(cfg: Config, st: Store, items: seq<Observation>): (r: Store)
    requires Consistent(st) && forall i :: 0 <= i < |items| ==> Valid(items[i].generatedAt)
    ensures Consistent(r)
    ensures items != [] ==> r.latestData == Some(items[|items| - 1])
    ensures items == [] ==> r == st
  {
    if items == [] then st else InitStep(cfg, IngestAll(cfg, st, items[..|items| - 1]), items[|items| - 1])
  }

  /** `onData`: every element of an array in order, or the single value once. */
  function Ingest(cfg: Config, st: Store, p: Payload): (r: Store)
    requires Consistent(st) && PayloadDated(p)
    ensures Consistent(r)
  {
    match p
    case Batch(items) => IngestAll(cfg, st, items)
    case Single(obs) => InitStep(cfg, st, obs)
  }

  predicate PayloadDated(p: Payload) {
    match p
    case Batch(items) => forall i :: 0 <= i < |items| ==> Valid(items[i].generatedAt)
    case Single(obs) => Valid(obs.generatedAt)
  }

  // ------------------------------------------------ properties of ingestion

  /**
   * `storeData` opens a new fragment exactly when the counter is zero or past
   * the maximum; the new file is named by the latest timestamp and the counter
   * restarts from the observation's size; otherwise the file stays and the
   * counter grows by that size.
   */
  lemma RolloverRule(cfg: Config, st: Store)
    requires Consistent(st) && st.latestData.Some?
    ensures var r := StoreStep(cfg, st);
            var bytes := Utf8Length(st.latestData.value.text);
            && (RollsOver(cfg, st) ==>
                  r.lastFragment == Some(FragmentFile(cfg, st.lastGat.value)) && r.byteCounter == bytes)
            && (!RollsOver(cfg, st) ==>
                  r.lastFragment == st.lastFragment && r.byteCounter == st.byteCounter + bytes)
  {
  }

  /** A fragment whose counter equals the maximum still takes the next observation. */
  lemma AtMaximumNoRollover(cfg: Config, st: Store, obs: Observation)
    requires Consistent(st) && Valid(obs.generatedAt)
    requires 0 < st.byteCounter == cfg.fragmentMaxSize
    ensures InitStep(cfg, st, obs).lastFragment == st.lastFragment
    ensures InitStep(cfg, st, obs).byteCounter == st.byteCounter + Utf8Length(obs.text)
  {
  }

  /**
   * Once the counter has passed the maximum, the next observation opens the
   * fragment named by its own timestamp, and the previous fragment's file is
   * left exactly as it was.
   */
  lemma PastMaximumOpensFragment(cfg: Config, st: Store, obs: Observation)
    requires Consistent(st) && Valid(obs.generatedAt)
    requires st.byteCounter > cfg.fragmentMaxSize
    ensures var r := InitStep(cfg, st, obs);
            && r.lastFragment == Some(FragmentFile(cfg, obs.generatedAt))
            && r.byteCounter == Utf8Length(obs.text)
            && FileContent(r.files, r.lastFragment.value) == FileContent(st.files, r.lastFragment.value) + obs.text
            && (st.lastFragment.Some? && st.lastFragment.value != r.lastFragment.value ==>
                  r.files[st.lastFragment.value] == st.files[st.lastFragment.value])
  {
  }

  /** Ingesting two batches one after the other is ingesting their concatenation. */
  lemma {:induction false} IngestAllConcat(cfg: Config, st: Store, a: seq<Observation>, b: seq<Observation>)
    requires Consistent(st)
    requires forall i :: 0 <= i < |a| ==> Valid(a[i].generatedAt)
    requires forall i :: 0 <= i < |b| ==> Valid(b[i].generatedAt)
    ensures forall i :: 0 <= i < |a + b| ==> Valid((a + b)[i].generatedAt)
    ensures IngestAll(cfg, st, a + b) == IngestAll(cfg, IngestAll(cfg, st, a), b)
  {
    assert forall i :: 0 <= i < |a + b| ==> Valid((a + b)[i].generatedAt) by {
      forall i | 0 <= i < |a + b| ensures Valid((a + b)[i].generatedAt) {
        if i < |a| { assert (a + b)[i] == a[i]; } else { assert (a + b)[i] == b[i - |a|]; }
      }
    }
    if b == [] {
      assert a + b == a;
    } else {
      assert (a + b)[..|a + b| - 1] == a + b[..|b| - 1];
      IngestAllConcat(cfg, st, a, b[..|b| - 1]);
    }
  }

  /** One more observation is one more `init`. */
  lemma IngestAllStep(cfg: Config, st: Store, items: seq<Observation>, i: nat)
    requires Consistent(st) && i < |items| && forall j :: 0 <= j < |items| ==> Valid(items[j].generatedAt)
    ensures IngestAll(cfg, st, items[..i + 1]) == InitStep(cfg, IngestAll(cfg, st, items[..i]), items[i])
  {
    assert items[..i + 1][..i] == items[..i];
    assert items[..i + 1][i] == items[i];
  }

  /**
   * The event wiring always hands `onData` an argument array: a single
   * observation in an array is ingested exactly as the bare observation.
   */
  lemma WrappedSingleIsSingle(cfg: Config, st: Store, obs: Observation)
    requires Consistent(st) && Valid(obs.generatedAt)
    ensures Ingest(cfg, st, Batch([obs])) == Ingest(cfg, st, Single(obs))
  {
    assert [obs][..0] == [];
  }

  // ================================================= the stateful interface

  class RawDataInterface {
    const cfg: Config
    var byteCounter: nat
    var lastFragment: Option<string>
    var latestData: Option<Observation>
    var lastGat: Option<Instant>
    var staticTriples: Option<string>
    var files: map<string, string>

    /** The fields as one store value. */
    ghost function State(): Store
      reads this
    {
      Store(byteCounter, lastFragment, latestData, lastGat, staticTriples, files)
    }

    /** A new interface over the fragment directory as it is found on disk. */
    constructor (config: Config, disk: map<string, string>)
      ensures cfg == config && State() == Store(0, None, None, None, None, disk)
      ensures Consistent(State())
    {
      cfg := config;
      byteCounter, lastFragment, latestData, lastGat, staticTriples := 0, None, None, None, None;
      files := disk;
    }

    /** `storeData`. */
    method StoreData()
      requires Consistent(State()) && latestData.Some?
      modifies this
      ensures State() == StoreStep(cfg, old(State()))
    {
      if byteCounter == 0 || byteCounter > cfg.fragmentMaxSize {
        lastFragment := Some(FragmentFile(cfg, lastGat.value));
        byteCounter := 0;
      }
      var path := lastFragment.value;
      files := files[path := FileContent(files, path) + latestData.value.text];
      byteCounter := byteCounter + Utf8Length(latestData.value.text);
    }

    /** `init`. */
    method Init(obs: Observation)
      requires Consistent(State()) && Valid(obs.generatedAt)
      modifies this
      ensures State() == InitStep(cfg, old(State()), obs)
    {
      if staticTriples.None? {
        staticTriples := Some(cfg.staticText);
      }
      latestData := Some(obs);
      lastGat := Some(obs.generatedAt);
      StoreData();
    }

    /** `onData`: `init` once per element of an array, in order; once for anything else. */
    method OnData(p: Payload)
      requires Consistent(State()) && PayloadDated(p)
      modifies this
      ensures State() == Ingest(cfg, old(State()), p)
    {
      match p
      case Single(obs) =>
        Init(obs);
      case Batch(items) =>
        var i := 0;
        while i < |items|
          invariant 0 <= i <= |items|
          invariant Consistent(State())
          invariant State() == IngestAll(cfg, old(State()), items[..i])
        {
          IngestAllStep(cfg, old(State()), items, i);
          Init(items[i]);
          i := i + 1;
        }
        assert items[..|items|] == items;
    }
  }

  // ============================================================== /latest

  /** The weak entity tag of the latest observation: `W/"<md5 of its timestamp>"`. */
  function ETag(md5: Instant -> string, t: Instant): string {
    "W/\"" + md5(t) + "\""
  }

  /**
   * GET /{name}/latest: 404 before any observation; 304 when If-None-Match
   * repeats the current tag; otherwise the static triples and the latest
   * observation, with ETag, Last-Modified and Content-Type.
   */
  function LatestResponse(st: Store, ifNoneMatch: Option<string>, md5: Instant -> string): (r: Http.Response)
    requires Consistent(st)
    ensures r.status == 404 <==> st.latestData.None?
    ensures r.status == 304 <==> st.latestData.Some? && ifNoneMatch == Some(ETag(md5, st.lastGat.value))
    ensures r.status == 200 || r.status == 304 || r.status == 404
    ensures r.status != 200 ==> r.headers == Http.AllowOrigin
    ensures r.status == 404 ==> r.body == Http.Text("No data found")
    ensures r.status == 304 ==> r.body == Http.NoBody
    ensures r.status == 200 ==>
              && r.headers.Keys == {"Access-Control-Allow-Origin", "ETag", "Last-Modified", "Content-Type"}
              && r.headers["ETag"] == ETag(md5, st.lastGat.value)
              && r.headers["Last-Modified"] == UtcString(st.lastGat.value)
              && r.headers["Content-Type"] == "application/trig"
              && r.body == Http.Text(st.staticTriples.value + st.latestData.value.text)
  {
    if st.latestData.None? then
      Http.Response(404, Http.AllowOrigin, Http.Text("No data found"))
    else
      var etag := ETag(md5, st.lastGat.value);
      if ifNoneMatch.Some? && ifNoneMatch.value != "" && ifNoneMatch.value == etag then
        Http.Response(304, Http.AllowOrigin, Http.NoBody)
      else
        Http.Response(200,
          Http.AllowOrigin["ETag" := etag]["Last-Modified" := UtcString(st.lastGat.value)]["Content-Type" := "application/trig"],
          Http.Text(st.staticTriples.value + st.latestData.value.text))
  }

  /** Sending back the tag of a 200 answer, with no write in between, yields 304. */
  lemma ConditionalGetRevalidates(st: Store, first: Option<string>, md5: Instant -> string)
    requires Consistent(st)
    requires LatestResponse(st, first, md5).status == 200
    ensures LatestResponse(st, Some(LatestResponse(st, first, md5).headers["ETag"]), md5).status == 304
  {
  }

  // ===================================================== paging metadata

  /** `pat` occurs in `s` at position `j`. */
  predicate MatchAt(s: string, pat: string, j: nat) {
    j + |pat| <= |s| && s[j..j + |pat|] == pat
  }

  /** `s.indexOf(pat, from)`: the first position at or after `from` where `pat` occurs, or -1. */
  function IndexOfFrom(s: string, pat: string, from: nat): (k: int)
    ensures k == -1 || (from <= k && MatchAt(s, pat, k))
    decreases |s| - from
  {
    if |s| < from + |pat| then -1
    else if MatchAt(s, pat, from) then from
    else IndexOfFrom(s, pat, from + 1)
  }

  /** `f.substring(0, f.indexOf('.trig'))`; a missing suffix leaves the empty string. */
  function TrimTrig(f: string): string {
    var k := IndexOfFrom(f, ".trig", 0);
    if k < 0 then "" else f[..k]
  }

  lemma {:induction false} IndexOfFirst(s: string, pat: string, from: nat, k: nat)
    requires from <= k && MatchAt(s, pat, k)
    requires forall j :: from <= j < k ==> !MatchAt(s, pat, j)
    ensures IndexOfFrom(s, pat, from) == k
    decreases k - from
  {
    if from < k {
      IndexOfFirst(s, pat, from + 1, k);
    }
  }

  /** A name without the letter 't' followed by '.trig' trims back to itself. */
  lemma TrimTrigSuffix(stem: string)
    requires 't' !in stem
    ensures TrimTrig(stem + ".trig") == stem
  {
    var s := stem + ".trig";
    forall j | 0 <= j < |stem|
      ensures !MatchAt(s, ".trig", j)
    {
      if j + 1 < |stem| {
        assert s[j + 1] == stem[j + 1];
        assert stem[j + 1] in stem;
      } else {
        assert s[j + 1] == '.';
      }
      assert s[j..j + 5][1] == s[j + 1];
    }
    assert s[|stem|..|stem| + 5] == ".trig";
    IndexOfFirst(s, ".trig", 0, |stem|);
    assert s[..|stem|] == stem;
  }

  /** The name the store gives a fragment trims back to the fragment's ISO time. */
  lemma TrimFragmentName(t: Instant)
    requires IsDate(t)
    ensures TrimTrig(Iso(t) + ".trig") == Iso(t)
  {
    IsoChars(t);
    TrimTrigSuffix(Iso(t));
  }

  const MetadataGraph: Option<string> := Some("#Metadata")

  function BaseUri(cfg: Config): string {
    cfg.serverUrl + cfg.name + "/fragments"
  }

  /** The canonical URL of the fragment page starting at `t`. */
  function PageUri(cfg: Config, t: Instant): string
    requires IsDate(t)
  {
    BaseUri(cfg) + "?time=" + Iso(t)
  }

  /** The configured metadata entries that become quads: all but '@context', in order. */
  function NonContext(entries: seq<MetaEntry>): (r: seq<MetaEntry>)
    ensures |r| <= |entries|
  {
    if entries == [] then []
    else NonContext(entries[..|entries| - 1])
         + (if entries[|entries| - 1].key != "@context" then [entries[|entries| - 1]] else [])
  }

  /** Exactly the entries whose key is not '@context' are kept. */
  lemma {:induction false} NonContextMembers(entries: seq<MetaEntry>)
    ensures forall e :: e in NonContext(entries) <==> e in entries && e.key != "@context"
  {
    if entries != [] {
      var init := entries[..|entries| - 1];
      NonContextMembers(init);
      assert entries == init + [entries[|entries| - 1]];
    }
  }

  /** The text of an IRI or plain literal. */
  function TermText(t: Term): string {
    match t
    case Iri(s) => s
    case Lit(s) => s
    case IntLit(_) => ""
    case BoolLit(_) => ""
    case TimeLit(_) => ""
  }

  function MetaQuad(subject: string, e: MetaEntry): Triple {
    Triple(subject, e.key, if e.kind == Some("@id") then Iri(e.value) else Lit(e.value), MetadataGraph)
  }

  /** The quads of the configured keys, one per key other than '@context', in key order. */
  function ConfiguredQuads(subject: string, entries: seq<MetaEntry>): (r: seq<Triple>)
    ensures |r| == |NonContext(entries)|
  {
    if entries == [] then []
    else ConfiguredQuads(subject, entries[..|entries| - 1])
         + (if entries[|entries| - 1].key != "@context" then [MetaQuad(subject, entries[|entries| - 1])] else [])
  }

  /**
   * The j-th configured quad states the j-th kept entry: its key as
   * predicate, its '@value' as object, an IRI exactly when its '@type' is '@id'.
   */
  lemma {:induction false} ConfiguredQuadsDescribe(subject: string, entries: seq<MetaEntry>)
    ensures var r := ConfiguredQuads(subject, entries);
            forall j :: 0 <= j < |r| ==>
              var e := NonContext(entries)[j];
              && r[j].subj == subject && r[j].pred == e.key && r[j].graph == MetadataGraph
              && (r[j].obj.Iri? <==> e.kind == Some("@id"))
              && (r[j].obj.Iri? || r[j].obj.Lit?) && TermText(r[j].obj) == e.value
  {
    if entries != [] {
      var init := entries[..|entries| - 1];
      var last := entries[|entries| - 1];
      ConfiguredQuadsDescribe(subject, init);
      var r, p := ConfiguredQuads(subject, entries), ConfiguredQuads(subject, init);
      var nc, np := NonContext(entries), NonContext(init);
      assert r == p + (if last.key != "@context" then [MetaQuad(subject, last)] else []);
      assert nc == np + (if last.key != "@context" then [last] else []);
      forall j | 0 <= j < |r|
        ensures r[j].pred == nc[j].key && r[j].graph == MetadataGraph
        ensures r[j].subj == subject && (r[j].obj.Iri? <==> nc[j].kind == Some("@id"))
        ensures (r[j].obj.Iri? || r[j].obj.Lit?) && TermText(r[j].obj) == nc[j].value
      {
        if j < |p| {
          assert r[j] == p[j] && nc[j] == np[j];
        } else {
          assert r[j] == MetaQuad(subject, last) && nc[j] == last;
        }
      }
    }
  }

  /** The Hydra search template and its mapping for the `time` variable. */
  function SearchTemplate(cfg: Config, subject: string): (r: seq<Triple>)
    ensures |r| == 8
  {
    var search := subject + "#search";
    var mapping := subject + "#mapping";
    [ Triple(subject, HydraSearch, Iri(search), MetadataGraph),
      Triple(search, RdfType, Iri(HydraIriTemplate), MetadataGraph),
      Triple(search, HydraTemplate, Lit(BaseUri(cfg) + "{?time}"), MetadataGraph),
      Triple(search, HydraVariableRepresentation, Iri(HydraBasicRepresentation), MetadataGraph),
      Triple(search, HydraMapping, Iri(mapping), MetadataGraph),
      Triple(mapping, RdfType, Iri(HydraIriTemplateMapping), MetadataGraph),
      Triple(mapping, HydraVariable, Lit("time"), MetadataGraph),
      Triple(mapping, HydraRequired, BoolLit(true), MetadataGraph) ]
  }

  /** The paging metadata of the fragment at `index` of the listing `names`. */
  function PagingMetadata(cfg: Config, fragment: Instant, index: nat, names: seq<string>): seq<Triple>
    requires IsDate(fragment) && index < |names|
  {
    var subject := PageUri(cfg, fragment);
    ConfiguredQuads(subject, cfg.metadata) + SearchTemplate(cfg, subject)
    + if index > 0
      then [Triple(subject, HydraPrevious, Iri(BaseUri(cfg) + "?time=" + TrimTrig(names[index - 1])), MetadataGraph)]
      else []
  }

  /** No configured key is itself a Hydra paging link. */
  predicate NoPagingKeys(cfg: Config) {
    forall e :: e in cfg.metadata ==> e.key != HydraPrevious && e.key != HydraNext
  }

  /** The configured quads carry no paging link and live in the metadata graph. */
  lemma ConfiguredQuadsNoLinks(cfg: Config, subject: string)
    requires NoPagingKeys(cfg)
    ensures forall q :: q in ConfiguredQuads(subject, cfg.metadata) ==>
              q.pred != HydraNext && q.pred != HydraPrevious && q.graph == MetadataGraph
  {
    var c := ConfiguredQuads(subject, cfg.metadata);
    var nc := NonContext(cfg.metadata);
    ConfiguredQuadsDescribe(subject, cfg.metadata);
    NonContextMembers(cfg.metadata);
    forall q | q in c
      ensures q.pred != HydraNext && q.pred != HydraPrevious && q.graph == MetadataGraph
    {
      var j :| 0 <= j < |c| && c[j] == q;
      assert nc[j] in nc;
    }
  }

  /** The search template carries no paging link and lives in the metadata graph. */
  lemma SearchTemplateNoLinks(cfg: Config, subject: string)
    ensures forall q :: q in SearchTemplate(cfg, subject) ==>
              q.pred != HydraNext && q.pred != HydraPrevious && q.graph == MetadataGraph
  {
  }

  /**
   * The metadata holds the configured quads and the search template, a
   * previous link exactly when the fragment is not the first, pointing at
   * the previous file's time with '.trig' trimmed, and never a next link.
   */
  lemma PagingLinks(cfg: Config, fragment: Instant, index: nat, names: seq<string>)
    requires IsDate(fragment) && index < |names| && NoPagingKeys(cfg)
    ensures var m := PagingMetadata(cfg, fragment, index, names);
            && |m| == |NonContext(cfg.metadata)| + 8 + (if index > 0 then 1 else 0)
            && (forall q :: q in m ==> q.pred != HydraNext && q.graph == MetadataGraph)
            && ((exists q :: q in m && q.pred == HydraPrevious) <==> index > 0)
            && (forall q :: q in m && q.pred == HydraPrevious ==>
                  q.subj == PageUri(cfg, fragment)
                  && q.obj == Iri(BaseUri(cfg) + "?time=" + TrimTrig(names[index - 1])))
  {
    var subject := PageUri(cfg, fragment);
    var c := ConfiguredQuads(subject, cfg.metadata);
    var t := SearchTemplate(cfg, subject);
    var link := if index > 0
      then [Triple(subject, HydraPrevious, Iri(BaseUri(cfg) + "?time=" + TrimTrig(names[index - 1])), MetadataGraph)]
      else [];
    var m := PagingMetadata(cfg, fragment, index, names);
    assert m == c + t + link;
    ConfiguredQuadsNoLinks(cfg, subject);
    SearchTemplateNoLinks(cfg, subject);
    forall q | q in m
      ensures q in c || q in t || q in link
    {
    }
    if index > 0 {
      assert link[0] in m;
    }
  }

  /** In a listing of the store's own names, the previous link is the previous page's canonical URL. */
  lemma PreviousIsCanonical(cfg: Config, fragment: Instant, index: nat, names: seq<string>, previous: Instant)
    requires IsDate(fragment) && IsDate(previous) && 0 < index < |names|
    requires names[index - 1] == Iso(previous) + ".trig"
    ensures PagingMetadata(cfg, fragment, index, names)[|NonContext(cfg.metadata)| + 8]
            == Triple(PageUri(cfg, fragment), HydraPrevious, Iri(PageUri(cfg, previous)), MetadataGraph)
  {
    TrimFragmentName(previous);
  }

  /** `createMetadata`: the paging quads, built by a loop over the configured keys. */
  method CreateMetadata(cfg: Config, fragment: Instant, index: nat, names: seq<string>) returns (quads: seq<Triple>)
    requires IsDate(fragment) && index < |names|
    ensures quads == PagingMetadata(cfg, fragment, index, names)
  {
    var subject := PageUri(cfg, fragment);
    quads := AddConfigured(subject, cfg.metadata);
    quads := quads + SearchTemplate(cfg, subject);
    if index > 0 {
      var previous := TrimTrig(names[index - 1]);
      quads := quads + [Triple(subject, HydraPrevious, Iri(BaseUri(cfg) + "?time=" + previous), MetadataGraph)];
    }
  }

  /** The loop of `createMetadata` over the configured entries, skipping '@context'. */
  method AddConfigured(subject: string, entries: seq<MetaEntry>) returns (quads: seq<Triple>)
    ensures quads == ConfiguredQuads(subject, entries)
  {
    quads := [];
    var i := 0;
    while i < |entries|
      invariant 0 <= i <= |entries|
      invariant quads == ConfiguredQuads(subject, entries[..i])
    {
      var e := entries[i];
      assert entries[..i + 1][..i] == entries[..i];
      assert entries[..i + 1][i] == e;
      if e.key != "@context" {
        if e.kind == Some("@id") {
          quads := quads + [Triple(subject, e.key, Iri(e.value), MetadataGraph)];
        } else {
          quads := quads + [Triple(subject, e.key, Lit(e.value), MetadataGraph)];
        }
      }
      i := i + 1;
    }
    assert entries[..i] == entries;
  }

  // ========================================================== /fragments

  /** The start times of a listing, as `getTime()` values. */
  function Millis(starts: seq<Instant>): (m: seq<int>)
    requires forall i :: 0 <= i < |starts| ==> IsDate(starts[i])
    ensures |m| == |starts|
    ensures forall i :: 0 <= i < |starts| ==> m[i] == EpochMillis(starts[i])
  {
    seq(|starts|, i requires 0 <= i < |starts| => EpochMillis(starts[i]))
  }

  /**
   * The directory listing of the fragments folder: the store's own file
   * names, each the ISO start time of its fragment plus '.trig', in time order.
   */
  predicate ListingOf(names: seq<string>, starts: seq<Instant>) {
    && |names| == |starts|
    && (forall i :: 0 <= i < |starts| ==> Valid(starts[i]) && names[i] == Iso(starts[i]) + ".trig")
    && Utils.StrictlyAscending(Millis(starts))
  }

  const ImmutableCache := "public, max-age=31536000, inmutable"
  const NoCache := "no-cache, no-store, must-revalidate"

  function FragmentHeaders(closed: bool): map<string, string> {
    map["Access-Control-Allow-Origin" := "*", "Content-Type" := "text/turtle",
        "Cache-Control" := if closed then ImmutableCache else NoCache]
  }

  /** The redirect to the canonical page URL of the fragment starting at `t`. */
  function PageRedirect(cfg: Config, t: Instant): Http.Response
    requires IsDate(t)
  {
    Http.Redirect("/" + cfg.name + "/fragments?time=" + Iso(t))
  }

  /**
   * GET /{name}/fragments?time=…: an unparsable time redirects to the page
   * for `now`; a time that is not exactly a fragment start redirects to the
   * fragment covering it; an exact start serves that fragment with its
   * paging metadata, cacheable for good once a later fragment exists. An
   * empty folder answers 404. `query` is the parsed `time` parameter (None
   * when it is not a date) and `now` the clock.
   */
  function FragmentsResponse(cfg: Config, st: Store, query: Option<Instant>, now: Instant,
                             names: seq<string>, starts: seq<Instant>): Http.Response
    requires IsDate(now) && (query.Some? ==> IsDate(query.value)) && ListingOf(names, starts)
  {
    if query.None? then PageRedirect(cfg, now)
    else if starts == [] then Http.NotFound
    else FragmentAt(cfg, st, query.value, names, starts)
  }

  /**
   * The answer for time `t` over a non-empty listing: the fragment k that
   * covers `t` is served when it starts exactly at `t`, otherwise the
   * client is redirected to it.
   */
  function FragmentAt(cfg: Config, st: Store, t: Instant, names: seq<string>, starts: seq<Instant>): Http.Response
    requires IsDate(t) && ListingOf(names, starts) && starts != []
  {
    var k := Utils.LastAtOrBefore(Millis(starts), EpochMillis(t));
    if EpochMillis(t) != EpochMillis(starts[k]) then PageRedirect(cfg, starts[k])
    else if st.staticTriples.None? then Http.InternalError
    else Http.Response(200, FragmentHeaders(k < |names| - 1),
           Http.FragmentPage(st.staticTriples.value, cfg.fragmentsPath + "/" + names[k],
                             PagingMetadata(cfg, starts[k], k, names)))
  }

  /** A time before the first fragment redirects to the first fragment. */
  lemma EarlyTimeRedirectsToFirst(cfg: Config, st: Store, t: Instant, now: Instant,
                                  names: seq<string>, starts: seq<Instant>)
    requires IsDate(now) && IsDate(t) && ListingOf(names, starts) && starts != []
    requires EpochMillis(t) < EpochMillis(starts[0])
    ensures FragmentsResponse(cfg, st, Some(t), now, names, starts) == PageRedirect(cfg, starts[0])
  {
    Utils.LastAtOrBeforeUnique(Millis(starts), EpochMillis(t), 0);
  }

  /** A time strictly inside fragment j (after its start, before the next) redirects to fragment j. */
  lemma InnerTimeRedirectsToCovering(cfg: Config, st: Store, t: Instant, now: Instant,
                                     names: seq<string>, starts: seq<Instant>, j: nat)
    requires IsDate(now) && IsDate(t) && ListingOf(names, starts) && j < |starts|
    requires EpochMillis(starts[j]) < EpochMillis(t)
    requires j == |starts| - 1 || EpochMillis(t) < EpochMillis(starts[j + 1])
    ensures FragmentsResponse(cfg, st, Some(t), now, names, starts) == PageRedirect(cfg, starts[j])
  {
    Utils.LastAtOrBeforeUnique(Millis(starts), EpochMillis(t), j);
  }

  /**
   * The exact start of fragment j is served, not redirected (so following a
   * redirect ends in a page); it is marked immutable exactly when j is not
   * the last fragment, and fails only when no static triples were loaded.
   */
  lemma ExactStartIsServed(cfg: Config, st: Store, t: Instant, now: Instant,
                           names: seq<string>, starts: seq<Instant>, j: nat)
    requires IsDate(now) && IsDate(t) && ListingOf(names, starts) && j < |starts|
    requires EpochMillis(starts[j]) == EpochMillis(t)
    ensures var r := FragmentsResponse(cfg, st, Some(t), now, names, starts);
            && (st.staticTriples.None? ==> r == Http.InternalError)
            && (st.staticTriples.Some? ==>
                  && r.status == 200
                  && r.body == Http.FragmentPage(st.staticTriples.value, cfg.fragmentsPath + "/" + names[j],
                                                 PagingMetadata(cfg, starts[j], j, names))
                  && "Cache-Control" in r.headers
                  && (r.headers["Cache-Control"] == ImmutableCache <==> j < |starts| - 1))
  {
    Utils.LastAtOrBeforeAtStart(Millis(starts), j);
    CacheControl(j < |names| - 1);
    ServedAtStart(cfg, st, t, names, starts, j);
  }

  /** The fragment found for `t` is served when `t` is its start. */
  lemma ServedAtStart(cfg: Config, st: Store, t: Instant, names: seq<string>, starts: seq<Instant>, j: nat)
    requires IsDate(t) && ListingOf(names, starts) && j < |starts|
    requires Utils.LastAtOrBefore(Millis(starts), EpochMillis(t)) == j && EpochMillis(starts[j]) == EpochMillis(t)
    ensures FragmentAt(cfg, st, t, names, starts)
            == if st.staticTriples.None? then Http.InternalError
               else Http.Response(200, FragmentHeaders(j < |names| - 1),
                      Http.FragmentPage(st.staticTriples.value, cfg.fragmentsPath + "/" + names[j],
                                        PagingMetadata(cfg, starts[j], j, names)))
  {
  }

  /** The cache policy of a served fragment. */
  lemma CacheControl(closed: bool)
    ensures "Cache-Control" in FragmentHeaders(closed)
    ensures FragmentHeaders(closed)["Cache-Control"] == ImmutableCache <==> closed
  {
  }

  /** `/fragments`, searching the listing with `dateBinarySearch`. */
  method HandleFragments(cfg: Config, st: Store, query: Option<Instant>, now: Instant,
                         names: seq<string>, starts: seq<Instant>) returns (r: Http.Response)
    requires IsDate(now) && (query.Some? ==> IsDate(query.value)) && ListingOf(names, starts)
    ensures r == FragmentsResponse(cfg, st, query, now, names, starts)
  {
    if query.None? {
      return PageRedirect(cfg, now);
    }
    if |starts| == 0 {
      return Http.NotFound;
    }
    r := ServeFragment(cfg, st, query.value, names, starts);
  }

  /** The part of the `/fragments` handler after the listing was found non-empty. */
  method ServeFragment(cfg: Config, st: Store, t: Instant, names: seq<string>, starts: seq<Instant>)
    returns (r: Http.Response)
    requires IsDate(t) && ListingOf(names, starts) && starts != []
    ensures r == FragmentAt(cfg, st, t, names, starts)
  {
    var millis := Millis(starts);
    var q := EpochMillis(t);
    var fragment, index := Utils.DateBinarySearch(q, millis);
    assert index == Utils.LastAtOrBefore(millis, q);
    if q != fragment {
      return PageRedirect(cfg, starts[index]);
    }
    if st.staticTriples.None? {
      return Http.InternalError;
    }
    var metadata := CreateMetadata(cfg, starts[index], index, names);
    r := Http.Response(200, FragmentHeaders(index < |names| - 1),
           Http.FragmentPage(st.staticTriples.value, cfg.fragmentsPath + "/" + names[index], metadata));
  }
}
