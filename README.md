# timeseries-server, modelled in Dafny

The timeseries server publishes a stream of parking observations, each one a
set of RDF statements with a `prov:generatedAtTime`, through two
interfaces:

- **Raw data** (`RawData`). Every observation is appended to the current
  fragment file. The store rolls over to a new file, named by the
  observation's time, once the current file has grown past the configured
  size. `/latest` serves the last observation with an ETag and conditional
  GET. `/fragments?time=…` searches the fragment starts with
  `dateBinarySearch`. It redirects to the fragment that covers the time, or
  serves that fragment with Hydra paging metadata and a cache policy.
- **Statistical average** (`StatisticalAverage`, `Aggregate`, `Levels`).
  Every observation is folded into the hour, day, month and year fragments
  of its generated-at time. Each fragment keeps an integer floor running
  mean per parking lot and a sample size. A missing fragment is created
  from the level below it, by relabelling. The fragments are served per
  route, with a Hydra search template on every level except the hour.

Both interfaces are subscribers of the `DataEventManager`, a table from
labels to ordered listener lists.

Layout, one module per file:

| file | module | contents |
|---|---|---|
| wrappers.dfy | Wrappers | `Option` |
| calendar.dfy | Calendar | UTC instants; `YYYY`/`MM`/`DD`/`HH` keys and `toISOString`; +1 hour/day/month/year; epoch milliseconds |
| rdf.dfy | Rdf | terms, statements, the vocabulary IRIs |
| http.dfy | Http | response records |
| utils.dfy | Utils | `dateBinarySearch` (a method with its loop), `getTriplesBySPOG` |
| event_manager.dfy | DataEventManager | class `EventManager` over the listener table |
| raw_data.dfy | RawData | class `RawDataInterface` (the store's fields), `/latest`, `/fragments`, `createMetadata` |
| aggregate.dfy | Aggregate | `calculateMean`, `getPVFromRawData`, `createHourFragment`, `updateHourFragment`, `updateFragment` |
| levels.dfy | Levels | `createDayFragment`, `createMonthFragment`, `createYearFragment` (in place on arrays) |
| statistical_average.dfy | StatisticalAverage | the `handle*Level` cascade, class `StatisticalAverageInterface`, routes, `handleRequest`, `addMetadata` |

Modelling choices:

- The loops that write state step by step stay methods with loops, and
  each is proved equal to a recursive function of its inputs. This covers
  the binary search, the statement rewrites of the update and create
  functions (on `array<Triple>`, in place), `getPVFromRawData` and the
  quad loop of `createMetadata`. The properties are lemmas about those
  functions.
- Objects whose fields change are classes: the listener table, the raw
  store's `byteCounter`, `lastFragment`, `latestData` and `lastGat`, and the
  aggregator's fragment files. The files are a map from path to content:
  text for the raw store and parsed statements for the aggregator.
- N3 parsing and serialisation are taken to round-trip. The aggregator's
  files therefore hold statements, and the mean and sample-size objects are
  integer literals (`IntLit`). Where JavaScript would write `NaN` or
  `Infinity`, the model writes a plain literal with that text.

## Model

| member | source | states |
|---|---|---|
| Utils.LastAtOrBefore | lib/Utils.js:115-155 | reference answer of the search: the last start at or before the target, or 0 when the target precedes all starts; always a valid index |
| Utils.LastAtOrBeforeUnique | lib/Utils.js:127-151 | over strictly ascending starts, an index i with F[i] <= T (or i = 0) and T < F[i+1] (or i last) is exactly that answer |
| Utils.LastAtOrBeforeAtStart | lib/Utils.js:134-142 | a target equal to F[j] of strictly ascending starts resolves to j |
| Utils.DateBinarySearch | lib/Utils.js:115-155 | returns (F[i], i) with i in bounds. It gives 0 when T <= F[0] and n-1 when T >= F[n-1]; otherwise F[i] <= T. For strictly ascending F it also gives T < F[i+1] (unless i is last), the index j when T == F[j], and exactly the reference answer. The loop terminates and every probe is in bounds. |
| Utils.Lookup | lib/Utils.js:131-145 | a JavaScript array read: a value exactly when the index is in bounds, and the element there |
| Utils.JsSearchEntry | lib/Utils.js:116-125 | an empty listing passes both clamps and enters the loop with min 0 and max -1 |
| Utils.EmptyListingNeverFinishes | lib/Utils.js:127-151 | the loop as written, on an empty listing, is still searching at (0, -1) after any number of iterations |
| Utils.Filter | lib/Utils.js:202 | `filter`: never longer than the input, and it holds exactly the input statements that meet the criterion |
| Utils.Criteria | lib/Utils.js:201-215 | at most four filters, one per truthy argument |
| Utils.GetTriplesBySPOG | lib/Utils.js:198-218 | the result is drawn from the input and meets every supplied criterion; with no criteria it is the input itself |
| Utils.SpogSelectsMatching | lib/Utils.js:198-218 | the result is the chain of filters for the supplied criteria, in subject, predicate, object, graph order |
| Utils.SelectNothing | lib/Utils.js:199-217 | an empty chain of filters returns the input unchanged |
| Utils.FilterSelect | lib/Utils.js:199-217 | one more `filter` on the chain's result is the chain with one more criterion |
| Utils.OptionalStage | lib/Utils.js:201-215 | each `if (x) temp = temp.filter(...)` step extends the chain by that criterion exactly when it is active |
| Utils.FilterConcat | lib/Utils.js:202 | filtering a concatenation is the concatenation of the filtered parts, so order is preserved |
| Utils.FirstMatch | lib/Utils.js:198-218 | the position of the first statement meeting a criterion, at most the length |
| Utils.FirstMatchSpec | lib/Utils.js:198-218 | the statement at that position meets the criterion and none before it does |
| Utils.FirstMatchIs | lib/Utils.js:198-218 | any position with that property is the first match |
| Utils.FilterFirstMatch | lib/interfaces/StatisticalAverage.js:229 | `getTriplesBySPOG(...)[0]` exists exactly when some statement matches, and is the first matching one |
| DataEventManager.Subscribed | lib/DataEventManager.js:5-8 | the label gets the callback at the end of its list, a new label starts from an empty list, and other labels keep their lists |
| DataEventManager.Invocations | lib/DataEventManager.js:14-16 | one call per listener |
| DataEventManager.InvocationsAt | lib/DataEventManager.js:14-16 | the i-th call goes to the i-th listener with the same arguments |
| DataEventManager.SubscribeThenDeliver | lib/DataEventManager.js:5-17 | after a subscribe, a push calls the earlier listeners in order and then the new one |
| DataEventManager.SubscribeKeepsOtherLabels | lib/DataEventManager.js:5-11 | subscribing to one label leaves every other label's listeners unchanged |
| DataEventManager.EventManager.constructor | lib/DataEventManager.js:1 | the table starts empty |
| DataEventManager.EventManager.Subscribe | lib/DataEventManager.js:5-8 | the new table is the old one with the callback appended to the label's list |
| DataEventManager.EventManager.Push | lib/DataEventManager.js:10-20 | true exactly when the label has a non-empty list; then every listener is called once, in subscription order, with the same arguments; otherwise nothing is called |
| DataEventManager.PushIsInvocations | lib/DataEventManager.js:10-20 | the calls `Push` makes are the invocations of the label's listeners |
| RawData.Utf8Length | lib/interfaces/RawData.js:155 | `Buffer.byteLength` of UTF-8 text lies between its length and four times its length |
| RawData.Utf8LengthConcat | lib/interfaces/RawData.js:154-156 | the byte length of a concatenation is the sum of the byte lengths |
| RawData.StoreStep | lib/interfaces/RawData.js:147-157 | the observation is appended to `lastFragment`, every other file is unchanged, the only file that can appear is `lastFragment`, and the store stays consistent |
| RawData.RolloverRule | lib/interfaces/RawData.js:148-156 | on rollover (counter 0 or above the maximum) `lastFragment` becomes `fragmentsPath/ISO(lastGat).trig` and the counter becomes the observation's bytes; otherwise `lastFragment` is unchanged and the counter grows by the bytes |
| RawData.AtMaximumNoRollover | lib/interfaces/RawData.js:148 | the comparison is strict: a counter equal to the maximum keeps the fragment and adds the bytes |
| RawData.PastMaximumOpensFragment | lib/interfaces/RawData.js:148-156 | a counter past the maximum opens the fragment named by the new observation's time. The observation is appended there, the counter restarts at its bytes, and the previous fragment is not touched. |
| RawData.InitStep | lib/interfaces/RawData.js:55-70 | `init` loads the static triples on its first call, records the observation and its generated-at time, then stores it |
| RawData.IngestAll | lib/interfaces/RawData.js:37-40 | `init` runs over an array in order, and afterwards the latest data is the last element; an empty array changes nothing |
| RawData.Ingest | lib/interfaces/RawData.js:36-44 | `onData` keeps the store consistent for an array and for a single observation |
| RawData.IngestAllConcat | lib/interfaces/RawData.js:37-40 | ingesting a + b is ingesting a, then b |
| RawData.IngestAllStep | lib/interfaces/RawData.js:38-40 | element i is handled by one `init` after the elements before it |
| RawData.WrappedSingleIsSingle | lib/interfaces/RawData.js:36-44 | an observation wrapped in a one-element array (as lib/MultidimensionalInterface.js:11 delivers it) is stored exactly as the bare observation |
| RawData.RawDataInterface.constructor | lib/interfaces/RawData.js:10-22 | counter 0, no fragment, no data, no time, static triples not loaded yet, and the files on disk |
| RawData.RawDataInterface.StoreData | lib/interfaces/RawData.js:147-157 | the new fields and files are `StoreStep` of the old ones |
| RawData.RawDataInterface.Init | lib/interfaces/RawData.js:55-70 | the new fields and files are `InitStep` of the old ones |
| RawData.RawDataInterface.OnData | lib/interfaces/RawData.js:36-44 | the new fields and files are `Ingest` of the old ones |
| RawData.LatestResponse | lib/interfaces/RawData.js:76-101 | 404 "No data found" exactly when there is no data. 304 with no body exactly when `If-None-Match` equals `W/"md5(lastGat)"`. Otherwise 200 with the ETag, Last-Modified (UTC string) and Content-Type headers and the static triples followed by the observation. The non-200 answers carry only the CORS header. |
| RawData.ConditionalGetRevalidates | lib/interfaces/RawData.js:82-89 | sending back the ETag of a 200 answer yields 304 |
| RawData.IndexOfFrom | lib/interfaces/RawData.js:258 | `indexOf`: -1, or a position at or after the start where the pattern occurs |
| RawData.IndexOfFirst | lib/interfaces/RawData.js:258 | `indexOf` returns the first occurrence |
| RawData.TrimTrigSuffix | lib/interfaces/RawData.js:258 | `substring(0, indexOf('.trig'))` of `stem + ".trig"` is the stem when the stem holds no 't' |
| RawData.TrimFragmentName | lib/interfaces/RawData.js:258 | trimming a fragment file name `ISO(t).trig` gives back `ISO(t)` |
| RawData.NonContext | lib/interfaces/RawData.js:164-166 | the metadata entries the loop keeps, never more than given |
| RawData.NonContextMembers | lib/interfaces/RawData.js:164-166 | exactly the entries whose key is not `@context` |
| RawData.ConfiguredQuads | lib/interfaces/RawData.js:164-187 | one quad per non-`@context` entry |
| RawData.ConfiguredQuadsDescribe | lib/interfaces/RawData.js:164-187 | quad j is about the page, in `#Metadata`, has predicate entry j's key, and its text is entry j's value; the object is a named node exactly when `@type` is `@id` |
| RawData.AddConfigured | lib/interfaces/RawData.js:164-187 | the loop builds exactly those quads |
| RawData.SearchTemplate | lib/interfaces/RawData.js:189-253 | the search template block is always eight quads |
| RawData.ConfiguredQuadsNoLinks | lib/interfaces/RawData.js:164-187 | configured quads are in `#Metadata` and are no paging links when no key is `hydra:next`/`hydra:previous` |
| RawData.SearchTemplateNoLinks | lib/interfaces/RawData.js:189-253 | the template block holds no paging link |
| RawData.PagingLinks | lib/interfaces/RawData.js:159-270 | `createMetadata` emits the configured quads, eight template quads and one more exactly when index > 0. It never emits `hydra:next`, and emits a `hydra:previous` exactly when index > 0, pointing from the page to `baseUri?time=` plus the previous name with `.trig` trimmed. |
| RawData.PreviousIsCanonical | lib/interfaces/RawData.js:255-267 | when the previous file is `ISO(p).trig`, the previous link is the canonical page URI of p |
| RawData.CreateMetadata | lib/interfaces/RawData.js:159-270 | the method's quads are `PagingMetadata` |
| RawData.Millis | lib/interfaces/RawData.js:114 | the listing mapped to `getTime()`, element by element |
| RawData.EarlyTimeRedirectsToFirst | lib/interfaces/RawData.js:114-121 | a time before the first fragment redirects (302) to the first fragment |
| RawData.InnerTimeRedirectsToCovering | lib/interfaces/RawData.js:114-121 | a time strictly inside fragment j redirects to fragment j's start |
| RawData.ExactStartIsServed | lib/interfaces/RawData.js:117-143 | the exact start of fragment j is served with 200, fragment j's file and its paging metadata. It is cached as immutable exactly when j is not the last fragment, and it fails only when no static triples were loaded. |
| RawData.ServedAtStart | lib/interfaces/RawData.js:124-143 | the served answer for a resolved start that equals the query |
| RawData.CacheControl | lib/interfaces/RawData.js:137-143 | the Cache-Control header is always set, and is the immutable one exactly for a closed fragment |
| RawData.HandleFragments | lib/interfaces/RawData.js:104-144 | the handler's answer: a redirect to now for an unparsable time, otherwise the search's outcome (404 for an empty folder) |
| RawData.ServeFragment | lib/interfaces/RawData.js:114-143 | after `dateBinarySearch`: a redirect when the resolved start differs from the query, otherwise the served page |
| Http.Redirect | lib/interfaces/RawData.js:109-110 | 302 with the Location header set to the URL |
| Aggregate.FloorDiv | lib/interfaces/StatisticalAverage.js:443 | `Math.floor` of a quotient: q*d <= x < (q+1)*d for a positive divisor |
| Aggregate.CalculateMean | lib/interfaces/StatisticalAverage.js:442-444 | floor((a*s + n)/(s+1)). For s >= 0 the result lies between min(a, n) and max(a, n). |
| Aggregate.MeanWithin | lib/interfaces/StatisticalAverage.js:442-444 | the floor running mean never leaves the range of the old mean and the new value |
| Aggregate.MeanTerm | lib/interfaces/StatisticalAverage.js:235-236 | the literal written is an integer exactly when both numbers parse and the divisor is nonzero, and it is then within their range |
| Aggregate.RunningMeanBounds | lib/interfaces/StatisticalAverage.js:235-236 | readings folded in one by one keep the mean within any bounds of the readings |
| Aggregate.RunningMeanExample | lib/interfaces/StatisticalAverage.js:442-444 | 10, 20, 30 folded in sequence give means 10, 15, 20 |
| Aggregate.ReadingValuesKeys | lib/interfaces/StatisticalAverage.js:432-440 | the value map has exactly the subjects of vacancy statements |
| Aggregate.ReadingValuesLast | lib/interfaces/StatisticalAverage.js:432-440 | a subject maps to the value of its last vacancy statement |
| Aggregate.GetPVFromRawData | lib/interfaces/StatisticalAverage.js:432-440 | the loop builds that value map |
| Aggregate.Description | lib/interfaces/StatisticalAverage.js:198-222 | the five appended statements |
| Aggregate.DescriptionHasNoMeans | lib/interfaces/StatisticalAverage.js:198-222 | none of them is a mean |
| Aggregate.Rewritten | lib/interfaces/StatisticalAverage.js:186-196 | the hour rewrite keeps the number of statements |
| Aggregate.RewrittenStatements | lib/interfaces/StatisticalAverage.js:186-196 | a vacancy statement becomes a mean in the fragment's graph with the same subject and value; a generated-at statement gets the fragment as subject; every other statement is unchanged |
| Aggregate.RewrittenMeans | lib/interfaces/StatisticalAverage.js:187-191 | the mean subjects written are exactly the keys of the value map |
| Aggregate.MeanSubjectsConcat | lib/interfaces/StatisticalAverage.js:186-222 | the mean subjects of two parts are the union of theirs |
| Aggregate.RewriteObservation | lib/interfaces/StatisticalAverage.js:186-196 | the loop yields the rewrite and the value map |
| Aggregate.CreateHourFragment | lib/interfaces/StatisticalAverage.js:169-225 | returns `HourFragment` and the observation's value map |
| Aggregate.HourFragmentShape | lib/interfaces/StatisticalAverage.js:169-225 | the rewritten observation followed by exactly five statements, the last being `sampleSize 1`; the mean subjects are the value map's keys |
| Aggregate.DescriptionSample | lib/interfaces/StatisticalAverage.js:218-222 | the first sample size after the description is 1 |
| Aggregate.HourStartsAtOneSample | lib/interfaces/StatisticalAverage.js:218-222 | a created hour fragment has sample size 1 |
| Aggregate.UpdateHour | lib/interfaces/StatisticalAverage.js:227-250 | `updateHourFragment` keeps the number of statements |
| Aggregate.Update | lib/interfaces/StatisticalAverage.js:366-387 | `updateFragment` keeps the number of statements |
| Aggregate.UpdateHourFragment | lib/interfaces/StatisticalAverage.js:227-250 | the array is rewritten in place to `UpdateHour` of its old contents, with the sample read from the first sample-size statement |
| Aggregate.UpdateFragment | lib/interfaces/StatisticalAverage.js:366-387 | the array is rewritten in place to `Update` of its old contents, and the returned map is the updated incoming map |
| Aggregate.UpdateHourStep | lib/interfaces/StatisticalAverage.js:233-247 | one loop iteration of `updateHourFragment` |
| Aggregate.UpdateStep | lib/interfaces/StatisticalAverage.js:370-384 | one loop iteration of `updateFragment` |
| Aggregate.RewriteStatement | lib/interfaces/StatisticalAverage.js:234-246 | the loop body's rewrite, keeping subject, predicate and graph |
| Aggregate.RewriteKeeps | lib/interfaces/StatisticalAverage.js:233-247 | a mean becomes `calculateMean(new, old, sample)`, generated-at becomes `gat`, sample size becomes sample+1, and anything else is unchanged |
| Aggregate.UpdateHourAt | lib/interfaces/StatisticalAverage.js:233-247 | statement i is rewritten with the observation's value for its subject |
| Aggregate.UpdateAt | lib/interfaces/StatisticalAverage.js:370-384 | statement i is rewritten with the map as the earlier iterations left it |
| Aggregate.MeanSubjectsSnoc | lib/interfaces/StatisticalAverage.js:371-374 | one more statement adds its subject exactly when it is a mean |
| Aggregate.UpdateHourKeys | lib/interfaces/StatisticalAverage.js:231-237 | the returned map has exactly the mean subjects |
| Aggregate.UpdateKeepsOthers | lib/interfaces/StatisticalAverage.js:366-387 | the returned map adds the mean subjects to the incoming keys and keeps every other incoming entry |
| Aggregate.UpdateHourMeanValue | lib/interfaces/StatisticalAverage.js:233-237 | the returned map sends the subject of a mean statement (with no later mean about it) to the mean just written there |
| Aggregate.UpdateMeanValue | lib/interfaces/StatisticalAverage.js:370-374 | the map `updateFragment` returns, and hands upwards, sends the subject of a mean statement (with no later mean about it) to the mean just written there |
| Aggregate.FirstMeanReadsIncoming | lib/interfaces/StatisticalAverage.js:371-374 | the first mean about a subject folds in the incoming value |
| Aggregate.SampleStatementsFilter | lib/interfaces/StatisticalAverage.js:229 | the sample statements are `getTriplesBySPOG(old, null, sampleSize)` |
| Aggregate.NextSample | lib/interfaces/StatisticalAverage.js:229-230 | after the sample statements are rewritten to one literal, the sample read next is that literal |
| Aggregate.UpdateHourCountsSample | lib/interfaces/StatisticalAverage.js:229-245 | after an hour update the sample read next is the old one plus one |
| Aggregate.HourFragmentHoldsFirstReading | lib/interfaces/StatisticalAverage.js:186-222 | a new hour fragment holds, for a reading x, a mean statement `RunningMean([x])` and sample size 1 |
| Aggregate.UpdateHourFoldsReading | lib/interfaces/StatisticalAverage.js:227-250 | an hour update of a fragment holding `RunningMean(xs)` with sample size n (the number of readings xs), given the reading x, holds `RunningMean(xs + [x])` with sample size n + 1; with the lemma above, by induction, a fragment created and updated with readings xs holds their running mean |
| Aggregate.UpdateCountsSample | lib/interfaces/StatisticalAverage.js:367-382 | after a day, month or year update the sample read next is the old one plus one |
| Levels.Advance | lib/interfaces/StatisticalAverage.js:276-277 | `add(1, unit)` yields a valid date |
| Levels.Moment | lib/interfaces/StatisticalAverage.js:272-277 | the start moved on k units yields a valid date |
| Levels.Finals | lib/interfaces/StatisticalAverage.js:276-277 | the number of `final` statements |
| Levels.Relabelled | lib/interfaces/StatisticalAverage.js:265-287 | the relabelling pass keeps the number of statements |
| Levels.CursorAfter | lib/interfaces/StatisticalAverage.js:272-277 | the shared `tempDate` has moved on one unit per `final` statement passed |
| Levels.NoFinalsYet | lib/interfaces/StatisticalAverage.js:272-277 | `tempDate` stays at the start until a `final` is passed |
| Levels.RelabelKeeps | lib/interfaces/StatisticalAverage.js:265-286 | a statement with a graph moves to the fragment's graph, and one without gets the fragment as subject. `initial`/`final` get the cursor and the next moment, the range gate gets the gate, the sample size gets 1, and anything else keeps its object. |
| Levels.RelabelledPrefix | lib/interfaces/StatisticalAverage.js:265-287 | extending the level does not change the statements already relabelled |
| Levels.RelabelledAt | lib/interfaces/StatisticalAverage.js:265-287 | statement i depends only on the statements up to i |
| Levels.RelabelledShape | lib/interfaces/StatisticalAverage.js:265-286 | the relabelling of statement i of the whole level, case by case |
| Levels.DescriptionInterval | lib/interfaces/StatisticalAverage.js:272-277 | before any `final`, `initial` is the start of the bucket and `final` is one unit later |
| Levels.RelabelledSample | lib/interfaces/StatisticalAverage.js:284-286 | the sample size read from a relabelled level is 1 |
| Levels.RelabelledMeans | lib/interfaces/StatisticalAverage.js:265-270 | means stay means about the same subjects with the same values, now in the fragment's graph |
| Levels.HourMeansNamed | lib/interfaces/StatisticalAverage.js:186-191 | every mean of a created hour fragment sits in a named graph |
| Levels.WithoutRangeGates | lib/interfaces/StatisticalAverage.js:359 | the year filter keeps exactly the statements that are not `hasRangeGate` |
| Levels.RangeGatesKeepSamples | lib/interfaces/StatisticalAverage.js:359 | the filter leaves the sample statements unchanged |
| Levels.YearFragmentShape | lib/interfaces/StatisticalAverage.js:333-364 | the year fragment has no range gate, keeps every other relabelled statement, and has sample size 1 |
| Levels.RelabelStatement | lib/interfaces/StatisticalAverage.js:265-286 | the loop body: the relabelled statement, and `tempDate` advanced exactly at a `final` |
| Levels.RelabelStep | lib/interfaces/StatisticalAverage.js:265-287 | one iteration of the relabelling loop |
| Levels.RelabelNext | lib/interfaces/StatisticalAverage.js:265-287 | one iteration keeps the loop's state equal to the pass over the prefix |
| Levels.RelabelLevel | lib/interfaces/StatisticalAverage.js:265-287 | the array is relabelled in place |
| Levels.CreateDayFragment | lib/interfaces/StatisticalAverage.js:252-292 | the hour level's array becomes `DayFragment` in place |
| Levels.CreateMonthFragment | lib/interfaces/StatisticalAverage.js:294-331 | the day level's array becomes `MonthFragment` in place |
| Levels.CreateYearFragment | lib/interfaces/StatisticalAverage.js:333-364 | the month level's array is relabelled in place, and the result is the relabelled level without range gates |
| Calendar.DaysInMonth | lib/interfaces/StatisticalAverage.js:173 | 28 to 31 days, 29 exactly in February of a leap year |
| Calendar.AddOneHour | lib/interfaces/StatisticalAverage.js:175 | `add(1, 'h')`: a valid date whose hour is the next hour of the day |
| Calendar.AddOneDay | lib/interfaces/StatisticalAverage.js:173 | `add(1, 'd')`: a valid date at the same time of day |
| Calendar.AddOneMonth | lib/interfaces/StatisticalAverage.js:171 | `add(1, 'M')`: a valid date in the next month |
| Calendar.AddOneYear | lib/interfaces/StatisticalAverage.js:351 | `add(1, 'y')`: a valid date in the same month of the next year |
| Calendar.NatToString | lib/interfaces/StatisticalAverage.js:177 | a number concatenated into a string gives at least one digit and digits only |
| Calendar.NumeralIsFixed | lib/interfaces/StatisticalAverage.js:177 | a number of w digits prints as its w-digit zero-padded form |
| Calendar.NumeralOfYear | lib/interfaces/StatisticalAverage.js:177 | for years 1000..9999 `gat.year()` prints as `format('YYYY')` |
| Calendar.YearKey | lib/interfaces/StatisticalAverage.js:98 | the `YYYY` key is digits only |
| Calendar.DigitsHaveNoUnderscore | lib/interfaces/StatisticalAverage.js:52 | digits hold no '_' for `split('_')` to find |
| Calendar.IsoChars | lib/interfaces/RawData.js:150 | `toISOString` text holds no 't' and no '_' |
| StatisticalAverage.BucketPathsDistinct | lib/interfaces/StatisticalAverage.js:98-152 | the hour, day, month and year files are four different paths |
| StatisticalAverage.SplitHead | lib/interfaces/StatisticalAverage.js:52 | `split('_')[0]` is the prefix before the first '_' |
| StatisticalAverage.SplitHeadOf | lib/interfaces/StatisticalAverage.js:52-73 | on `a_b` with no '_' in a it gives a |
| StatisticalAverage.FieldHead | lib/interfaces/StatisticalAverage.js:58-73 | on a two-digit `MM_MM` segment it gives the first field |
| StatisticalAverage.YearHead | lib/interfaces/StatisticalAverage.js:52 | on the year segment `YYYY_YYYY+1` it gives the `YYYY` key |
| StatisticalAverage.SegmentHeads | lib/interfaces/StatisticalAverage.js:50-76 | on each segment of a fragment id it gives that level's key |
| StatisticalAverage.BucketRoutes | lib/interfaces/StatisticalAverage.js:50-76 | the route of each fragment id reads the very file its `handle*Level` writes |
| StatisticalAverage.AddMetadata | lib/interfaces/StatisticalAverage.js:389-430 | eight statements about the id, its `#search` and its `#mapping`, none in a named graph, with the template `id/{+initial_final}` |
| StatisticalAverage.ReadFile | lib/interfaces/StatisticalAverage.js:104 | a stored file is read into a fresh array |
| StatisticalAverage.StatisticalAverageInterface.constructor | lib/interfaces/StatisticalAverage.js:6-13 | the interface starts over the files on disk with no latest data |
| StatisticalAverage.StatisticalAverageInterface.HandleHourLevel | lib/interfaces/StatisticalAverage.js:97-113 | the files and the level handed on are `HourStage` of the old files |
| StatisticalAverage.StatisticalAverageInterface.HandleUpperLevel | lib/interfaces/StatisticalAverage.js:115-167 | the files and the level handed on are `UpperStage` of the old files |
| StatisticalAverage.StatisticalAverageInterface.OnData | lib/interfaces/StatisticalAverage.js:27-36 | records the observation and its time; the files become `Ingest` of the old files |
| StatisticalAverage.StatisticalAverageInterface.HandleRequest | lib/interfaces/StatisticalAverage.js:50-95 | 404 for a missing file. The hour route serves the static statements and the file. The other routes also append `addMetadata` for the subject of the first generated-at statement, and fail when there is none. |
| StatisticalAverage.HourStageWrites | lib/interfaces/StatisticalAverage.js:97-113 | the hour level writes only the hour file |
| StatisticalAverage.UpperStageWrites | lib/interfaces/StatisticalAverage.js:115-167 | a day, month or year level writes only its own file |
| StatisticalAverage.HourStageCompletes | lib/interfaces/StatisticalAverage.js:102-110 | the hour level hands a level on exactly when its file is missing or has a sample size, and then the file exists |
| StatisticalAverage.UpperStageCompletes | lib/interfaces/StatisticalAverage.js:120-128 | an upper level hands a level on exactly when it got one and its file is missing or has a sample size |
| StatisticalAverage.CascadeWritesOnly | lib/interfaces/StatisticalAverage.js:33-36 | the cascade touches only its four files |
| StatisticalAverage.IngestWritesOnlyBuckets | lib/interfaces/StatisticalAverage.js:27-36 | `onData` touches only the four bucket files of the generated-at time |
| StatisticalAverage.CascadeCompletes | lib/interfaces/StatisticalAverage.js:33-36 | the cascade reaches the year exactly when all four files are readable, and then all four exist |
| StatisticalAverage.IngestCompletes | lib/interfaces/StatisticalAverage.js:27-36 | the same for the bucket files of the generated-at time |
| StatisticalAverage.HourStageCreates | lib/interfaces/StatisticalAverage.js:107-109 | a missing hour file is created from the observation and hands on the observation's values |
| StatisticalAverage.UpperStageCreates | lib/interfaces/StatisticalAverage.js:124-127 | a missing upper file is created from the level below and hands on that level's values unchanged |
| StatisticalAverage.CascadeCreates | lib/interfaces/StatisticalAverage.js:33-162 | with four missing files, each level is created from the one below, and the observation's values reach the year |
| StatisticalAverage.FirstOfYear | lib/interfaces/StatisticalAverage.js:27-36 | the first observation of a year creates its hour, day, month and year fragments in one cascade |
| StatisticalAverage.CreatedCountsOne | lib/interfaces/StatisticalAverage.js:284-355 | a created day, month or year fragment has sample size 1 |
| StatisticalAverage.HourStageCounts | lib/interfaces/StatisticalAverage.js:97-113 | the hour file's sample size becomes 1 on creation and the old one plus one on update; the level handed on is the file written |
| StatisticalAverage.UpperStageCounts | lib/interfaces/StatisticalAverage.js:115-167 | the same for a day, month or year file |
| StatisticalAverage.CascadeCounts | lib/interfaces/StatisticalAverage.js:33-36 | one cascade counts one more sample in each of its four files |
| StatisticalAverage.IngestCounts | lib/interfaces/StatisticalAverage.js:27-36 | `onData` counts one more sample in each bucket file, so after k updates following creation a fragment's sample size is k+1 |

## Left out

- N3 and TriG parsing and serialisation (`getQuadsFromString`, `getTriplesFromFile`, `formatQuads`, `formatTriples`) are taken to round-trip. They are not modelled: files hold parsed statements, and `FragmentPage`/`Statements` bodies stand for the serialised text.
- `getLiteralValue` and `parseInt` are modelled as reading an integer literal; any other object reads as `NaN`.
- md5 and the clock (`new Date()`) are parameters.
- `readdirSync` is a parameter as well. Its time order and its names being `ISO(start).trig` are a precondition (`ListingOf`), since the code assumes both.
- The generated-at time of an observation (`getGeneratedAtTimeValue`) comes in with the observation rather than being read from its statements.
- The parsing of `?time=` into a date is a parameter: `None` stands for `Invalid Date`.
- The file system is a map from path to content. `exists` is membership, `appendFile` is concatenation and `writeFile` is replacement.
- Koa, the routers and the headers Koa adds by itself are left out and modelled as a returned response record. `Http.InternalError` stands for a handler that throws.
- The WebSocket push of both interfaces is left out, including the aliased `hlevel[0]` payload at lib/interfaces/StatisticalAverage.js:39-44, which can reflect later levels. Files are formatted before the next level mutates the array, so each level's persisted content is modelled functionally.
- The unawaited `init`/`storeData` calls are modelled strictly in sequence: one observation is stored completely before the next.
- `parseStaticData` is not modelled: the text it produces is the configuration's `staticText`, which the first `init` loads. `/latest` and `/fragments` fail when no `init` has loaded it yet.
- `compactJsonldBlankNodes` in lib/Utils.js, lib/SourceReader.js, lib/RMLMapper.js, lib/Configuration.js, lib/CommunicationManager.js, lib/WebSocketClient.js and bin/ are not part of this model.
- Years outside 1000..9999 are excluded by precondition (`Valid`), because below 1000 `gat.year()` and `format('YYYY')` print differently. Time zones are outside the model: all instants are UTC, as `gat.utc()` makes them.
- Full `Date` parsing is left out. The time of a fragment file name is recovered by trimming `.trig` only.
- `NaN` and `Infinity` means are written as plain literals with that text, rather than excluded by precondition.
- Means and sample sizes are unbounded integers. In JavaScript they are IEEE doubles (`(aggregate * sample + n) / (sample + 1)`, `sampleValue + 1`), which agree with the integers only below 2^53; from 1e21 on the written literal is in exponent form, which the next `parseInt` misreads. The model does not capture either effect.
- StatisticalAverage.StatisticalAverageInterface.OnData: taken as atomic and strictly sequential. In the source the `async` handler is not awaited by `push` (lib/DataEventManager.js:15), so two observations can interleave at its awaits: both may find the hour file missing and both append a fragment, and `createHourFragment` reads `this.latestData` after an await and may pick up the next observation. A level that throws is an unhandled promise rejection, which on current Node versions ends the process; the model only stops the cascade there. The model does not capture interleaving or the process ending.
- StatisticalAverage.StatisticalAverageInterface.HandleHourLevel: receives the hour path from `OnData` under a precondition that pins it to `fragmentsPath/YYYY-MM-DDTHH.trig`, rather than formatting it itself.
- StatisticalAverage.StatisticalAverageInterface.HandleUpperLevel: likewise receives the day, month or year path under a precondition that pins it to that level's file name.
- RawData.Ingest: states only that the store stays consistent; what it does per element is stated by `IngestAll`, `IngestAllStep` and `IngestAllConcat`.

## Findings

| source | as written | input that shows it | evidently intended | confidence | as-written member | corrected member |
|---|---|---|---|---|---|---|
| lib/Utils.js:115-151 | `dateBinarySearch`, called by the `/fragments` handler on an empty listing, passes both clamps (comparisons with `undefined` are false), and the loop stays at min 0 and max -1 forever, because `mid` is -1 and every probe reads `undefined` | a `/fragments?time=<valid date>` request before any fragment file exists | answer that no fragment exists (404); as written the synchronous loop blocks Node's single event loop, so every route and the ingestion of new observations stop, not just this request | not executed | Utils.EmptyListingNeverFinishes | RawData.HandleFragments |
