# Gap predictor: a verified model

This project models the core of the "Astra" learning-gap predictor demo. A
student's attempts at maths problems are recorded as **attempt events**. Each
event has:

- concept tags;
- correctness;
- time spent and hints used;
- an optional **error code**.

A rule-based **inference engine** turns the event log into a ranked list of
**gap predictions**, one per struggling concept. Each prediction has a
confidence in [0, 1], a severity, rationale lines and recommended next steps.

An **event store** holds the log. It:

- persists the log to browser storage after every change;
- re-reads it on start;
- exposes it sorted by timestamp;
- simulates backend latency when a new attempt is ingested.

A standalone **demo page** carries its own copy of the engine, with different
wording and recommendation tables. It also has two buttons that append
simulated wrong attempts.

Modules:

- `Types`: the closed enumerations, the wire names and the concept labels.
- `Inference`: the engine.
  - It is written once, parameterised by a `Tables` value: the signature heading, the error descriptions and the recommendation table.
  - It is instantiated as `LibraryTables` for the library and `Page.PageTables` for the page.
  - `ComputeGapPredictions`, `GroupByConcept` and `CountErrorCodes` are the source's loops.
  - Each is proved equal to the specification function `GapPredictions`, `Group(TagStream(..))` or `CountErrors`.
- `InferenceProperties`: what the engine promises, for every log and both tables.
  - Grouping equals the reference `ConceptEvents`.
  - Concepts with fewer than two events are skipped.
  - Confidence is bounded and severity follows the thresholds.
  - Low-signal concepts are suppressed.
  - The top error is the earliest maximum.
  - The rationale has a fixed shape.
  - The output has no duplicate concept and never increases in confidence.
  - Predictions of equal confidence keep the grouping map's key order.
- `Sorting`: `Array.prototype.sort` as an insertion sort on a numeric key.
  - It is proved a permutation of its input, in key order.
  - It is proved stable: for every key value, the elements with that key keep their input order.
- `OrderedMaps`: JavaScript's `Map`, whose keys iterate in first-insertion order.
- `Latency`: the simulated delay, with the random draw as a parameter `u` in [0, 1).
- `Persistence`: the stored JSON shape.
  - `isAttemptEvent` and `readFromStorage` are modelled.
  - The encoding is proved to read back as the same log.
- `EventStore`: the store as a class.
  - Ingest is modelled in two halves, and reset and clear are modelled.
  - The persist effect keeps storage durable.
  - A browser storage class stands in for `localStorage`.
- `DemoData`: the four-attempt seed, as a function of the clock reading and four ids.
- `Scenarios`: what the engine makes of the seed and of single-attempt logs.
- `Page`: the page's tables, its simulated attempts and its state.

JavaScript numbers are modelled as exact `real`s. Rationale lines are a
structured datatype that records the numbers each line prints. The clock, the
random draw and generated ids are parameters.

One behaviour of the source is stated as a lemma,
`Scenarios.DuplicateTagCountsTwice`. Grouping pushes an event once per tag
occurrence, so a single wrong attempt tagged twice with one concept already
forms a two-event, high-severity gap.

## Model

| member | source | states |
|---|---|---|
| Types.ConceptIsClosed | src/lib/gap-predictor/types.ts:3-8 | every concept is one of exactly five pairwise distinct values |
| Types.ErrorCodeIsClosed | src/lib/gap-predictor/types.ts:10-14 | every error code is one of exactly four pairwise distinct values |
| Types.ConceptFromName | src/lib/gap-predictor/types.ts:3-8 | a string decodes to a concept exactly when it is that concept's wire name; any other string decodes to nothing |
| Types.ErrorCodeFromName | src/lib/gap-predictor/types.ts:10-14 | a string decodes to an error code exactly when it is that code's wire name; any other string decodes to nothing |
| Types.NamesRoundTrip | src/lib/gap-predictor/types.ts:3-14 | every concept and error code reads back from its wire name |
| Types.ConceptLabelsDistinct | src/lib/gap-predictor/types.ts:42-48 | the label table is total and no two concepts share a label |
| Inference.Clamp01 | src/lib/gap-predictor/inference.ts:6-8 | result in [0, 1]; the input itself inside [0, 1], 0 below it, 1 above it |
| Inference.RepeatedBoost | src/lib/gap-predictor/inference.ts:55-57 | in [0, 0.35]; 0 without a top error; 0.35 when the top error covers every attempt |
| Inference.FrictionBoost | src/lib/gap-predictor/inference.ts:59-61 | in [0, 0.4]; 0 for fast, hint-free work; 0.4 at 105 s and 2.2 hints or more |
| Inference.ConfidenceOf | src/lib/gap-predictor/inference.ts:63-65 | confidence in [0, 1] and never below 0.75 times the wrong rate |
| Inference.SeverityOf | src/lib/gap-predictor/inference.ts:67-72 | high iff > 0.72, medium iff in (0.48, 0.72], low iff <= 0.48 |
| Inference.Wrong | src/lib/gap-predictor/inference.ts:30 | holds exactly the incorrect attempts of the list, and no more of them than the list has |
| InferenceProperties.WrongKeepsMultiplicity | src/lib/gap-predictor/inference.ts:30 | every incorrect attempt is kept as many times as the list holds it, and no correct one is kept |
| Inference.WrongRate | src/lib/gap-predictor/inference.ts:31 | the wrong rate lies in [0, 1] |
| Inference.Rationale | src/lib/gap-predictor/inference.ts:77-102 | 1 to 4 lines in the fixed order; the first is wrong/total; the signature line iff a top error, with its description and count; the hint line iff avg hints >= 1, and then it carries that average; the slow line iff avg time >= 60, and then it carries that average |
| Inference.BuildRationale | src/lib/gap-predictor/inference.ts:77-102 | the pushes build exactly `Rationale` of the statistics |
| Inference.AnalyzeConcept | src/lib/gap-predictor/inference.ts:27-110 | the per-concept loop body (skip, filter, averages, counting, sort, boosts, suppression) yields exactly `Analyze` |
| Inference.Analyze | src/lib/gap-predictor/inference.ts:27-110 | nothing below 2 events; otherwise a prediction iff not (low and wrong rate < 0.34), carrying the concept, confidence, matching severity, rationale and the concept's recommendations |
| Inference.GroupByConcept | src/lib/gap-predictor/inference.ts:14-22 | the nested grouping loops build exactly `Group` of the (event, tag) stream |
| Inference.CountErrorCodes | src/lib/gap-predictor/inference.ts:40-48 | the counting loop builds exactly `CountErrors` of the wrong attempts |
| Inference.TopError | src/lib/gap-predictor/inference.ts:50-52 | no top error iff no code was counted; otherwise the top is a counted code paired with its own count |
| Inference.ComputeGapPredictions | src/lib/gap-predictor/inference.ts:10-114 | the imperative pass (group, per-concept statistics, suppression, push, sort) returns exactly `GapPredictions` |
| Inference.HumanizeErrorDistinguishesCodes | src/lib/gap-predictor/inference.ts:116-127 | the library's descriptions give distinct codes distinct text, the default branch covering `careless` |
| Inference.RecommendedActions | src/lib/gap-predictor/inference.ts:129-154 | three recommendations for fractions add/sub, negatives and algebra; otherwise the labelled warm-up and the quick recap |
| OrderedMaps.OrderedMap.Set | src/lib/gap-predictor/inference.ts:18-20 | `set` keeps every key listed once, updates the value and appends only a new key to the iteration order |
| OrderedMaps.EntriesListTheMap | src/lib/gap-predictor/inference.ts:26 | a pair is an entry iff its key maps to its value, and no key is listed twice |
| InferenceProperties.GroupIsConceptEvents | src/lib/gap-predictor/inference.ts:14-22 | each concept's group is its reference event list (log order, once per tag occurrence) and is present iff that list is non-empty |
| InferenceProperties.GroupAppendTags | src/lib/gap-predictor/inference.ts:16-21 | the inner loop over one event's tags adds that event to a concept once per occurrence of the tag |
| InferenceProperties.ConceptEventsMembers | src/lib/gap-predictor/inference.ts:17-19 | every event grouped under a concept is in the log and carries that tag |
| InferenceProperties.OccurrencesPositive | src/lib/gap-predictor/inference.ts:17 | a concept occurs among the tags iff it is one of them |
| InferenceProperties.ConceptEventsPush | src/lib/gap-predictor/inference.ts:16-21 | appending an event adds it to each concept once per occurrence, after the earlier ones |
| InferenceProperties.CodeCountPositive | src/lib/gap-predictor/inference.ts:41-47 | a code's count is positive iff some wrong attempt carries it |
| InferenceProperties.CountErrorsCounts | src/lib/gap-predictor/inference.ts:40-48 | `errorCounts` maps each code to its count and holds only codes that occur |
| InferenceProperties.TopErrorIsEarliestMaximum | src/lib/gap-predictor/inference.ts:40-52 | no top error iff no wrong attempt has a code; otherwise its count is the maximum, and every code inserted before it has a smaller count |
| InferenceProperties.TopOfCounts | src/lib/gap-predictor/inference.ts:50-52 | the descending stable sort's head is a maximum, and no earlier key has that count |
| InferenceProperties.SignatureNeedsErrorCode | src/lib/gap-predictor/inference.ts:40-90 | no top error iff no wrong attempt has a code, and then there is neither a repeated boost nor a signature line |
| InferenceProperties.CollectMembers | src/lib/gap-predictor/inference.ts:26-111 | the loop pushes the prediction of a visited concept, and only those |
| InferenceProperties.CollectDistinct | src/lib/gap-predictor/inference.ts:26-111 | distinct map keys give predictions with distinct concepts |
| InferenceProperties.CollectOrder | src/lib/gap-predictor/inference.ts:26-111 | the loop pushes predictions in the map's key order |
| InferenceProperties.PredictionsCharacterized | src/lib/gap-predictor/inference.ts:10-114 | the output is exactly the predictions the concepts' event lists yield, each concept at most once, in non-increasing confidence |
| InferenceProperties.TiesKeepFirstSeenOrder | src/lib/gap-predictor/inference.ts:10-114 | predictions of equal confidence appear in the grouping map's key order |
| InferenceProperties.EmptyInputNoPredictions | src/lib/gap-predictor/inference.ts:14-26 | an empty log yields no predictions |
| InferenceProperties.EmittedConceptsAreTagged | src/lib/gap-predictor/inference.ts:14-26 | every emitted concept is tagged by some event, and none is emitted twice |
| InferenceProperties.SparseConceptSkipped | src/lib/gap-predictor/inference.ts:27 | a concept with fewer than two events is never emitted |
| InferenceProperties.PredictionsWellFormed | src/lib/gap-predictor/inference.ts:27-110 | each emitted prediction has: at least two events; confidence in [0, 1] equal to its events' score; the threshold severity; no low severity with wrong rate < 0.34; the rationale shape; the table's recommendations |
| InferenceProperties.FrequentWrongIsEmitted | src/lib/gap-predictor/inference.ts:63-75 | a concept with at least two events and wrong rate >= 0.34 is always emitted |
| InferenceProperties.WrongOfAllWrong | src/lib/gap-predictor/inference.ts:30 | filtering an all-wrong list keeps it whole |
| InferenceProperties.AllWrongIsHigh | src/lib/gap-predictor/inference.ts:29-72 | two or more attempts, all wrong, give a high-severity prediction |
| InferenceProperties.AllWrongLogAllHigh | src/lib/gap-predictor/inference.ts:10-114 | on an all-wrong log every prediction is high, and every concept with two or more events is emitted |
| Sorting.Insert | src/lib/gap-predictor/inference.ts:113 | inserting into a sorted list gives a sorted permutation of it plus the element; among elements of the element's key it comes first, and every key's elements otherwise keep their order |
| Sorting.SortBy | src/lib/gap-predictor/inference.ts:113 | the sort is a permutation of its input in key order, and for each key value the elements with that key appear in their input order (stability) |
| Sorting.SortKeepsTieOrder | src/lib/gap-predictor/inference.ts:113 | two sorted elements with equal keys occur in the input in the same order |
| Sorting.FirstMinIndex | src/lib/gap-predictor/inference.ts:50-52 | the first position of a smallest key |
| Sorting.SortHeadIsFirstMinimum | src/lib/gap-predictor/inference.ts:50-52 | stability: the sorted head is the earliest element with the smallest key |
| Sorting.SortKeepsMembers | src/lib/gap-predictor/inference.ts:113 | sorting keeps every element and adds none |
| Sorting.SortKeepsDistinct | src/lib/gap-predictor/inference.ts:113 | elements with pairwise distinct keys of any kind stay pairwise distinct after sorting |
| DemoData.SeedEvents | src/lib/gap-predictor/demoData.ts:12-69 | four attempts with the given ids, all wrong with an error code; timestamps strictly increasing and before the base; two fractions with denominator mismatch, then two negatives with a sign error |
| Latency.RandomInt | src/components/gap-predictor/latency.ts:23-25 | for min <= max the draw is a whole number in [min, max] |
| Latency.Delay | src/components/gap-predictor/latency.ts:11-14 | at least min; at most max when min <= max, and then equal to the draw; exactly min when min > max |
| Latency.EveryDelayReachable | src/components/gap-predictor/latency.ts:14 | every whole delay in [min, max] is produced by some draw in [0, 1) |
| Latency.DefaultDelayBounds | src/components/gap-predictor/latency.ts:11-12 | without options the delay lies in [120, 420] |
| Persistence.EncodeEvent | src/lib/gap-predictor/useEventStore.ts:37 | every stored event passes the shape check, and has an `errorCode` field iff it has an error code |
| Persistence.DecodeTag | src/lib/gap-predictor/useEventStore.ts:107 | a stored value reads as a concept exactly when it is that concept's wire-name string |
| Persistence.DecodeTagsCounts | src/lib/gap-predictor/useEventStore.ts:107 | each concept is read exactly as many times as its wire-name string is stored, so a repeated tag reads twice |
| Persistence.DecodeTagsAppend | src/lib/gap-predictor/useEventStore.ts:107 | tags are read in their stored order: reading distributes over concatenation |
| Persistence.DecodeErrorCode | src/lib/gap-predictor/useEventStore.ts:107 | an error code is read exactly when the stored `errorCode` is that code's wire-name string |
| Persistence.DecodeEvent | src/lib/gap-predictor/useEventStore.ts:107 | every checked field is read as stored; a concept tag iff its wire name is stored; an error code iff its wire name is stored |
| Persistence.Keep | src/lib/gap-predictor/useEventStore.ts:107 | a record contributes one event iff it passes the shape check, and that event is the record read as an event; otherwise nothing |
| Persistence.ReadFromStorage | src/lib/gap-predictor/useEventStore.ts:100-111 | a log is returned iff the slot holds a parsed JSON array; absent, unparsable and non-array slots give nothing |
| Persistence.TagsRoundTrip | src/lib/gap-predictor/useEventStore.ts:107 | stored tags read back unchanged |
| Persistence.EventRoundTrip | src/lib/gap-predictor/useEventStore.ts:113-127 | a stored event passes the shape check and reads back unchanged |
| Persistence.LogRoundTrip | src/lib/gap-predictor/useEventStore.ts:107 | filtering a stored log keeps every record and reads back the log |
| Persistence.StoredLogReadsBack | src/lib/gap-predictor/useEventStore.ts:100-111 | writing the log and reading the slot yields the same log |
| Persistence.ValidRecordsAppend | src/lib/gap-predictor/useEventStore.ts:107 | the filter distributes over concatenation, so order is kept |
| Persistence.ValidRecordsMembers | src/lib/gap-predictor/useEventStore.ts:107 | an event is read iff it decodes a record that passes the check; when all records pass, the result is all of them, position by position |
| Persistence.ShapeCheckNeedsEveryField | src/lib/gap-predictor/useEventStore.ts:113-127 | removing or nulling any one of the ten checked fields fails the check |
| Persistence.ShapeCheckNeedsObject | src/lib/gap-predictor/useEventStore.ts:114-116 | a value that is not an object never passes |
| Persistence.ShapeCheckIsShallow | src/lib/gap-predictor/useEventStore.ts:113-127 | a record with garbage tags and a malformed error code still passes, and reads with neither |
| EventStore.Storage.SetItem | src/lib/gap-predictor/useEventStore.ts:36-40 | a write sets the key when storage works, and otherwise changes nothing |
| EventStore.Storage.RemoveItem | src/lib/gap-predictor/useEventStore.ts:71-75 | a removal drops the key when storage works, and otherwise changes nothing |
| EventStore.EventStore.Events | src/lib/gap-predictor/useEventStore.ts:43-46 | the exposed events are a permutation of the log, sorted by timestamp |
| EventStore.FlagOrOn | src/lib/gap-predictor/useEventStore.ts:24-25 | a flag left out is on; only an explicit `false` turns it off |
| EventStore.UseEventStore | src/lib/gap-predictor/useEventStore.ts:23-41 | both option flags default to on, so without options the store persists and starts from the stored log or the seed |
| EventStore.EventStore.constructor | src/lib/gap-predictor/useEventStore.ts:27-41 | the initial log is the stored log if persisting and one is readable, else the seed or nothing; not ingesting; then persisted |
| EventStore.EventStore.PersistEffect | src/lib/gap-predictor/useEventStore.ts:34-41 | when persisting and storage works, the slot holds the encoded log; otherwise storage is unchanged |
| EventStore.EventStore.BeginIngest | src/lib/gap-predictor/useEventStore.ts:50 | sets the busy flag and leaves the log and the timestamp alone |
| EventStore.EventStore.CompleteIngest | src/lib/gap-predictor/useEventStore.ts:54-58 | appends exactly the event, clears the busy flag, records the time and persists |
| EventStore.EventStore.Ingest | src/lib/gap-predictor/useEventStore.ts:48-64 | a delay of 140 to 520 ms drawn by `withLatency`; the log becomes the old log plus the event, which then appears in the sorted view; not busy; time recorded; durable |
| EventStore.EventStore.Reset | src/lib/gap-predictor/useEventStore.ts:66-77 | the log becomes the seed (or empty when seeding is off); not busy; time recorded; storage then holds the new log |
| EventStore.EventStore.Clear | src/lib/gap-predictor/useEventStore.ts:79-88 | the log becomes empty; not busy; time recorded; storage then holds the empty log |
| EventStore.EventStore.Replace | src/lib/gap-predictor/useEventStore.ts:66-88 | the shared step: new log, flags, removal of the item, then the persist effect's write |
| EventStore.Refresh | src/lib/gap-predictor/useEventStore.ts:27-41 | a store mounted again on working storage starts with the log the old store had |
| EventStore.StoredLogWinsOverSeed | src/lib/gap-predictor/useEventStore.ts:27-31 | a stored log, even an empty one, is used instead of the seed |
| EventStore.NothingStoredStartsFromSeed | src/lib/gap-predictor/useEventStore.ts:27-31 | with no readable array stored, the log starts as the seed or empty |
| Scenarios.SeedYieldsTwoHighGaps | src/lib/gap-predictor/demoData.ts:12-69 | the seed yields exactly two predictions, fractions then negatives, both high with confidence 1, with their exact rationale lines |
| Scenarios.FourAttempts | src/lib/gap-predictor/demoData.ts:15-68 | any four wrong attempts shaped like the seed give those two predictions |
| Scenarios.AnalyzeWrongPair | src/lib/gap-predictor/inference.ts:29-110 | two wrong attempts sharing a code give a high prediction with confidence 1 and that code twice as the signature |
| Scenarios.SingleEventNoPrediction | src/lib/gap-predictor/inference.ts:27 | a single attempt with distinct tags yields no predictions |
| Scenarios.DuplicateTagCountsTwice | src/lib/gap-predictor/inference.ts:16-21 | one wrong attempt tagged twice with a concept is already a high gap for it |
| Page.PageRecommend | src/app/page.tsx:111-134 | always three recommendations; the generic three for fractions mul/div and linear equations |
| Page.PageHumanizeDistinguishesCodes | src/app/page.tsx:98-105 | the page's descriptions give distinct codes distinct text, the final branch covering `careless` |
| Page.SimulatedAttempt | src/app/page.tsx:207-244 | a wrong attempt with the given id and time; fractions: one tag with denominator mismatch; signs: negatives and algebra with a sign error |
| Page.DemoPage.constructor | src/app/page.tsx:202 | the page starts with the seed, whose attempts are all wrong |
| Page.DemoPage.Predictions | src/app/page.tsx:205 | every prediction the page shows is high, and every concept with two or more events is shown |
| Page.DemoPage.AddSimulatedAttempt | src/app/page.tsx:207-244 | appends exactly the button's attempt and leaves earlier ones unchanged; the log stays all-wrong |
| Page.PageSeedPredictions | src/app/page.tsx:143-205 | the page shows the seed as two high gaps, fractions first |
| Page.SignsClickNoAlgebraGap | src/app/page.tsx:228-243 | one "signs" click on the seeded page adds no algebra gap, since that attempt is algebra's only one |
| Page.SeedHasNoAlgebra | src/app/page.tsx:143-199 | no seed attempt is tagged with algebra |

## Left out

- Rendering, JSX, CSS, the student/coach mode toggle and the display slicing are presentation only. This covers the page's markup and the component files.
- The React hook machinery (`useState`, `useEffect`, `useMemo`, `useCallback`) is replaced by a class whose methods perform the state update and the persist effect that follows it.
- The JSON text itself is abstracted to a slot holding either a parsed JSON value or unparsable text: `JSON.stringify`, `JSON.parse`, and the empty-string check that behaves like an absent item. The quota and private-mode failures are one `available` flag on the storage.
- Waiting (`sleep`, `setTimeout`), `Math.random`, `Date.now`, `crypto.randomUUID` and `nowId` are parameters: the draw `u`, the clock reading and the ids.
- EventStore.EventStore.Ingest: the wait between the two halves is not modelled, so overlapping ingests, where the first to finish clears the busy flag, are not captured. The generic `work()` callback and its return value in `withLatency` are reduced to the single completing step that follows the delay.
- Inference.Rationale: lines are kept as structured values. Their text, including `Math.round` and `toFixed(1)`, is not modelled.
- Latency.RandomInt: the bounds `minMs` and `maxMs` are whole numbers, while the source accepts any number. With a fractional minimum the source's draw is not whole; every call in the source passes whole bounds (140/520 and the defaults 120/420).
- Numbers are exact reals. IEEE-754 rounding, and so behaviour exactly at the 0.72, 0.48 and 0.34 thresholds under doubles, is not modelled.
- Persistence.DecodeEvent: events are read as typed values, while the source keeps the parsed record as it is. `Persistence.ShapeCheckIsShallow` records that records with unknown strings pass the check.
- Persistence.DecodeTags: tag strings that name no concept are dropped (through Persistence.DecodeTag), where the source keeps them unchecked in `conceptTags`.
- Persistence.DecodeErrorCode: an `errorCode` that names no code is read as absent, where the source keeps the raw value.
- Negative times, hint counts or timestamps are not rejected, as in the source. Nothing is proved that depends on them being non-negative.
- The page's own `CONCEPT_LABEL` table (src/app/page.tsx:39-45) and `clamp01` (src/app/page.tsx:47-49) are the same as `Types.ConceptLabel` and `Inference.Clamp01`, and are not modelled twice.
- The page's seed (src/app/page.tsx:143-199) has the same content as the library's and is the same `DemoData.SeedEvents`.
- The latency header comment and the store's import name a path under `src/lib`, while the file sits under `src/components`. The two are treated as one module, and build resolution is not modelled.
