/**
 * The gap inference engine: a deterministic, rule-based pass from a list of
 * attempt events to a ranked list of per-concept gap predictions.
 *
 * The engine is written once, parameterised by the wording and
 * recommendation `Tables`; `LibraryTables` (below) and `Page.PageTables`
 * are its two instances.
 */
module Inference {
  import opened Wrappers
  import opened Types
  import opened OrderedMaps
  import opened Sorting
  import Arith

  /** What the two copies of the engine differ in. */
  datatype Tables = Tables(
    signatureHeading: string,
    humanize: ErrorCode -> string,
    recommend: Concept -> seq<Recommendation>)

  // ---------------------------------------------------------------------------
  // Arithmetic pieces
  // ---------------------------------------------------------------------------

  /** `clamp01`: the nearest point of [0, 1]. */
  function Clamp01(x: real): (r: real)
    ensures 0.0 <= r <= 1.0
    ensures 0.0 <= x <= 1.0 ==> r == x
    ensures x < 0.0 ==> r == 0.0
    ensures x > 1.0 ==> r == 1.0
  {
    if x < 0.0 then 0.0 else if x > 1.0 then 1.0 else x
  }

  /** Bonus for one dominant, repeated error code: `min(0.35, count / n * 0.6)`. */
  function RepeatedBoost(topError: Option<(ErrorCode, nat)>, n: nat): (r: real)
    requires n > 0
    ensures 0.0 <= r <= 0.35
    ensures topError.None? ==> r == 0.0
    ensures topError.Some? && topError.value.1 >= n ==> r == 0.35
  {
    match topError
    case None => 0.0
    case Some((_, count)) =>
      var b := count as real / n as real * 0.6;
      if b < 0.35 then b else 0.35
  }

  /** Friction: slow solving (over 25 s) and hint use (over 0.2), each worth up to 0.2. */
  function FrictionBoost(avgTime: real, avgHints: real): (r: real)
    ensures 0.0 <= r <= 0.4
    ensures avgTime <= 25.0 && avgHints <= 0.2 ==> r == 0.0
    ensures avgTime >= 105.0 && avgHints >= 2.2 ==> r == 0.4
  {
    Clamp01((avgTime - 25.0) / 80.0) * 0.2 + Clamp01((avgHints - 0.2) / 2.0) * 0.2
  }

  /** The fixed severity thresholds. */
  function SeverityOf(confidence: real): (s: GapSeverity)
    ensures s == High <==> confidence > 0.72
    ensures s == Medium <==> 0.48 < confidence <= 0.72
    ensures s == Low <==> confidence <= 0.48
  {
    if confidence > 0.72 then High
    else if confidence > 0.48 then Medium
    else Low
  }

  // ---------------------------------------------------------------------------
  // Grouping by concept
  // ---------------------------------------------------------------------------

  /** The (event, tag) pairs of one event, in tag order. */
  function TagPairs(e: AttemptEvent, tags: seq<Concept>): (ps: seq<(AttemptEvent, Concept)>)
    ensures |ps| == |tags|
    ensures forall k :: 0 <= k < |tags| ==> ps[k] == (e, tags[k])
  {
    seq(|tags|, k requires 0 <= k < |tags| => (e, tags[k]))
  }

  /** Every (event, tag) pair, in the order the grouping loops visit them. */
  function TagStream(events: seq<AttemptEvent>): seq<(AttemptEvent, Concept)> {
    if events == [] then []
    else
      var e := events[|events| - 1];
      TagStream(events[..|events| - 1]) + TagPairs(e, e.conceptTags)
  }

  /** The `byConcept` map after the grouping loops have visited `pairs`. */
  function Group(pairs: seq<(AttemptEvent, Concept)>): (m: OrderedMap<Concept, seq<AttemptEvent>>)
    ensures m.Valid()
  {
    if pairs == [] then Empty()
    else
      var m := Group(pairs[..|pairs| - 1]);
      var (e, c) := pairs[|pairs| - 1];
      m.Set(c, m.GetOr(c, []) + [e])
  }

  function Repeat(e: AttemptEvent, k: nat): (r: seq<AttemptEvent>)
    ensures |r| == k
    ensures forall i :: 0 <= i < k ==> r[i] == e
  {
    seq(k, _ => e)
  }

  /** How often `c` is among `tags`. */
  function Occurrences(tags: seq<Concept>, c: Concept): nat {
    if tags == [] then 0
    else Occurrences(tags[..|tags| - 1], c) + (if tags[|tags| - 1] == c then 1 else 0)
  }

  /**
   * Reference definition of a concept's events: every event tagging `c`, in
   * log order, once per time it carries the tag.
   */
  function ConceptEvents(events: seq<AttemptEvent>, c: Concept): seq<AttemptEvent> {
    if events == [] then []
    else
      var e := events[|events| - 1];
      ConceptEvents(events[..|events| - 1], c) + Repeat(e, Occurrences(e.conceptTags, c))
  }

  // ---------------------------------------------------------------------------
  // Per-concept statistics
  // ---------------------------------------------------------------------------

  /** `arr.filter((a) => !a.isCorrect)`. */
  function Wrong(arr: seq<AttemptEvent>): (w: seq<AttemptEvent>)
    ensures |w| <= |arr|
    ensures forall e :: e in w ==> e in arr && !e.isCorrect
    ensures forall e :: e in arr && !e.isCorrect ==> e in w
  {
    if arr == [] then []
    else
      assert arr == [arr[0]] + arr[1..];
      (if arr[0].isCorrect then [] else [arr[0]]) + Wrong(arr[1..])
  }

  function SumTime(arr: seq<AttemptEvent>): real {
    if arr == [] then 0.0 else SumTime(arr[..|arr| - 1]) + arr[|arr| - 1].timeSpentSec
  }

  function SumHints(arr: seq<AttemptEvent>): real {
    if arr == [] then 0.0 else SumHints(arr[..|arr| - 1]) + arr[|arr| - 1].hintsUsed
  }

  function WrongRate(arr: seq<AttemptEvent>): (r: real)
    requires |arr| > 0
    ensures 0.0 <= r <= 1.0
  {
    Arith.QuotientBounds(|Wrong(arr)| as real, |arr| as real);
    |Wrong(arr)| as real / |arr| as real
  }

  function AvgTime(arr: seq<AttemptEvent>): real
    requires |arr| > 0
  {
    SumTime(arr) / |arr| as real
  }

  function AvgHints(arr: seq<AttemptEvent>): real
    requires |arr| > 0
  {
    SumHints(arr) / |arr| as real
  }

  /** The `errorCounts` map after its loop has visited `wrong`. */
  function CountErrors(wrong: seq<AttemptEvent>): (m: OrderedMap<ErrorCode, nat>)
    ensures m.Valid()
  {
    if wrong == [] then Empty()
    else
      var m := CountErrors(wrong[..|wrong| - 1]);
      var w := wrong[|wrong| - 1];
      if w.errorCode.Some? then m.Set(w.errorCode.value, m.GetOr(w.errorCode.value, 0) + 1)
      else m
  }

  /** Reference definition: how many of `wrong` carry `code`. */
  function CodeCount(wrong: seq<AttemptEvent>, code: ErrorCode): nat {
    if wrong == [] then 0
    else CodeCount(wrong[..|wrong| - 1], code) + (if wrong[|wrong| - 1].errorCode == Some(code) then 1 else 0)
  }

  /** Sort key of an `errorCounts` entry: larger counts first. */
  function CountKey(entry: (ErrorCode, nat)): real {
    -(entry.1 as real)
  }

  /** `[...errorCounts.entries()].sort((a, b) => b[1] - a[1])[0]`. */
  function TopError(counts: OrderedMap<ErrorCode, nat>): (r: Option<(ErrorCode, nat)>)
    requires counts.Valid()
    ensures r.None? <==> counts.keys == []
    ensures r.Some? ==> r.value.0 in counts.values && counts.values[r.value.0] == r.value.1
  {
    var entries := counts.Entries();
    if entries == [] then None
    else
      var top := SortBy(entries, CountKey)[0];
      assert top in multiset(entries);
      Some(top)
  }

  function TopErrorOf(arr: seq<AttemptEvent>): Option<(ErrorCode, nat)> {
    TopError(CountErrors(Wrong(arr)))
  }

  /** The clamped sum of the base rate, the signature boost and the friction boost. */
  function ConfidenceOf(arr: seq<AttemptEvent>): (r: real)
    requires |arr| > 0
    ensures 0.0 <= r <= 1.0
    ensures r >= WrongRate(arr) * 0.75
  {
    Clamp01(WrongRate(arr) * 0.75 + RepeatedBoost(TopErrorOf(arr), |arr|)
      + FrictionBoost(AvgTime(arr), AvgHints(arr)))
  }

  // ---------------------------------------------------------------------------
  // Rationale
  // ---------------------------------------------------------------------------

  /** Position of a line kind in the fixed rationale order. */
  function Rank(line: RationaleLine): nat {
    match line
    case IncorrectShare(_, _) => 0
    case Signature(_, _, _) => 1
    case HintUsage(_) => 2
    case SlowSolve(_) => 3
  }

  /** Some line of `lines` is of rank `k`. */
  predicate HasLine(lines: seq<RationaleLine>, k: nat) {
    exists i :: 0 <= i < |lines| && Rank(lines[i]) == k
  }

  /** Line kinds appear in strictly increasing rank: each at most once, in the fixed order. */
  ghost predicate RanksIncrease(lines: seq<RationaleLine>) {
    forall i, j :: 0 <= i < j < |lines| ==> Rank(lines[i]) < Rank(lines[j])
  }

  /** Pushing a line of a later kind keeps the order and adds exactly that kind. */
  lemma PushLine(lines: seq<RationaleLine>, x: RationaleLine)
    requires RanksIncrease(lines)
    requires forall i :: 0 <= i < |lines| ==> Rank(lines[i]) < Rank(x)
    ensures RanksIncrease(lines + [x])
    ensures forall i :: 0 <= i < |lines| + 1 ==> Rank((lines + [x])[i]) <= Rank(x)
    ensures forall k :: HasLine(lines + [x], k) <==> HasLine(lines, k) || k == Rank(x)
  {
    var l := lines + [x];
    forall k ensures HasLine(l, k) <==> HasLine(lines, k) || k == Rank(x) {
      if HasLine(lines, k) {
        var i :| 0 <= i < |lines| && Rank(lines[i]) == k;
        assert l[i] == lines[i];
      }
      if HasLine(l, k) && k != Rank(x) {
        var i :| 0 <= i < |l| && Rank(l[i]) == k;
        assert i < |lines| && l[i] == lines[i];
      }
      assert Rank(l[|lines|]) == Rank(x);
    }
  }

  /** `lines`, with `x` pushed when `cond` holds. */
  function PushIf(lines: seq<RationaleLine>, cond: bool, x: RationaleLine): seq<RationaleLine> {
    if cond then lines + [x] else lines
  }

  /** A conditional push of a later kind keeps the order and adds that kind exactly when it happens. */
  lemma PushIfLine(lines: seq<RationaleLine>, cond: bool, x: RationaleLine)
    requires RanksIncrease(lines)
    requires forall i :: 0 <= i < |lines| ==> Rank(lines[i]) < Rank(x)
    ensures RanksIncrease(PushIf(lines, cond, x))
    ensures forall i :: 0 <= i < |PushIf(lines, cond, x)| ==> Rank(PushIf(lines, cond, x)[i]) <= Rank(x)
    ensures |PushIf(lines, cond, x)| == |lines| + if cond then 1 else 0
    ensures forall i :: 0 <= i < |lines| ==> PushIf(lines, cond, x)[i] == lines[i]
    ensures cond ==> x in PushIf(lines, cond, x)
    ensures HasLine(PushIf(lines, cond, x), 1) <==> HasLine(lines, 1) || (cond && Rank(x) == 1)
    ensures HasLine(PushIf(lines, cond, x), 2) <==> HasLine(lines, 2) || (cond && Rank(x) == 2)
    ensures HasLine(PushIf(lines, cond, x), 3) <==> HasLine(lines, 3) || (cond && Rank(x) == 3)
  {
    if cond {
      PushLine(lines, x);
      assert PushIf(lines, cond, x)[|lines|] == x;
    }
  }

  /** The rationale's three conditional pushes after its first line. */
  function PushThree(first: RationaleLine, c1: bool, x1: RationaleLine, c2: bool, x2: RationaleLine,
                     c3: bool, x3: RationaleLine): seq<RationaleLine>
  {
    PushIf(PushIf(PushIf([first], c1, x1), c2, x2), c3, x3)
  }

  /** Pushes of kinds 1, 2 and 3 after a first line of kind 0 keep the first line and the rank order. */
  lemma PushThreeOrder(first: RationaleLine, c1: bool, x1: RationaleLine, c2: bool, x2: RationaleLine,
                       c3: bool, x3: RationaleLine)
    requires Rank(first) == 0 && Rank(x1) == 1 && Rank(x2) == 2 && Rank(x3) == 3
    ensures var lines := PushThree(first, c1, x1, c2, x2, c3, x3);
      && 1 <= |lines| <= 4
      && lines[0] == first
      && RanksIncrease(lines)
      && (c1 ==> lines[1] == x1)
      && (c2 ==> x2 in lines)
      && (c3 ==> x3 in lines)
  {
    var l0 := [first];
    var l1 := PushIf(l0, c1, x1);
    PushIfLine(l0, c1, x1);
    var l2 := PushIf(l1, c2, x2);
    PushIfLine(l1, c2, x2);
    var l3 := PushIf(l2, c3, x3);
    PushIfLine(l2, c3, x3);
    assert c2 ==> x2 in l3 by {
      if c2 {
        assert l3[|l1|] == l2[|l1|];
      }
    }
  }

  /** Pushes of kinds 1, 2 and 3 after a first line of kind 0: each kind is present exactly when pushed. */
  lemma PushThreeKinds(first: RationaleLine, c1: bool, x1: RationaleLine, c2: bool, x2: RationaleLine,
                       c3: bool, x3: RationaleLine)
    requires Rank(first) == 0 && Rank(x1) == 1 && Rank(x2) == 2 && Rank(x3) == 3
    ensures var lines := PushThree(first, c1, x1, c2, x2, c3, x3);
      && (HasLine(lines, 1) <==> c1)
      && (HasLine(lines, 2) <==> c2)
      && (HasLine(lines, 3) <==> c3)
  {
    var l0 := [first];
    assert !HasLine(l0, 1) && !HasLine(l0, 2) && !HasLine(l0, 3) by {
      assert Rank(l0[0]) == 0;
    }
    var l1 := PushIf(l0, c1, x1);
    PushIfLine(l0, c1, x1);
    var l2 := PushIf(l1, c2, x2);
    PushIfLine(l1, c2, x2);
    PushIfLine(l2, c3, x3);
  }

  /**
   * The rationale lines for a concept with `wrong` of `total` attempts wrong,
   * the given top error and the given averages, pushed in their fixed order.
   */
  function Rationale(tables: Tables, wrong: nat, total: nat, topError: Option<(ErrorCode, nat)>,
                     avgHints: real, avgTime: real): (lines: seq<RationaleLine>)
    ensures 1 <= |lines| <= 4
    ensures lines[0] == IncorrectShare(wrong, total)
    ensures RanksIncrease(lines)
    ensures HasLine(lines, 1) <==> topError.Some?
    ensures HasLine(lines, 2) <==> avgHints >= 1.0
    ensures HasLine(lines, 3) <==> avgTime >= 60.0
    ensures topError.Some? ==>
      lines[1] == Signature(tables.signatureHeading, tables.humanize(topError.value.0), topError.value.1)
    ensures avgHints >= 1.0 ==> HintUsage(avgHints) in lines
    ensures avgTime >= 60.0 ==> SlowSolve(avgTime) in lines
  {
    var signature :=
      if topError.Some? then Signature(tables.signatureHeading, tables.humanize(topError.value.0), topError.value.1)
      else Signature(tables.signatureHeading, "", 0);
    var first, hints, slow := IncorrectShare(wrong, total), HintUsage(avgHints), SlowSolve(avgTime);
    PushThreeOrder(first, topError.Some?, signature, avgHints >= 1.0, hints, avgTime >= 60.0, slow);
    PushThreeKinds(first, topError.Some?, signature, avgHints >= 1.0, hints, avgTime >= 60.0, slow);
    PushThree(first, topError.Some?, signature, avgHints >= 1.0, hints, avgTime >= 60.0, slow)
  }

  // ---------------------------------------------------------------------------
  // One concept, and the whole pass
  // ---------------------------------------------------------------------------

  /** The prediction for one concept's events, if it is emitted at all. */
  function Analyze(tables: Tables, concept: Concept, arr: seq<AttemptEvent>): (r: Option<GapPrediction>)
    ensures |arr| < 2 ==> r.None?
    ensures |arr| >= 2 ==>
      (r.Some? <==> !(SeverityOf(ConfidenceOf(arr)) == Low && WrongRate(arr) < 0.34))
    ensures r.Some? ==>
      && |arr| >= 2
      && r.value.concept == concept
      && r.value.confidence == ConfidenceOf(arr)
      && 0.0 <= r.value.confidence <= 1.0
      && r.value.severity == SeverityOf(r.value.confidence)
      && !(r.value.severity == Low && WrongRate(arr) < 0.34)
      && r.value.rationale ==
           Rationale(tables, |Wrong(arr)|, |arr|, TopErrorOf(arr), AvgHints(arr), AvgTime(arr))
      && r.value.recommendedNext == tables.recommend(concept)
  {
    if |arr| < 2 then None
    else
      var confidence := ConfidenceOf(arr);
      var severity := SeverityOf(confidence);
      if severity == Low && WrongRate(arr) < 0.34 then None
      else
        var rationale := Rationale(tables, |Wrong(arr)|, |arr|, TopErrorOf(arr), AvgHints(arr), AvgTime(arr));
        Some(GapPrediction(concept, confidence, severity, rationale, tables.recommend(concept)))
  }

  /** The predictions pushed by the loop over the first entries of `byConcept`. */
  function Collect(tables: Tables, keys: seq<Concept>, groups: map<Concept, seq<AttemptEvent>>): seq<GapPrediction>
    requires forall c :: c in keys ==> c in groups
  {
    if keys == [] then []
    else
      var c := keys[|keys| - 1];
      Collect(tables, keys[..|keys| - 1], groups) +
        match Analyze(tables, c, groups[c])
        case Some(p) => [p]
        case None => []
  }

  function PredictionConcept(p: GapPrediction): Concept {
    p.concept
  }

  /** Sort key of a prediction: highest confidence first. */
  function ConfidenceKey(p: GapPrediction): real {
    -p.confidence
  }

  /** `computeGapPredictions`, as a function of the events. */
  function GapPredictions(tables: Tables, events: seq<AttemptEvent>): seq<GapPrediction> {
    var byConcept := Group(TagStream(events));
    SortBy(Collect(tables, byConcept.keys, byConcept.values), ConfidenceKey)
  }

  /** Visiting one more entry pushes that concept's prediction, if any. */
  lemma CollectPush(tables: Tables, keys: seq<Concept>, groups: map<Concept, seq<AttemptEvent>>, k: nat)
    requires k < |keys|
    requires forall c :: c in keys ==> c in groups
    ensures Collect(tables, keys[..k + 1], groups) ==
      Collect(tables, keys[..k], groups) +
        match Analyze(tables, keys[k], groups[keys[k]])
        case Some(p) => [p]
        case None => []
  {
    assert keys[..k + 1][..k] == keys[..k];
  }

  /**
   * `computeGapPredictions`, step by step: group by concept, then for each
   * concept in first-seen order compute the statistics, count the error
   * codes, score, tier, suppress, explain, and finally sort.
   */
  method ComputeGapPredictions(tables: Tables, events: seq<AttemptEvent>) returns (predictions: seq<GapPrediction>)
    ensures predictions == GapPredictions(tables, events)
  {
    var byConcept := GroupByConcept(events);
    var collected: seq<GapPrediction> := [];
    var entries := byConcept.Entries();
    for k := 0 to |entries|
      invariant collected == Collect(tables, byConcept.keys[..k], byConcept.values)
    {
      var (concept, arr) := entries[k];
      CollectPush(tables, byConcept.keys, byConcept.values, k);
      var prediction := AnalyzeConcept(tables, concept, arr);
      if prediction.Some? {
        collected := collected + [prediction.value];
      }
    }
    assert byConcept.keys[..|entries|] == byConcept.keys;
    predictions := SortBy(collected, ConfidenceKey);
  }

  /**
   * One iteration of the per-concept loop: skip a concept with fewer than two
   * attempts, compute the statistics and the score, skip a low-signal
   * concept, and otherwise build the prediction.
   */
  method AnalyzeConcept(tables: Tables, concept: Concept, arr: seq<AttemptEvent>) returns (prediction: Option<GapPrediction>)
    ensures prediction == Analyze(tables, concept, arr)
  {
    var n := |arr|;
    if n < 2 {
      return None;
    }

    var wrong := Wrong(arr);
    var wrongRate := |wrong| as real / n as real;
    var avgTime := SumTime(arr) / n as real;
    var avgHints := SumHints(arr) / n as real;
    var errorCounts := CountErrorCodes(wrong);
    var topError := TopError(errorCounts);
    assert wrongRate == WrongRate(arr) && topError == TopErrorOf(arr);
    assert avgTime == AvgTime(arr) && avgHints == AvgHints(arr);

    var repeatedBoost := RepeatedBoost(topError, n);
    var frictionBoost := FrictionBoost(avgTime, avgHints);
    var confidence := Clamp01(wrongRate * 0.75 + repeatedBoost + frictionBoost);
    var severity := SeverityOf(confidence);
    assert confidence == ConfidenceOf(arr);
    if severity == Low && wrongRate < 0.34 {
      return None;
    }

    var rationale := BuildRationale(tables, |wrong|, n, topError, avgHints, avgTime);
    prediction := Some(GapPrediction(concept, confidence, severity, rationale, tables.recommend(concept)));
  }

  /** The rationale pushes of one iteration, in their fixed order. */
  method BuildRationale(tables: Tables, wrong: nat, total: nat, topError: Option<(ErrorCode, nat)>,
                        avgHints: real, avgTime: real) returns (rationale: seq<RationaleLine>)
    ensures rationale == Rationale(tables, wrong, total, topError, avgHints, avgTime)
  {
    rationale := [IncorrectShare(wrong, total)];
    if topError.Some? {
      var (code, count) := topError.value;
      rationale := rationale + [Signature(tables.signatureHeading, tables.humanize(code), count)];
    }
    if avgHints >= 1.0 {
      rationale := rationale + [HintUsage(avgHints)];
    }
    if avgTime >= 60.0 {
      rationale := rationale + [SlowSolve(avgTime)];
    }
  }

  /** Visiting one more pair pushes its event onto its concept's list. */
  lemma GroupPush(pairs: seq<(AttemptEvent, Concept)>, e: AttemptEvent, c: Concept)
    ensures Group(pairs + [(e, c)]) == Group(pairs).Set(c, Group(pairs).GetOr(c, []) + [e])
  {
    assert (pairs + [(e, c)])[..|pairs|] == pairs;
  }

  /** The stream of a longer prefix is the stream of the shorter one and the next event's pairs. */
  lemma TagStreamPush(events: seq<AttemptEvent>, i: nat)
    requires i < |events|
    ensures TagStream(events[..i + 1]) == TagStream(events[..i]) + TagPairs(events[i], events[i].conceptTags)
  {
    assert events[..i + 1][..i] == events[..i];
  }

  /** One more tag of the same event adds one pair. */
  lemma TagPairsPush(pairs: seq<(AttemptEvent, Concept)>, e: AttemptEvent, tags: seq<Concept>, j: nat)
    requires j < |tags|
    ensures pairs + TagPairs(e, tags[..j + 1]) == (pairs + TagPairs(e, tags[..j])) + [(e, tags[j])]
  {
    assert TagPairs(e, tags[..j + 1]) == TagPairs(e, tags[..j]) + [(e, tags[j])];
  }

  /** The grouping loops: every event is pushed onto the list of each of its tags. */
  method GroupByConcept(events: seq<AttemptEvent>) returns (byConcept: OrderedMap<Concept, seq<AttemptEvent>>)
    ensures byConcept == Group(TagStream(events))
  {
    byConcept := Empty();
    for i := 0 to |events|
      invariant byConcept == Group(TagStream(events[..i]))
    {
      var e := events[i];
      ghost var done := TagStream(events[..i]);
      assert done + TagPairs(e, e.conceptTags[..0]) == done;
      for j := 0 to |e.conceptTags|
        invariant byConcept == Group(done + TagPairs(e, e.conceptTags[..j]))
      {
        var c := e.conceptTags[j];
        ghost var visited := done + TagPairs(e, e.conceptTags[..j]);
        TagPairsPush(done, e, e.conceptTags, j);
        GroupPush(visited, e, c);
        var arr := byConcept.GetOr(c, []);
        arr := arr + [e];
        byConcept := byConcept.Set(c, arr);
      }
      assert e.conceptTags[..|e.conceptTags|] == e.conceptTags;
      TagStreamPush(events, i);
    }
    assert events[..|events|] == events;
  }

  /** The `errorCounts` loop over a concept's wrong attempts. */
  method CountErrorCodes(wrong: seq<AttemptEvent>) returns (errorCounts: OrderedMap<ErrorCode, nat>)
    ensures errorCounts == CountErrors(wrong)
  {
    errorCounts := Empty();
    for w := 0 to |wrong|
      invariant errorCounts == CountErrors(wrong[..w])
    {
      assert wrong[..w + 1][..w] == wrong[..w];
      var code := wrong[w].errorCode;
      if code.Some? {
        errorCounts := errorCounts.Set(code.value, errorCounts.GetOr(code.value, 0) + 1);
      }
    }
    assert wrong[..|wrong|] == wrong;
  }

  // ---------------------------------------------------------------------------
  // The library's tables
  // ---------------------------------------------------------------------------

  /** `humanizeError`. */
  function HumanizeError(code: ErrorCode): string {
    match code
    case DenominatorMismatch => "Not finding common denominators"
    case SignError => "Sign mistakes with negatives"
    case DistributionError => "Incorrect distribution across brackets"
    case Careless => "Careless arithmetic slips"
  }

  /** The library describes distinct codes distinctly. */
  lemma HumanizeErrorDistinguishesCodes(c1: ErrorCode, c2: ErrorCode)
    ensures HumanizeError(c1) == HumanizeError(c2) ==> c1 == c2
  {
  }

  /** `recommendedActions`: three steps for three concepts, a labelled warm-up pair otherwise. */
  function RecommendedActions(concept: Concept): (r: seq<Recommendation>)
    ensures |r| == if concept in {FractionsAddSub, NegativesSigns, AlgebraSimplify} then 3 else 2
    ensures concept !in {FractionsAddSub, NegativesSigns, AlgebraSimplify} ==>
      r == [Recommendation(ConceptLabel(concept) + " warm-up", "Practice"), Recommendation("Quick recap", "Review")]
  {
    match concept
    case FractionsAddSub =>
      [ Recommendation("Micro-lesson: common denominators", "Review"),
        Recommendation("5 targeted drills", "Practice"),
        Recommendation("Worked example breakdown", "See steps") ]
    case NegativesSigns =>
      [ Recommendation("Rule card: sign flips", "Review"),
        Recommendation("Timed mini-quiz", "Practice"),
        Recommendation("Explain the rule back", "Self-test") ]
    case AlgebraSimplify =>
      [ Recommendation("Like terms refresher", "Review"),
        Recommendation("Simplify 6 expressions", "Practice"),
        Recommendation("Common traps checklist", "Scan") ]
    case _ =>
      [ Recommendation(ConceptLabel(concept) + " warm-up", "Practice"),
        Recommendation("Quick recap", "Review") ]
  }

  const LibraryTables := Tables("Repeated error signature", HumanizeError, RecommendedActions)
}
