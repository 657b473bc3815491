/**
 * What the engine makes of particular logs: the demonstration seed, a
 * single attempt, and an attempt that repeats a tag.
 */
module Scenarios {
  import opened Wrappers
  import opened Types
  import opened OrderedMaps
  import opened Sorting
  import opened Inference
  import opened InferenceProperties
  import opened DemoData

  /** Two fractions attempts followed by two negatives attempts, as in the seed. */
  predicate SeedTagged(a: AttemptEvent, b: AttemptEvent, c: AttemptEvent, d: AttemptEvent) {
    && a.conceptTags == [FractionsAddSub] && b.conceptTags == [FractionsAddSub]
    && c.conceptTags == [NegativesSigns] && d.conceptTags == [NegativesSigns]
  }

  /** The seed's tags, all four wrong, with the seed's error codes. */
  predicate SeedWrong(a: AttemptEvent, b: AttemptEvent, c: AttemptEvent, d: AttemptEvent) {
    && SeedTagged(a, b, c, d)
    && !a.isCorrect && !b.isCorrect && !c.isCorrect && !d.isCorrect
    && a.errorCode == Some(DenominatorMismatch) && b.errorCode == Some(DenominatorMismatch)
    && c.errorCode == Some(SignError) && d.errorCode == Some(SignError)
  }

  /** Everything about the seed's four attempts that the engine reads. */
  predicate SeedShaped(a: AttemptEvent, b: AttemptEvent, c: AttemptEvent, d: AttemptEvent) {
    && SeedWrong(a, b, c, d)
    && a.hintsUsed == 2.0 && b.hintsUsed == 1.0 && c.hintsUsed == 1.0 && d.hintsUsed == 0.0
    && a.timeSpentSec == 74.0 && b.timeSpentSec == 68.0 && c.timeSpentSec == 42.0 && d.timeSpentSec == 36.0
  }

  /**
   * The seed yields exactly two predictions, both high with confidence 1:
   * fractions first (the tie keeps grouping order), then negatives. The
   * fractions gap cites 2/2 wrong, the denominator signature twice, hint use
   * 1.5 and solve time 71 s; the negatives gap cites 2/2 wrong and the sign
   * signature twice, and neither its hints (0.5) nor its time (39 s) reach a
   * threshold.
   */
  lemma SeedYieldsTwoHighGaps(tables: Tables, base: real, ids: seq<string>)
    requires |ids| == 4
    ensures var out := GapPredictions(tables, SeedEvents(base, ids));
      && |out| == 2
      && out[0].concept == FractionsAddSub && out[1].concept == NegativesSigns
      && out[0].severity == High && out[1].severity == High
      && out[0].confidence == 1.0 && out[1].confidence == 1.0
      && out[0].rationale ==
           [ IncorrectShare(2, 2),
             Signature(tables.signatureHeading, tables.humanize(DenominatorMismatch), 2),
             HintUsage(1.5),
             SlowSolve(71.0) ]
      && out[1].rationale ==
           [ IncorrectShare(2, 2),
             Signature(tables.signatureHeading, tables.humanize(SignError), 2) ]
  {
    var s := SeedEvents(base, ids);
    assert s == [s[0], s[1], s[2], s[3]];
    FourAttempts(tables, s[0], s[1], s[2], s[3]);
  }

  /** The seed's shape, for any four attempts that have it. */
  lemma FourAttempts(tables: Tables, a: AttemptEvent, b: AttemptEvent, c: AttemptEvent, d: AttemptEvent)
    requires SeedShaped(a, b, c, d)
    ensures var out := GapPredictions(tables, [a, b, c, d]);
      && |out| == 2
      && out[0].concept == FractionsAddSub && out[1].concept == NegativesSigns
      && out[0].severity == High && out[1].severity == High
      && out[0].confidence == 1.0 && out[1].confidence == 1.0
      && out[0].rationale ==
           [ IncorrectShare(2, 2),
             Signature(tables.signatureHeading, tables.humanize(DenominatorMismatch), 2),
             HintUsage(1.5),
             SlowSolve(71.0) ]
      && out[1].rationale ==
           [ IncorrectShare(2, 2),
             Signature(tables.signatureHeading, tables.humanize(SignError), 2) ]
  {
    var pf, pn := SortFourAttempts(tables, a, b, c, d);
    SeedRationales(tables);
  }

  /** The two seed rationales, line by line. */
  lemma SeedRationales(tables: Tables)
    ensures Rationale(tables, 2, 2, Some((DenominatorMismatch, 2)), 1.5, 71.0) ==
      [ IncorrectShare(2, 2),
        Signature(tables.signatureHeading, tables.humanize(DenominatorMismatch), 2),
        HintUsage(1.5),
        SlowSolve(71.0) ]
    ensures Rationale(tables, 2, 2, Some((SignError, 2)), 0.5, 39.0) ==
      [ IncorrectShare(2, 2),
        Signature(tables.signatureHeading, tables.humanize(SignError), 2) ]
  {
    RationaleOf(tables, 2, 2, Some((DenominatorMismatch, 2)), 1.5, 71.0);
    RationaleOf(tables, 2, 2, Some((SignError, 2)), 0.5, 39.0);
  }

  /** The sorted predictions for the seed's shape. */
  lemma SortFourAttempts(tables: Tables, a: AttemptEvent, b: AttemptEvent, c: AttemptEvent, d: AttemptEvent)
    returns (pf: GapPrediction, pn: GapPrediction)
    requires SeedShaped(a, b, c, d)
    ensures GapPredictions(tables, [a, b, c, d]) == [pf, pn]
    ensures pf.concept == FractionsAddSub && pf.severity == High && pf.confidence == 1.0
    ensures pn.concept == NegativesSigns && pn.severity == High && pn.confidence == 1.0
    ensures pf.rationale == Rationale(tables, 2, 2, Some((DenominatorMismatch, 2)), 1.5, 71.0)
    ensures pn.rationale == Rationale(tables, 2, 2, Some((SignError, 2)), 0.5, 39.0)
  {
    pf, pn := CollectFourAttempts(tables, a, b, c, d);
    PairSort(pf, pn);
  }

  /** The predictions for the seed's shape, before the final sort. */
  lemma CollectFourAttempts(tables: Tables, a: AttemptEvent, b: AttemptEvent, c: AttemptEvent, d: AttemptEvent)
    returns (pf: GapPrediction, pn: GapPrediction)
    requires SeedWrong(a, b, c, d)
    ensures var g := Group(TagStream([a, b, c, d])); Collect(tables, g.keys, g.values) == [pf, pn]
    ensures pf.concept == FractionsAddSub && pf.severity == High && pf.confidence == 1.0
    ensures pn.concept == NegativesSigns && pn.severity == High && pn.confidence == 1.0
    ensures pf.rationale == Rationale(tables, 2, 2, Some((DenominatorMismatch, 2)),
      (a.hintsUsed + b.hintsUsed) / 2.0, (a.timeSpentSec + b.timeSpentSec) / 2.0)
    ensures pn.rationale == Rationale(tables, 2, 2, Some((SignError, 2)),
      (c.hintsUsed + d.hintsUsed) / 2.0, (c.timeSpentSec + d.timeSpentSec) / 2.0)
  {
    var F, N := FractionsAddSub, NegativesSigns;
    SeedStream(a, b, c, d);
    var m := GroupFourPairs(a, b, c, d, F, N);
    pf := AnalyzeWrongPair(tables, F, a, b, DenominatorMismatch);
    pn := AnalyzeWrongPair(tables, N, c, d, SignError);
    PairCollect(tables, F, N, m.values, pf, pn);
  }

  /** The seed's tag stream: one pair per attempt, in order. */
  lemma SeedStream(a: AttemptEvent, b: AttemptEvent, c: AttemptEvent, d: AttemptEvent)
    requires SeedTagged(a, b, c, d)
    ensures TagStream([a, b, c, d]) ==
      [(a, FractionsAddSub), (b, FractionsAddSub)] + [(c, NegativesSigns)] + [(d, NegativesSigns)]
  {
    var s := [a, b, c, d];
    assert s[..0] == [];
    TagStreamPush(s, 0);
    TagStreamPush(s, 1);
    TagStreamPush(s, 2);
    TagStreamPush(s, 3);
    assert s[..4] == s;
  }

  /** Grouping a single pair. */
  lemma GroupOnePair(a: AttemptEvent, F: Concept)
    ensures Group([(a, F)]).keys == [F]
    ensures Group([(a, F)]).values == map[F := [a]]
  {
    var p0: seq<(AttemptEvent, Concept)> := [];
    assert p0 + [(a, F)] == [(a, F)];
    GroupPush(p0, a, F);
    NewKeySet(Group(p0), a, F);
  }

  /** A second pair of the same concept. */
  lemma GroupSecondPair(p1: seq<(AttemptEvent, Concept)>, a: AttemptEvent, b: AttemptEvent, F: Concept)
    requires Group(p1).keys == [F] && Group(p1).values == map[F := [a]]
    ensures Group(p1 + [(b, F)]).keys == [F]
    ensures Group(p1 + [(b, F)]).values == map[F := [a, b]]
  {
    GroupPush(p1, b, F);
    KnownKeySet(Group(p1), b, F);
    assert [a] + [b] == [a, b];
  }

  /** The pairs of one concept's two attempts followed by one pair of another. */
  lemma GroupThirdPair(p2: seq<(AttemptEvent, Concept)>, a: AttemptEvent, b: AttemptEvent, c: AttemptEvent,
                       F: Concept, N: Concept)
    requires F != N
    requires Group(p2).keys == [F] && Group(p2).values == map[F := [a, b]]
    ensures var m := Group(p2 + [(c, N)]);
      && m.keys == [F, N]
      && F in m.values && m.values[F] == [a, b]
      && N in m.values && m.values[N] == [c]
  {
    GroupPush(p2, c, N);
    NewKeySet(Group(p2), c, N);
  }

  /** Adding a pair of a concept not grouped yet appends the concept with that one attempt. */
  lemma NewKeySet(m: OrderedMap<Concept, seq<AttemptEvent>>, e: AttemptEvent, c: Concept)
    requires m.Valid() && c !in m.values
    ensures m.Set(c, m.GetOr(c, []) + [e]).keys == m.keys + [c]
    ensures m.Set(c, m.GetOr(c, []) + [e]).values == m.values[c := [e]]
  {
    assert [] + [e] == [e];
  }

  /** Adding a pair of a concept already grouped appends the attempt to its group. */
  lemma KnownKeySet(m: OrderedMap<Concept, seq<AttemptEvent>>, e: AttemptEvent, c: Concept)
    requires m.Valid() && c in m.values
    ensures m.Set(c, m.GetOr(c, []) + [e]).keys == m.keys
    ensures m.Set(c, m.GetOr(c, []) + [e]).values == m.values[c := m.values[c] + [e]]
  {
  }

  /** A second pair of the second concept. */
  lemma GroupFourthPair(p3: seq<(AttemptEvent, Concept)>, a: AttemptEvent, b: AttemptEvent, c: AttemptEvent,
                        d: AttemptEvent, F: Concept, N: Concept)
    requires F != N
    requires var m := Group(p3);
      && m.keys == [F, N]
      && F in m.values && m.values[F] == [a, b]
      && N in m.values && m.values[N] == [c]
    ensures var m := Group(p3 + [(d, N)]);
      && m.keys == [F, N]
      && F in m.values && m.values[F] == [a, b]
      && N in m.values && m.values[N] == [c, d]
  {
    GroupPush(p3, d, N);
    KnownKeySet(Group(p3), d, N);
    assert [c] + [d] == [c, d];
  }

  /** Grouping two pairs of one concept followed by two of another. */
  lemma GroupFourPairs(a: AttemptEvent, b: AttemptEvent, c: AttemptEvent, d: AttemptEvent, F: Concept, N: Concept)
    returns (m: OrderedMap<Concept, seq<AttemptEvent>>)
    requires F != N
    ensures m == Group([(a, F), (b, F)] + [(c, N)] + [(d, N)])
    ensures m.keys == [F, N]
    ensures F in m.values && m.values[F] == [a, b]
    ensures N in m.values && m.values[N] == [c, d]
  {
    var p1 := [(a, F)];
    GroupOnePair(a, F);
    assert p1 + [(b, F)] == [(a, F), (b, F)];
    GroupSecondPair(p1, a, b, F);
    var p2 := [(a, F), (b, F)];
    GroupThirdPair(p2, a, b, c, F, N);
    var p3 := p2 + [(c, N)];
    GroupFourthPair(p3, a, b, c, d, F, N);
    m := Group(p3 + [(d, N)]);
  }

  /** Collecting two concepts whose groups both yield a prediction. */
  lemma PairCollect(tables: Tables, F: Concept, N: Concept, groups: map<Concept, seq<AttemptEvent>>,
                    pf: GapPrediction, pn: GapPrediction)
    requires F in groups && N in groups
    requires Analyze(tables, F, groups[F]) == Some(pf)
    requires Analyze(tables, N, groups[N]) == Some(pn)
    ensures Collect(tables, [F, N], groups) == [pf, pn]
  {
    CollectOne(tables, F, groups, pf);
    CollectSnoc(tables, [F], N, groups, pn);
    assert [F] + [N] == [F, N];
  }

  /** Collecting one concept whose group yields a prediction. */
  lemma CollectOne(tables: Tables, F: Concept, groups: map<Concept, seq<AttemptEvent>>, pf: GapPrediction)
    requires F in groups && Analyze(tables, F, groups[F]) == Some(pf)
    ensures Collect(tables, [F], groups) == [pf]
  {
    assert [F][..0] == [];
  }

  /** Collecting one more concept whose group yields a prediction appends that prediction. */
  lemma CollectSnoc(tables: Tables, keys: seq<Concept>, c: Concept, groups: map<Concept, seq<AttemptEvent>>,
                    p: GapPrediction)
    requires forall k :: k in keys ==> k in groups
    requires c in groups && Analyze(tables, c, groups[c]) == Some(p)
    ensures Collect(tables, keys + [c], groups) == Collect(tables, keys, groups) + [p]
  {
    assert (keys + [c])[..|keys|] == keys;
  }

  /** Sorting two predictions of equal confidence keeps their order. */
  lemma PairSort(pf: GapPrediction, pn: GapPrediction)
    requires pf.confidence == pn.confidence
    ensures SortBy([pf, pn], ConfidenceKey) == [pf, pn]
  {
    assert [pf, pn][1..] == [pn];
    assert [pn][1..] == [];
  }

  /** The rationale of a pair of all-wrong attempts with a repeated code. */
  lemma RationaleOf(tables: Tables, wrong: nat, total: nat, top: Option<(ErrorCode, nat)>, avgHints: real, avgTime: real)
    requires total > 0 && top.Some?
    ensures Rationale(tables, wrong, total, top, avgHints, avgTime) ==
      [IncorrectShare(wrong, total), Signature(tables.signatureHeading, tables.humanize(top.value.0), top.value.1)] +
      (if avgHints >= 1.0 then [HintUsage(avgHints)] else []) +
      (if avgTime >= 60.0 then [SlowSolve(avgTime)] else [])
  {
  }

  /** Averages over two attempts. */
  lemma PairAverages(a: AttemptEvent, b: AttemptEvent)
    ensures AvgHints([a, b]) == (a.hintsUsed + b.hintsUsed) / 2.0
    ensures AvgTime([a, b]) == (a.timeSpentSec + b.timeSpentSec) / 2.0
  {
    assert [a, b][..1] == [a];
    assert [a][..0] == [];
    assert SumHints([a]) == a.hintsUsed;
    assert SumHints([a, b]) == a.hintsUsed + b.hintsUsed;
    assert SumTime([a]) == a.timeSpentSec;
    assert SumTime([a, b]) == a.timeSpentSec + b.timeSpentSec;
  }

  /** Counting two attempts that carry the same code. */
  lemma CountPair(a: AttemptEvent, b: AttemptEvent, code: ErrorCode)
    requires a.errorCode == Some(code) && b.errorCode == Some(code)
    ensures CountErrors([a, b]).keys == [code]
    ensures CountErrors([a, b]).values == map[code := 2]
  {
    assert [a, b][..1] == [a];
    assert [a][..0] == [];
    var m0 := CountErrors([]);
    assert m0.GetOr(code, 0) == 0;
    var m1 := CountErrors([a]);
    assert m1.keys == [code] && m1.values == map[code := 1];
  }

  /** Two wrong attempts sharing a code: that code, twice, is the top error. */
  lemma TopErrorOfPair(a: AttemptEvent, b: AttemptEvent, code: ErrorCode)
    requires !a.isCorrect && !b.isCorrect
    requires a.errorCode == Some(code) && b.errorCode == Some(code)
    ensures TopErrorOf([a, b]) == Some((code, 2))
  {
    WrongOfAllWrong([a, b]);
    CountPair(a, b, code);
    SingleCodeIsTop(CountErrors([a, b]), code, 2);
  }

  /** A count map with a single code has that code as its top error. */
  lemma SingleCodeIsTop(counts: OrderedMap<ErrorCode, nat>, code: ErrorCode, k: nat)
    requires counts.Valid() && counts.keys == [code] && counts.values == map[code := k]
    ensures TopError(counts) == Some((code, k))
  {
    var es := counts.Entries();
    assert es == [(code, k)];
    assert es[1..] == [];
  }

  /** Two wrong attempts sharing a code: full confidence. */
  lemma ConfidenceOfPair(a: AttemptEvent, b: AttemptEvent, code: ErrorCode)
    requires !a.isCorrect && !b.isCorrect
    requires a.errorCode == Some(code) && b.errorCode == Some(code)
    ensures WrongRate([a, b]) == 1.0
    ensures ConfidenceOf([a, b]) == 1.0
  {
    var arr := [a, b];
    WrongOfAllWrong(arr);
    TopErrorOfPair(a, b, code);
    assert RepeatedBoost(TopErrorOf(arr), 2) == 0.35;
    assert WrongRate(arr) == 2.0 / 2.0 == 1.0;
  }

  /**
   * Two wrong attempts on one concept with one shared error code make a
   * high-severity gap with full confidence and that code, twice, as its
   * signature.
   */
  lemma AnalyzeWrongPair(tables: Tables, c: Concept, a: AttemptEvent, b: AttemptEvent, code: ErrorCode)
    returns (p: GapPrediction)
    requires !a.isCorrect && !b.isCorrect
    requires a.errorCode == Some(code) && b.errorCode == Some(code)
    ensures Analyze(tables, c, [a, b]) == Some(p)
    ensures p.concept == c && p.severity == High && p.confidence == 1.0
    ensures p.rationale ==
      Rationale(tables, 2, 2, Some((code, 2)), (a.hintsUsed + b.hintsUsed) / 2.0, (a.timeSpentSec + b.timeSpentSec) / 2.0)
  {
    var arr := [a, b];
    var avgHints, avgTime := (a.hintsUsed + b.hintsUsed) / 2.0, (a.timeSpentSec + b.timeSpentSec) / 2.0;
    assert |Wrong(arr)| == 2 by { WrongOfAllWrong(arr); }
    assert TopErrorOf(arr) == Some((code, 2)) by { TopErrorOfPair(a, b, code); }
    assert ConfidenceOf(arr) == 1.0 by { ConfidenceOfPair(a, b, code); }
    assert AvgHints(arr) == avgHints && AvgTime(arr) == avgTime by { PairAverages(a, b); }
    p := AnalyzeConfidentKnown(tables, c, arr, 2, Some((code, 2)), avgHints, avgTime);
  }

  /** Full confidence over at least two attempts always yields a high-severity prediction. */
  lemma AnalyzeConfident(tables: Tables, c: Concept, arr: seq<AttemptEvent>) returns (p: GapPrediction)
    requires |arr| >= 2 && ConfidenceOf(arr) == 1.0
    ensures Analyze(tables, c, arr) == Some(p)
    ensures p.concept == c && p.severity == High && p.confidence == 1.0
    ensures p.rationale ==
      Rationale(tables, |Wrong(arr)|, |arr|, TopErrorOf(arr), AvgHints(arr), AvgTime(arr))
  {
    assert SeverityOf(1.0) == High;
    p := Analyze(tables, c, arr).value;
  }

  /** `AnalyzeConfident` with the concept's statistics already known. */
  lemma AnalyzeConfidentKnown(tables: Tables, c: Concept, arr: seq<AttemptEvent>, wrong: nat,
                              top: Option<(ErrorCode, nat)>, avgHints: real, avgTime: real)
    returns (p: GapPrediction)
    requires |arr| >= 2 && ConfidenceOf(arr) == 1.0
    requires |Wrong(arr)| == wrong && TopErrorOf(arr) == top
    requires AvgHints(arr) == avgHints && AvgTime(arr) == avgTime
    ensures Analyze(tables, c, arr) == Some(p)
    ensures p.concept == c && p.severity == High && p.confidence == 1.0
    ensures p.rationale == Rationale(tables, wrong, |arr|, top, avgHints, avgTime)
  {
    p := AnalyzeConfident(tables, c, arr);
  }

  // ---------------------------------------------------------------------------
  // A single attempt
  // ---------------------------------------------------------------------------

  /** No concept appears twice among `tags`. */
  predicate DistinctTags(tags: seq<Concept>) {
    forall i, j :: 0 <= i < j < |tags| ==> tags[i] != tags[j]
  }

  lemma {:induction false} OccurrencesAtMostOne(tags: seq<Concept>, c: Concept)
    requires DistinctTags(tags)
    ensures Occurrences(tags, c) <= 1
  {
    if tags != [] {
      var init := tags[..|tags| - 1];
      OccurrencesAtMostOne(init, c);
      if tags[|tags| - 1] == c {
        assert c !in init by {
          forall i | 0 <= i < |init| ensures init[i] != c {
            assert init[i] == tags[i];
          }
        }
        OccurrencesPositive(init, c);
      }
    }
  }

  /** A one-attempt log holds that attempt once per time it carries the tag. */
  lemma OneEventsConcept(events: seq<AttemptEvent>, c: Concept)
    requires |events| == 1
    ensures ConceptEvents(events, c) == Repeat(events[0], Occurrences(events[0].conceptTags, c))
  {
    assert events[..0] == [];
    var r := Repeat(events[0], Occurrences(events[0].conceptTags, c));
    assert [] + r == r;
  }

  /** One attempt per concept is never enough: a single attempt with distinct tags yields nothing. */
  lemma SingleEventNoPrediction(tables: Tables, events: seq<AttemptEvent>)
    requires |events| == 1 && DistinctTags(events[0].conceptTags)
    ensures GapPredictions(tables, events) == []
  {
    var out := GapPredictions(tables, events);
    if out != [] {
      var p := out[0];
      assert p in out;
      OccurrencesAtMostOne(events[0].conceptTags, p.concept);
      OneEventsConcept(events, p.concept);
      SparseConceptSkipped(tables, events, p.concept);
      assert false;
    }
  }

  /**
   * The grouping counts tag occurrences, not attempts: one wrong attempt that
   * carries the same concept twice is already a high-severity gap.
   */
  lemma DuplicateTagCountsTwice(tables: Tables, events: seq<AttemptEvent>, c: Concept)
    requires |events| == 1 && events[0].conceptTags == [c, c] && !events[0].isCorrect
    ensures exists p :: p in GapPredictions(tables, events) && p.concept == c && p.severity == High
  {
    var e := events[0];
    assert [c, c][..1] == [c] && [c][..0] == [];
    assert Occurrences([c], c) == 1;
    assert Occurrences([c, c], c) == 2;
    OneEventsConcept(events, c);
    var arr := ConceptEvents(events, c);
    assert arr == [e, e];
    AllWrongIsHigh(tables, c, arr);
    PredictionsCharacterized(tables, events);
    var p := Analyze(tables, c, arr).value;
    assert p in GapPredictions(tables, events);
  }
}
