/**
 * What `computeGapPredictions` promises, proved about its specification
 * `Inference.GapPredictions` for every choice of wording tables.
 */
module InferenceProperties {
  import opened Wrappers
  import opened Types
  import opened OrderedMaps
  import opened Sorting
  import opened Inference

  // ---------------------------------------------------------------------------
  // Grouping is fan-out by tag
  // ---------------------------------------------------------------------------

  lemma {:induction false} OccurrencesPositive(tags: seq<Concept>, c: Concept)
    ensures Occurrences(tags, c) > 0 <==> c in tags
  {
    if tags != [] {
      var init := tags[..|tags| - 1];
      OccurrencesPositive(init, c);
      assert tags == init + [tags[|tags| - 1]];
    }
  }

  /** Visiting one pair touches only its own concept's list. */
  lemma GroupPushGetOr(pairs: seq<(AttemptEvent, Concept)>, e: AttemptEvent, t: Concept, c: Concept)
    ensures Group(pairs + [(e, t)]).GetOr(c, []) ==
            Group(pairs).GetOr(c, []) + (if t == c then [e] else [])
    ensures c in Group(pairs + [(e, t)]).values <==> c in Group(pairs).values || t == c
  {
    GroupPush(pairs, e, t);
  }

  /** The pairs of an event's tags end with the pair of its last tag. */
  lemma TagPairsLast(pairs: seq<(AttemptEvent, Concept)>, e: AttemptEvent, tags: seq<Concept>)
    requires tags != []
    ensures pairs + TagPairs(e, tags) ==
            (pairs + TagPairs(e, tags[..|tags| - 1])) + [(e, tags[|tags| - 1])]
  {
    TagPairsPush(pairs, e, tags, |tags| - 1);
    assert tags[..|tags| - 1 + 1] == tags;
  }

  /** One more pair `(e, t)`: the events of `c` gain one more `e` exactly when `t` is `c`. */
  lemma AppendOneTag(before: seq<(AttemptEvent, Concept)>, e: AttemptEvent, t: Concept, c: Concept,
                     prefix: seq<AttemptEvent>, k: nat)
    requires Group(before).GetOr(c, []) == prefix + Repeat(e, k)
    ensures Group(before + [(e, t)]).GetOr(c, []) == prefix + Repeat(e, k + if t == c then 1 else 0)
    ensures c in Group(before + [(e, t)]).values <==> c in Group(before).values || t == c
  {
    GroupPushGetOr(before, e, t, c);
    if t == c {
      assert Repeat(e, k) + [e] == Repeat(e, k + 1);
    }
  }

  /** Visiting all pairs of one more event appends that event once per tag occurrence. */
  lemma {:induction false} GroupAppendTags(pairs: seq<(AttemptEvent, Concept)>, e: AttemptEvent,
                                           tags: seq<Concept>, c: Concept)
    ensures Group(pairs + TagPairs(e, tags)).GetOr(c, []) ==
            Group(pairs).GetOr(c, []) + Repeat(e, Occurrences(tags, c))
    ensures c in Group(pairs + TagPairs(e, tags)).values <==>
            c in Group(pairs).values || Occurrences(tags, c) > 0
  {
    if tags == [] {
      assert pairs + TagPairs(e, tags) == pairs;
    } else {
      var init := tags[..|tags| - 1];
      var t := tags[|tags| - 1];
      var before := pairs + TagPairs(e, init);
      GroupAppendTags(pairs, e, init, c);
      TagPairsLast(pairs, e, tags);
      assert Occurrences(tags, c) == Occurrences(init, c) + if t == c then 1 else 0;
      AppendOneTag(before, e, t, c, Group(pairs).GetOr(c, []), Occurrences(init, c));
    }
  }

  /** The list `byConcept` holds for a concept is exactly that concept's events. */
  lemma {:induction false} GroupIsConceptEvents(events: seq<AttemptEvent>, c: Concept)
    ensures Group(TagStream(events)).GetOr(c, []) == ConceptEvents(events, c)
    ensures c in Group(TagStream(events)).values <==> ConceptEvents(events, c) != []
  {
    if events != [] {
      var init := events[..|events| - 1];
      var e := events[|events| - 1];
      GroupIsConceptEvents(init, c);
      GroupAppendTags(TagStream(init), e, e.conceptTags, c);
    }
  }

  /** A concept's events are events of the log that carry the concept. */
  lemma {:induction false} ConceptEventsMembers(events: seq<AttemptEvent>, c: Concept)
    ensures forall e :: e in ConceptEvents(events, c) ==> e in events && c in e.conceptTags
  {
    if events != [] {
      var init := events[..|events| - 1];
      var last := events[|events| - 1];
      ConceptEventsMembers(init, c);
      OccurrencesPositive(last.conceptTags, c);
      assert events == init + [last];
      forall e | e in ConceptEvents(events, c) ensures e in events && c in e.conceptTags {
        if e !in ConceptEvents(init, c) {
          assert e in Repeat(last, Occurrences(last.conceptTags, c));
        }
      }
    }
  }

  // ---------------------------------------------------------------------------
  // Error signatures
  // ---------------------------------------------------------------------------

  lemma {:induction false} CodeCountPositive(wrong: seq<AttemptEvent>, code: ErrorCode)
    ensures CodeCount(wrong, code) > 0 <==>
            exists i :: 0 <= i < |wrong| && wrong[i].errorCode == Some(code)
  {
    if wrong != [] {
      var init := wrong[..|wrong| - 1];
      CodeCountPositive(init, code);
      if exists i :: 0 <= i < |init| && init[i].errorCode == Some(code) {
        var i :| 0 <= i < |init| && init[i].errorCode == Some(code);
        assert wrong[i] == init[i];
      }
      if exists i :: 0 <= i < |wrong| && wrong[i].errorCode == Some(code) {
        var i :| 0 <= i < |wrong| && wrong[i].errorCode == Some(code);
        if i < |init| {
          assert init[i] == wrong[i];
        }
      }
    }
  }

  /** `errorCounts` counts each code over the wrong attempts, and holds only codes that occur. */
  lemma {:induction false} CountErrorsCounts(wrong: seq<AttemptEvent>, code: ErrorCode)
    ensures CountErrors(wrong).GetOr(code, 0) == CodeCount(wrong, code)
    ensures code in CountErrors(wrong).values <==> CodeCount(wrong, code) > 0
  {
    if wrong != [] {
      CountErrorsCounts(wrong[..|wrong| - 1], code);
    }
  }

  /**
   * `topError` is absent exactly when no wrong attempt carries an error code;
   * otherwise its count is the largest count of any code, and among the codes
   * with that count it is the one `errorCounts` received first.
   */
  lemma TopErrorIsEarliestMaximum(wrong: seq<AttemptEvent>)
    ensures TopError(CountErrors(wrong)).None? <==> forall i :: 0 <= i < |wrong| ==> wrong[i].errorCode.None?
    ensures var m := CountErrors(wrong);
      var top := TopError(m);
      top.Some? ==>
        && top.value.1 == CodeCount(wrong, top.value.0) > 0
        && (forall code :: CodeCount(wrong, code) <= top.value.1)
        && exists i :: 0 <= i < |m.keys| && m.keys[i] == top.value.0 &&
             forall j :: 0 <= j < i ==> CodeCount(wrong, m.keys[j]) < top.value.1
  {
    var m := CountErrors(wrong);
    forall code ensures m.GetOr(code, 0) == CodeCount(wrong, code)
                    && (code in m.values <==> CodeCount(wrong, code) > 0)
                    && (CodeCount(wrong, code) > 0 <==>
                          exists i :: 0 <= i < |wrong| && wrong[i].errorCode == Some(code)) {
      CountErrorsCounts(wrong, code);
      CodeCountPositive(wrong, code);
    }
    if m.keys == [] {
      assert m.Entries() == [];
      forall i | 0 <= i < |wrong| ensures wrong[i].errorCode.None? {
        match wrong[i].errorCode
        case None =>
        case Some(code) => assert false;
      }
    } else {
      var code := m.keys[0];
      assert code in m.values;
      var i0 :| 0 <= i0 < |wrong| && wrong[i0].errorCode == Some(code);
      assert !wrong[i0].errorCode.None?;
      var idx := TopOfCounts(m);
      var top := TopError(m).value;
      forall c ensures CodeCount(wrong, c) <= top.1 {
        if c in m.values {
          assert m.GetOr(c, 0) == m.values[c];
        }
      }
      forall j | 0 <= j < idx ensures CodeCount(wrong, m.keys[j]) < top.1 {
        assert m.GetOr(m.keys[j], 0) == m.values[m.keys[j]];
      }
    }
  }

  /**
   * Over any non-empty count map, the descending stable sort puts first the
   * largest count, and among equal counts the key inserted first.
   */
  lemma TopOfCounts(m: OrderedMap<ErrorCode, nat>) returns (idx: nat)
    requires m.Valid() && m.keys != []
    ensures TopError(m).Some?
    ensures idx < |m.keys| && TopError(m).value == (m.keys[idx], m.values[m.keys[idx]])
    ensures forall code :: code in m.values ==> m.values[code] <= TopError(m).value.1
    ensures forall j :: 0 <= j < idx ==> m.values[m.keys[j]] < TopError(m).value.1
  {
    var entries := m.Entries();
    idx := FirstMinIndex(entries, CountKey);
    SortHeadIsFirstMinimum(entries, CountKey);
    var top := TopError(m).value;
    assert top == entries[idx];
    forall code | code in m.values ensures m.values[code] <= top.1 {
      var j :| 0 <= j < |m.keys| && m.keys[j] == code;
      assert CountKey(entries[idx]) <= CountKey(entries[j]);
    }
    forall j | 0 <= j < idx ensures m.values[m.keys[j]] < top.1 {
      assert CountKey(entries[idx]) < CountKey(entries[j]);
    }
  }


  /** No signature line and no signature boost unless some wrong attempt carries an error code. */
  lemma SignatureNeedsErrorCode(tables: Tables, arr: seq<AttemptEvent>)
    requires |arr| > 0
    ensures TopErrorOf(arr).None? <==> forall e :: e in arr && !e.isCorrect ==> e.errorCode.None?
    ensures TopErrorOf(arr).None? ==>
      && RepeatedBoost(TopErrorOf(arr), |arr|) == 0.0
      && !HasLine(Rationale(tables, |Wrong(arr)|, |arr|, TopErrorOf(arr), AvgHints(arr), AvgTime(arr)), 1)
  {
    var wrong := Wrong(arr);
    TopErrorIsEarliestMaximum(wrong);
    if TopErrorOf(arr).None? {
      forall e | e in arr && !e.isCorrect ensures e.errorCode.None? {
        var i :| 0 <= i < |wrong| && wrong[i] == e;
      }
    } else {
      var i :| 0 <= i < |wrong| && wrong[i].errorCode.Some?;
      assert wrong[i] in arr && !wrong[i].isCorrect;
    }
  }

  // ---------------------------------------------------------------------------
  // The whole pass
  // ---------------------------------------------------------------------------

  lemma {:induction false} CollectMembers(tables: Tables, keys: seq<Concept>, groups: map<Concept, seq<AttemptEvent>>)
    requires forall c :: c in keys ==> c in groups
    ensures forall p :: p in Collect(tables, keys, groups) ==>
      p.concept in keys && Analyze(tables, p.concept, groups[p.concept]) == Some(p)
    ensures forall c :: c in keys && Analyze(tables, c, groups[c]).Some? ==>
      Analyze(tables, c, groups[c]).value in Collect(tables, keys, groups)
  {
    if keys != [] {
      var init := keys[..|keys| - 1];
      assert keys == init + [keys[|keys| - 1]];
      CollectMembers(tables, init, groups);
    }
  }

  lemma {:induction false} CollectDistinct(tables: Tables, keys: seq<Concept>, groups: map<Concept, seq<AttemptEvent>>)
    requires forall c :: c in keys ==> c in groups
    requires forall i, j :: 0 <= i < j < |keys| ==> keys[i] != keys[j]
    ensures DistinctBy(Collect(tables, keys, groups), PredictionConcept)
  {
    if keys != [] {
      var init := keys[..|keys| - 1];
      var c := keys[|keys| - 1];
      CollectDistinct(tables, init, groups);
      CollectMembers(tables, init, groups);
      var before := Collect(tables, init, groups);
      var after := Collect(tables, keys, groups);
      if Analyze(tables, c, groups[c]).Some? {
        var p := Analyze(tables, c, groups[c]).value;
        assert after == before + [p];
        assert c !in init;
        forall i, j | 0 <= i < j < |after| ensures after[i].concept != after[j].concept {
          if j == |before| {
            assert after[i] in before;
          } else {
            assert after[i] == before[i] && after[j] == before[j];
          }
        }
      }
    }
  }

  /** One more key keeps the predictions collected so far and appends at most one, for that key. */
  lemma CollectStep(tables: Tables, keys: seq<Concept>, groups: map<Concept, seq<AttemptEvent>>)
    requires keys != [] && forall c :: c in keys ==> c in groups
    ensures var before := Collect(tables, keys[..|keys| - 1], groups);
      var after := Collect(tables, keys, groups);
      && |before| <= |after| <= |before| + 1
      && after[..|before|] == before
      && (|after| > |before| ==> after[|before|].concept == keys[|keys| - 1])
  {
    var c := keys[|keys| - 1];
    match Analyze(tables, c, groups[c])
    case None =>
    case Some(p) =>
  }

  /** Every collected prediction is for one of `keys`. */
  lemma {:induction false} CollectConceptIn(tables: Tables, keys: seq<Concept>, groups: map<Concept, seq<AttemptEvent>>,
                                            i: nat)
    requires forall c :: c in keys ==> c in groups
    requires i < |Collect(tables, keys, groups)|
    ensures exists a :: 0 <= a < |keys| && keys[a] == Collect(tables, keys, groups)[i].concept
  {
    var init := keys[..|keys| - 1];
    assert forall k :: k in init ==> k in keys;
    CollectStep(tables, keys, groups);
    var before := Collect(tables, init, groups);
    var after := Collect(tables, keys, groups);
    if i < |before| {
      CollectConceptIn(tables, init, groups, i);
      var a :| 0 <= a < |init| && init[a] == before[i].concept;
      assert after[i] == after[..|before|][i];
      assert keys[a] == init[a];
    } else {
      assert keys[|keys| - 1] == after[i].concept;
    }
  }

  /** Collected predictions follow the order of their concepts among `keys`. */
  lemma {:induction false} CollectOrder(tables: Tables, keys: seq<Concept>, groups: map<Concept, seq<AttemptEvent>>,
                                        i: nat, j: nat)
    requires forall c :: c in keys ==> c in groups
    requires i < j < |Collect(tables, keys, groups)|
    ensures exists a, b ::
      && 0 <= a < b < |keys|
      && keys[a] == Collect(tables, keys, groups)[i].concept
      && keys[b] == Collect(tables, keys, groups)[j].concept
  {
    var init := keys[..|keys| - 1];
    assert forall k :: k in init ==> k in keys;
    CollectStep(tables, keys, groups);
    var before := Collect(tables, init, groups);
    var after := Collect(tables, keys, groups);
    if j < |before| {
      CollectOrder(tables, init, groups, i, j);
    } else {
      CollectConceptIn(tables, init, groups, i);
    }
    OrderStep(keys, init, before, after, i, j);
  }

  /** The index reasoning of `CollectOrder`'s step, on plain sequences. */
  lemma OrderStep(keys: seq<Concept>, init: seq<Concept>, before: seq<GapPrediction>, after: seq<GapPrediction>,
                  i: nat, j: nat)
    requires keys != [] && init == keys[..|keys| - 1]
    requires |before| <= |after| <= |before| + 1 && after[..|before|] == before
    requires |after| > |before| ==> after[|before|].concept == keys[|keys| - 1]
    requires i < j < |after|
    requires j < |before| ==>
      exists a, b :: 0 <= a < b < |init| && init[a] == before[i].concept && init[b] == before[j].concept
    requires j >= |before| ==> exists a :: 0 <= a < |init| && init[a] == before[i].concept
    ensures exists a, b :: 0 <= a < b < |keys| && keys[a] == after[i].concept && keys[b] == after[j].concept
  {
    assert after[i] == after[..|before|][i] == before[i];
    if j < |before| {
      var a, b :| 0 <= a < b < |init| && init[a] == before[i].concept && init[b] == before[j].concept;
      assert after[j] == after[..|before|][j];
      assert keys[a] == init[a] && keys[b] == init[b];
    } else {
      var a :| 0 <= a < |init| && init[a] == before[i].concept;
      assert keys[a] == init[a];
    }
  }

  /**
   * Ties keep first-seen order: of two predictions with equal confidence, the
   * one listed first is for the concept that the log tags first.
   */
  lemma TiesKeepFirstSeenOrder(tables: Tables, events: seq<AttemptEvent>, i: nat, j: nat)
    requires i < j < |GapPredictions(tables, events)|
    requires GapPredictions(tables, events)[i].confidence == GapPredictions(tables, events)[j].confidence
    ensures SeenBefore(Group(TagStream(events)).keys,
      GapPredictions(tables, events)[i].concept, GapPredictions(tables, events)[j].concept)
  {
    var m := Group(TagStream(events));
    var collected := Collect(tables, m.keys, m.values);
    var out := GapPredictions(tables, events);
    assert out == SortBy(collected, ConfidenceKey);
    assert ConfidenceKey(out[i]) == ConfidenceKey(out[j]);
    SortKeepsTieOrder(collected, ConfidenceKey, i, j);
    var i', j' :| 0 <= i' < j' < |collected| && collected[i'] == out[i] && collected[j'] == out[j];
    CollectOrder(tables, m.keys, m.values, i', j');
    var a, b :| 0 <= a < b < |m.keys| && m.keys[a] == collected[i'].concept && m.keys[b] == collected[j'].concept;
    assert m.keys[a] == out[i].concept && m.keys[b] == out[j].concept;
    SeenBeforeAt(m.keys, out[i].concept, out[j].concept, a, b);
  }

  /** `c` occurs in `keys` before `d` does. */
  ghost predicate SeenBefore(keys: seq<Concept>, c: Concept, d: Concept) {
    exists a, b :: 0 <= a < b < |keys| && keys[a] == c && keys[b] == d
  }

  lemma SeenBeforeAt(keys: seq<Concept>, c: Concept, d: Concept, a: nat, b: nat)
    requires a < b < |keys| && keys[a] == c && keys[b] == d
    ensures SeenBefore(keys, c, d)
  {
  }

  /**
   * The output, characterised: each prediction is the one its concept's events
   * yield, every concept that yields one is present, no concept twice, and
   * confidence never increases along the list.
   */
  lemma PredictionsCharacterized(tables: Tables, events: seq<AttemptEvent>)
    ensures var out := GapPredictions(tables, events);
      && (forall p :: p in out ==> Analyze(tables, p.concept, ConceptEvents(events, p.concept)) == Some(p))
      && (forall c :: Analyze(tables, c, ConceptEvents(events, c)).Some? ==>
            Analyze(tables, c, ConceptEvents(events, c)).value in out)
      && DistinctBy(out, PredictionConcept)
      && (forall i, j :: 0 <= i < j < |out| ==> out[i].confidence >= out[j].confidence)
  {
    var m := Group(TagStream(events));
    var collected := Collect(tables, m.keys, m.values);
    var out := GapPredictions(tables, events);
    assert out == SortBy(collected, ConfidenceKey);
    CollectMembers(tables, m.keys, m.values);
    CollectDistinct(tables, m.keys, m.values);
    SortKeepsMembers(collected, ConfidenceKey);
    SortKeepsDistinct(collected, ConfidenceKey, PredictionConcept);
    forall c ensures m.GetOr(c, []) == ConceptEvents(events, c)
                 && (c in m.values <==> ConceptEvents(events, c) != []) {
      GroupIsConceptEvents(events, c);
    }
    forall i, j | 0 <= i < j < |out| ensures out[i].confidence >= out[j].confidence {
      assert ConfidenceKey(out[i]) <= ConfidenceKey(out[j]);
    }
  }

  /** An empty log yields no predictions. */
  lemma EmptyInputNoPredictions(tables: Tables)
    ensures GapPredictions(tables, []) == []
  {
  }

  /** Every emitted concept is tagged by some event, and no concept is emitted twice. */
  lemma EmittedConceptsAreTagged(tables: Tables, events: seq<AttemptEvent>)
    ensures var out := GapPredictions(tables, events);
      && (forall p :: p in out ==> exists e :: e in events && p.concept in e.conceptTags)
      && (forall i, j :: 0 <= i < j < |out| ==> out[i].concept != out[j].concept)
  {
    var out := GapPredictions(tables, events);
    PredictionsCharacterized(tables, events);
    forall p | p in out ensures exists e :: e in events && p.concept in e.conceptTags {
      var arr := ConceptEvents(events, p.concept);
      ConceptEventsMembers(events, p.concept);
      assert arr[0] in arr;
    }
    assert DistinctBy(out, PredictionConcept);
    forall i, j | 0 <= i < j < |out| ensures out[i].concept != out[j].concept {
      assert PredictionConcept(out[i]) != PredictionConcept(out[j]);
    }
  }

  /** A concept tagged fewer than two times never produces a prediction. */
  lemma SparseConceptSkipped(tables: Tables, events: seq<AttemptEvent>, c: Concept)
    requires |ConceptEvents(events, c)| < 2
    ensures forall p :: p in GapPredictions(tables, events) ==> p.concept != c
  {
    PredictionsCharacterized(tables, events);
  }

  /**
   * Every emitted prediction has a confidence in [0, 1], the severity its
   * confidence selects, is not a low-severity concept with a wrong rate under
   * 0.34, carries 1 to 4 rationale lines in the fixed order starting with the
   * wrong/total line, and the concept's entry of the recommendation table.
   */
  lemma PredictionsWellFormed(tables: Tables, events: seq<AttemptEvent>)
    ensures forall p :: p in GapPredictions(tables, events) ==>
      var arr := ConceptEvents(events, p.concept);
      && |arr| >= 2
      && 0.0 <= p.confidence <= 1.0
      && p.confidence == ConfidenceOf(arr)
      && (p.severity == High <==> p.confidence > 0.72)
      && (p.severity == Medium <==> 0.48 < p.confidence <= 0.72)
      && (p.severity == Low <==> p.confidence <= 0.48)
      && !(p.severity == Low && WrongRate(arr) < 0.34)
      && 1 <= |p.rationale| <= 4
      && p.rationale[0] == IncorrectShare(|Wrong(arr)|, |arr|)
      && RanksIncrease(p.rationale)
      && (HasLine(p.rationale, 1) <==> TopErrorOf(arr).Some?)
      && (HasLine(p.rationale, 2) <==> AvgHints(arr) >= 1.0)
      && (HasLine(p.rationale, 3) <==> AvgTime(arr) >= 60.0)
      && p.recommendedNext == tables.recommend(p.concept)
  {
    PredictionsCharacterized(tables, events);
  }

  /** Every concept with at least two events and a wrong rate of at least 0.34 is emitted. */
  lemma FrequentWrongIsEmitted(tables: Tables, events: seq<AttemptEvent>, c: Concept)
    requires |ConceptEvents(events, c)| >= 2
    requires WrongRate(ConceptEvents(events, c)) >= 0.34
    ensures exists p :: p in GapPredictions(tables, events) && p.concept == c
  {
    PredictionsCharacterized(tables, events);
    var p := Analyze(tables, c, ConceptEvents(events, c)).value;
    assert p in GapPredictions(tables, events);
  }

  lemma {:induction false} WrongOfAllWrong(arr: seq<AttemptEvent>)
    requires forall e :: e in arr ==> !e.isCorrect
    ensures Wrong(arr) == arr
  {
    if arr != [] {
      WrongOfAllWrong(arr[1..]);
      assert arr == [arr[0]] + arr[1..];
    }
  }

  /** The filter keeps every wrong attempt as often as it occurs and drops every correct one. */
  lemma {:induction false} WrongKeepsMultiplicity(arr: seq<AttemptEvent>)
    ensures forall e :: multiset(Wrong(arr))[e] == if e.isCorrect then 0 else multiset(arr)[e]
  {
    if arr != [] {
      var rest := arr[1..];
      WrongKeepsMultiplicity(rest);
      assert arr == [arr[0]] + rest;
      assert multiset(arr) == multiset{arr[0]} + multiset(rest);
      var head := if arr[0].isCorrect then [] else [arr[0]];
      assert multiset(Wrong(arr)) == multiset(head) + multiset(Wrong(rest));
    }
  }

  lemma DivSelf(x: real)
    requires x > 0.0
    ensures x / x == 1.0
  {
  }

  /** A concept whose two or more attempts are all wrong is always emitted as high severity. */
  lemma AllWrongIsHigh(tables: Tables, concept: Concept, arr: seq<AttemptEvent>)
    requires |arr| >= 2
    requires forall e :: e in arr ==> !e.isCorrect
    ensures Analyze(tables, concept, arr).Some?
    ensures Analyze(tables, concept, arr).value.severity == High
  {
    WrongOfAllWrong(arr);
    var n := |arr| as real;
    assert |Wrong(arr)| == |arr|;
    DivSelf(n);
    assert WrongRate(arr) == 1.0;
    var confidence := ConfidenceOf(arr);
    assert confidence >= 0.75;
    assert SeverityOf(confidence) == High;
  }

  /**
   * In a log of wrong attempts only: every gap shown is high severity, and
   * every concept tagged at least twice is shown.
   */
  lemma AllWrongLogAllHigh(tables: Tables, events: seq<AttemptEvent>)
    requires forall e :: e in events ==> !e.isCorrect
    ensures forall p :: p in GapPredictions(tables, events) ==> p.severity == High
    ensures forall c :: |ConceptEvents(events, c)| >= 2 ==>
      exists p :: p in GapPredictions(tables, events) && p.concept == c
  {
    var out := GapPredictions(tables, events);
    PredictionsCharacterized(tables, events);
    forall p | p in out ensures p.severity == High {
      ConceptEventsMembers(events, p.concept);
      AllWrongIsHigh(tables, p.concept, ConceptEvents(events, p.concept));
    }
    forall c | |ConceptEvents(events, c)| >= 2 ensures exists p :: p in out && p.concept == c {
      ConceptEventsMembers(events, c);
      AllWrongIsHigh(tables, c, ConceptEvents(events, c));
      var p := Analyze(tables, c, ConceptEvents(events, c)).value;
      assert p in out && p.concept == c;
    }
  }

  /** Appending an attempt appends it to each concept it tags, once per tag occurrence. */
  lemma ConceptEventsPush(events: seq<AttemptEvent>, e: AttemptEvent, c: Concept)
    ensures ConceptEvents(events + [e], c) == ConceptEvents(events, c) + Repeat(e, Occurrences(e.conceptTags, c))
  {
    assert (events + [e])[..|events|] == events;
  }
}
