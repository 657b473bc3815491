/**
 * The standalone demo page: its own copy of the engine's tables (a different
 * signature heading, different error descriptions and three recommendations
 * for every concept), its seeded log and the two buttons that append a
 * simulated wrong attempt.
 */
module Page {
  import opened Wrappers
  import opened Types
  import opened Inference
  import opened InferenceProperties
  import opened DemoData
  import Scenarios

  /** The page's error descriptions. */
  function PageHumanize(code: ErrorCode): string {
    match code
    case DenominatorMismatch => "Denominator mismatch (not finding common denominators)"
    case SignError => "Sign errors with negatives"
    case DistributionError => "Distribution / bracket expansion mistakes"
    case Careless => "Careless arithmetic slips"
  }

  /** The page's recommendations: three for every concept, a generic three for the untailored ones. */
  function PageRecommend(concept: Concept): (r: seq<Recommendation>)
    ensures |r| == 3
    ensures concept !in {FractionsAddSub, NegativesSigns, AlgebraSimplify} ==>
      r == [ Recommendation("Targeted warm-up", "Practice now"),
             Recommendation("One concept recap", "Review"),
             Recommendation("Mixed review set", "Schedule later") ]
  {
    match concept
    case FractionsAddSub =>
      [ Recommendation("Micro-lesson: common denominators", "Review in 2 minutes"),
        Recommendation("5 targeted drills", "Practice now"),
        Recommendation("One worked example", "See step-by-step") ]
    case NegativesSigns =>
      [ Recommendation("Rule card: sign flips", "Memorize + test"),
        Recommendation("Timed mini-quiz (90s)", "Practice now"),
        Recommendation("Explain-back prompt", "Teach it to Astra") ]
    case AlgebraSimplify =>
      [ Recommendation("Like terms refresher", "Review in 3 minutes"),
        Recommendation("Simplify 6 expressions", "Practice now"),
        Recommendation("Common traps", "Quick checklist") ]
    case _ =>
      [ Recommendation("Targeted warm-up", "Practice now"),
        Recommendation("One concept recap", "Review"),
        Recommendation("Mixed review set", "Schedule later") ]
  }

  const PageTables := Tables("Repeated pattern detected", PageHumanize, PageRecommend)

  /** The page describes distinct codes distinctly. */
  lemma PageHumanizeDistinguishesCodes(c1: ErrorCode, c2: ErrorCode)
    ensures PageHumanize(c1) == PageHumanize(c2) ==> c1 == c2
  {
  }

  /** The two buttons. */
  datatype AttemptKind = Fractions | Signs

  /** The attempt a button appends, with a fresh id and the clock reading `ts`. */
  function SimulatedAttempt(kind: AttemptKind, id: string, ts: real): (e: AttemptEvent)
    ensures e.id == id && e.ts == ts && !e.isCorrect
    ensures kind == Fractions ==>
      e.conceptTags == [FractionsAddSub] && e.errorCode == Some(DenominatorMismatch)
    ensures kind == Signs ==>
      e.conceptTags == [NegativesSigns, AlgebraSimplify] && e.errorCode == Some(SignError)
  {
    match kind
    case Fractions =>
      AttemptEvent(id, ts, "P-1054", "Compute: 3/4 + 1/8", [FractionsAddSub],
                   "4/12", "7/8", false, 83.0, 2.0, Some(DenominatorMismatch))
    case Signs =>
      AttemptEvent(id, ts, "P-2113", "Simplify: -(x - 4) when x=2", [NegativesSigns, AlgebraSimplify],
                   "-(-2)", "2", false, 58.0, 1.0, Some(SignError))
  }

  class DemoPage {
    var events: seq<AttemptEvent>

    /** Every attempt on the page is a wrong one: the seed and both buttons only add those. */
    ghost predicate Valid()
      reads this
    {
      forall e :: e in events ==> !e.isCorrect
    }

    /** Mounting: the seed, drawn at `base` with `ids`. */
    constructor(base: real, ids: seq<string>)
      requires |ids| == 4
      ensures events == SeedEvents(base, ids)
      ensures Valid()
    {
      events := SeedEvents(base, ids);
    }

    /** The page's predictions, recomputed from its log. */
    function Predictions(): (out: seq<GapPrediction>)
      reads this
      requires Valid()
      ensures forall p :: p in out ==> p.severity == High
      ensures forall c :: |ConceptEvents(events, c)| >= 2 ==> exists p :: p in out && p.concept == c
    {
      AllWrongLogAllHigh(PageTables, events);
      GapPredictions(PageTables, events)
    }

    /** `addSimulatedAttempt`: append the attempt of the pressed button. */
    method AddSimulatedAttempt(kind: AttemptKind, id: string, ts: real)
      requires Valid()
      modifies this
      ensures events == old(events) + [SimulatedAttempt(kind, id, ts)]
      ensures Valid()
    {
      events := events + [SimulatedAttempt(kind, id, ts)];
    }
  }

  /** The page shows the seed as two high-severity gaps, fractions first. */
  lemma PageSeedPredictions(base: real, ids: seq<string>)
    requires |ids| == 4
    ensures var out := GapPredictions(PageTables, SeedEvents(base, ids));
      |out| == 2 && out[0].concept == FractionsAddSub && out[1].concept == NegativesSigns &&
      out[0].severity == High && out[1].severity == High
  {
    Scenarios.SeedYieldsTwoHighGaps(PageTables, base, ids);
  }

  /**
   * Pressing "signs" once on the seeded page adds no algebra gap: the new
   * attempt is the only one tagged with that concept.
   */
  lemma SignsClickNoAlgebraGap(base: real, ids: seq<string>, id: string, ts: real)
    requires |ids| == 4
    ensures forall p :: p in GapPredictions(PageTables, SeedEvents(base, ids) + [SimulatedAttempt(Signs, id, ts)]) ==>
      p.concept != AlgebraSimplify
  {
    var seed := SeedEvents(base, ids);
    var x := SimulatedAttempt(Signs, id, ts);
    var A := AlgebraSimplify;
    SeedHasNoAlgebra(seed);
    ConceptEventsPush(seed, x, A);
    assert [NegativesSigns, A][..1] == [NegativesSigns] && [NegativesSigns][..0] == [];
    assert Occurrences(x.conceptTags, A) == 1;
    SparseConceptSkipped(PageTables, seed + [x], A);
  }

  /** No seed attempt is tagged with algebra. */
  lemma SeedHasNoAlgebra(seed: seq<AttemptEvent>)
    requires forall e :: e in seed ==> e.conceptTags == [FractionsAddSub] || e.conceptTags == [NegativesSigns]
    ensures ConceptEvents(seed, AlgebraSimplify) == []
  {
    var ce := ConceptEvents(seed, AlgebraSimplify);
    if ce != [] {
      var e := ce[0];
      assert e in ce;
      ConceptEventsMembers(seed, AlgebraSimplify);
      assert false;
    }
  }
}
