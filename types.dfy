/**
 * The shared vocabulary of the gap predictor: concepts, error codes, attempt
 * events and gap predictions, with the wire names the persisted log uses and
 * the human-readable concept labels.
 */
module Types {
  import opened Wrappers

  /** The tracked skill areas; a closed set of five. */
  datatype Concept =
    | FractionsAddSub
    | FractionsMulDiv
    | NegativesSigns
    | AlgebraSimplify
    | LinearEquations

  /** The classifications of a mistake; a closed set of four. */
  datatype ErrorCode =
    | DenominatorMismatch
    | SignError
    | DistributionError
    | Careless

  /**
   * One recorded attempt. Every JavaScript `number` is a `real`; `errorCode`
   * is the only optional field.
   */
  datatype AttemptEvent = AttemptEvent(
    id: string,
    ts: real,
    problemId: string,
    prompt: string,
    conceptTags: seq<Concept>,
    studentAnswer: string,
    correctAnswer: string,
    isCorrect: bool,
    timeSpentSec: real,
    hintsUsed: real,
    errorCode: Option<ErrorCode>)

  datatype GapSeverity = Low | Medium | High

  /** One `{ title, action }` entry of a prediction's `recommendedNext`. */
  datatype Recommendation = Recommendation(title: string, action: string)

  /**
   * A rationale line, kept structured: the numbers each line prints are
   * stored, their rendering to text is not modelled.
   */
  datatype RationaleLine =
    | IncorrectShare(wrong: nat, total: nat)
    | Signature(heading: string, description: string, count: nat)
    | HintUsage(avgHints: real)
    | SlowSolve(avgTime: real)

  datatype GapPrediction = GapPrediction(
    concept: Concept,
    confidence: real,
    severity: GapSeverity,
    rationale: seq<RationaleLine>,
    recommendedNext: seq<Recommendation>)

  /** Every concept, each once. */
  const AllConcepts: seq<Concept> :=
    [FractionsAddSub, FractionsMulDiv, NegativesSigns, AlgebraSimplify, LinearEquations]

  /** Every error code, each once. */
  const AllErrorCodes: seq<ErrorCode> :=
    [DenominatorMismatch, SignError, DistributionError, Careless]

  lemma ConceptIsClosed(c: Concept)
    ensures c in AllConcepts
    ensures |AllConcepts| == 5
    ensures forall i, j :: 0 <= i < j < |AllConcepts| ==> AllConcepts[i] != AllConcepts[j]
  {
  }

  lemma ErrorCodeIsClosed(e: ErrorCode)
    ensures e in AllErrorCodes
    ensures |AllErrorCodes| == 4
    ensures forall i, j :: 0 <= i < j < |AllErrorCodes| ==> AllErrorCodes[i] != AllErrorCodes[j]
  {
  }

  /** The string a concept is written as in the persisted log. */
  function ConceptName(c: Concept): string {
    match c
    case FractionsAddSub => "fractions_add_sub"
    case FractionsMulDiv => "fractions_mul_div"
    case NegativesSigns => "negatives_signs"
    case AlgebraSimplify => "algebra_simplify"
    case LinearEquations => "linear_equations"
  }

  /** The concept a string names, if it names one: exactly five strings do. */
  function ConceptFromName(s: string): (r: Option<Concept>)
    ensures r.Some? ==> ConceptName(r.value) == s
    ensures r.None? ==> forall c :: ConceptName(c) != s
  {
    if s == "fractions_add_sub" then Some(FractionsAddSub)
    else if s == "fractions_mul_div" then Some(FractionsMulDiv)
    else if s == "negatives_signs" then Some(NegativesSigns)
    else if s == "algebra_simplify" then Some(AlgebraSimplify)
    else if s == "linear_equations" then Some(LinearEquations)
    else None
  }

  /** The string an error code is written as in the persisted log. */
  function ErrorCodeName(e: ErrorCode): string {
    match e
    case DenominatorMismatch => "denominator_mismatch"
    case SignError => "sign_error"
    case DistributionError => "distribution_error"
    case Careless => "careless"
  }

  /** The error code a string names, if it names one: exactly four strings do. */
  function ErrorCodeFromName(s: string): (r: Option<ErrorCode>)
    ensures r.Some? ==> ErrorCodeName(r.value) == s
    ensures r.None? ==> forall e :: ErrorCodeName(e) != s
  {
    if s == "denominator_mismatch" then Some(DenominatorMismatch)
    else if s == "sign_error" then Some(SignError)
    else if s == "distribution_error" then Some(DistributionError)
    else if s == "careless" then Some(Careless)
    else None
  }

  /** Names are read back as what they name. */
  lemma NamesRoundTrip(c: Concept, e: ErrorCode)
    ensures ConceptFromName(ConceptName(c)) == Some(c)
    ensures ErrorCodeFromName(ErrorCodeName(e)) == Some(e)
  {
  }

  /** `CONCEPT_LABEL`: a total table over the concepts. */
  function ConceptLabel(c: Concept): string {
    match c
    case FractionsAddSub => "Fractions: add/subtract"
    case FractionsMulDiv => "Fractions: multiply/divide"
    case NegativesSigns => "Negatives & signs"
    case AlgebraSimplify => "Algebra: simplify"
    case LinearEquations => "Linear equations"
  }

  /** No two concepts share a label. */
  lemma ConceptLabelsDistinct(c1: Concept, c2: Concept)
    ensures ConceptLabel(c1) == ConceptLabel(c2) ==> c1 == c2
  {
  }
}
