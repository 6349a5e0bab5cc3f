/** The entities the mapper reads and produces. All of them are values: the
    mapper never updates an annotation, a mistake type or a rating group, and
    it builds every feedback record fresh. */
module Domain {
  import opened Base

  /** Artemis' limit on a feedback's detail text. */
  const MaxDetailChars: int := 5000

  /** Room left in a summary chunk for repeating its headline. */
  const SafetyMargin: int := 50

  /** A mistake type. `id` stands for the object identity Java's `equals`
      compares; `ratingGroupName` is the display name of the group it
      belongs to. */
  datatype MistakeType = MistakeType(
    id: string,
    buttonText: string,
    message: string,
    isCustomPenalty: bool,
    ratingGroupName: string)

  /** A review annotation; `startLine` is zero-indexed. */
  datatype Annotation = Annotation(
    classFilePath: string,
    startLine: nat,
    mistakeType: MistakeType,
    customMessage: Option<string>,
    customPenalty: Option<real>)

  /** An inclusive range whose missing bounds are unbounded. */
  datatype Range = Range(lower: Option<real>, upper: Option<real>)

  /** A rating group; `range == None` is the source's empty range. */
  datatype RatingGroup = RatingGroup(
    displayName: string,
    range: Option<Range>,
    mistakeTypes: seq<MistakeType>)

  datatype FeedbackType = Automatic | Manual | ManualUnreferenced

  /** A feedback record as sent to Artemis. `feedbackType` may be missing on
      records read back from Artemis. */
  datatype Feedback = Feedback(
    feedbackType: Option<FeedbackType>,
    credits: real,
    positive: Option<bool>,
    staticCodeAnalysis: bool,
    visibility: Option<string>,
    text: Option<string>,
    reference: Option<string>,
    detailText: string)

  /** A record built by the mapper: it has a type and no test verdict. */
  function NewFeedback(t: FeedbackType, credits: real, visibility: Option<string>,
                       text: Option<string>, reference: Option<string>, detailText: string): Feedback
  {
    Feedback(Some(t), credits, None, false, visibility, text, reference, detailText)
  }

  /** A rating group's aggregated value: the (possibly clamped) sum, whether
      clamping changed it, and the score of every mistake type that has
      annotations. */
  datatype PointResult = PointResult(points: real, reachedLimit: bool, scores: map<MistakeType, real>)

  /** The collaborators whose code is not part of the model: the scoring
      function of a mistake type, the "##.###" number format, and the JSON
      encoding of an annotation list. */
  datatype Ext = Ext(
    calculate: (MistakeType, seq<Annotation>) -> real,
    format: real -> string,
    encode: seq<Annotation> -> string)

  datatype User = User(login: string)

  /** The relative score: a real number, or NaN (Java's 0.0 / 0.0). */
  datatype Score = Finite(value: real) | NaN

  datatype AssessmentResult = AssessmentResult(
    submissionId: int,
    assessmentType: string,
    relativeScore: Score,
    submitted: bool,
    completed: bool,
    assessor: User,
    feedbacks: seq<Feedback>,
    codeIssueCount: nat,
    passedTestCaseCount: nat,
    testCaseCount: nat)

  /** The annotation carries what its mistake type's penalty mode needs
      (the `orElseThrow` calls of the source cannot fail). */
  predicate PenaltyPresent(a: Annotation)
  {
    a.mistakeType.isCustomPenalty ==> a.customPenalty.Some?
  }

  predicate MessageAndPenaltyPresent(a: Annotation)
  {
    a.mistakeType.isCustomPenalty ==> a.customPenalty.Some? && a.customMessage.Some?
  }

  /** The sum of the credits of the first n records, left to right. */
  function SumCreditsOf(fs: seq<Feedback>, n: nat): real
    requires n <= |fs|
  {
    if n == 0 then 0.0 else SumCreditsOf(fs, n - 1) + fs[n - 1].credits
  }

  /** The sum of the credits of a list of records (the source's stream sum). */
  function SumCredits(fs: seq<Feedback>): real
  {
    SumCreditsOf(fs, |fs|)
  }

  /** A prefix of a + b that lies within a sums as in a ... */
  lemma {:induction false} SumCreditsOfPrefix(a: seq<Feedback>, b: seq<Feedback>, n: nat)
    requires n <= |a|
    ensures SumCreditsOf(a + b, n) == SumCreditsOf(a, n)
  {
    if n > 0 {
      SumCreditsOfPrefix(a, b, n - 1);
    }
  }

  /** ... and one that reaches into b adds b's prefix to all of a. */
  lemma {:induction false} SumCreditsOfSuffix(a: seq<Feedback>, b: seq<Feedback>, n: nat)
    requires n <= |b|
    ensures SumCreditsOf(a + b, |a| + n) == SumCredits(a) + SumCreditsOf(b, n)
  {
    if n == 0 {
      SumCreditsOfPrefix(a, b, |a|);
    } else {
      SumCreditsOfSuffix(a, b, n - 1);
      assert (a + b)[|a| + n - 1] == b[n - 1];
    }
  }

  lemma SumCreditsAppend(a: seq<Feedback>, b: seq<Feedback>)
    ensures SumCredits(a + b) == SumCredits(a) + SumCredits(b)
  {
    SumCreditsOfSuffix(a, b, |b|);
  }

  lemma {:induction false} SumCreditsOfZero(fs: seq<Feedback>, n: nat)
    requires n <= |fs|
    requires forall k :: 0 <= k < n ==> fs[k].credits == 0.0
    ensures SumCreditsOf(fs, n) == 0.0
  {
    if n > 0 {
      SumCreditsOfZero(fs, n - 1);
    }
  }
}
