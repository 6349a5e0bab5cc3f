/** The mapper itself (AnnotationMapper.createAssessmentResult and the
    methods it calls): the automatic feedback Artemis already holds, the
    inline and summary records of the annotations, and their hidden archive,
    put into one assessment whose score is clamped to the exercise's range. */
module AnnotationMapper {
  import opened Base
  import opened Domain
  import opened ScoreAggregator
  import opened ArchivalPacker
  import opened InlineFeedback
  import opened SummaryFeedback

  /** The mapper's inputs: the exercise's maximum points, the submission,
      the annotations, the rating groups, the assessor and the feedback of
      the lock's latest result. */
  datatype Mapper = Mapper(
    maxPoints: real,
    submissionId: int,
    annotations: seq<Annotation>,
    ratingGroups: seq<RatingGroup>,
    assessor: User,
    latestFeedback: seq<Feedback>)

  /** What the mapper needs of its inputs: every custom-penalty annotation
      has its message and penalty, and the empty annotation list encodes
      below the detail-text limit (as Jackson's "[]" does). */
  predicate Mappable(m: Mapper, ext: Ext)
  {
    && (forall a :: a in m.annotations ==> MessageAndPenaltyPresent(a))
    && (m.annotations != [] || Utf16Length(ext.encode(m.annotations)) < MaxDetailChars)
  }

  // ---------------------------------------------------------------------
  // Pre-existing feedback

  predicate IsAutomatic(f: Feedback)
  {
    f.feedbackType == Some(Automatic)
  }

  /** The AUTOMATIC records, in their order. */
  function AutomaticOnly(fs: seq<Feedback>): (r: seq<Feedback>)
    ensures forall f :: f in r <==> f in fs && IsAutomatic(f)
  {
    Filter(IsAutomatic, fs)
  }

  /** The source's loop over the lock's latest feedback, skipping every
      record without type or with another type than AUTOMATIC. */
  method GetFilteredPreexistentFeedbacks(m: Mapper) returns (feedbacks: seq<Feedback>)
    ensures feedbacks == AutomaticOnly(m.latestFeedback)
  {
    feedbacks := [];
    var latest := m.latestFeedback;
    for i := 0 to |latest|
      invariant feedbacks == AutomaticOnly(latest[..i])
    {
      assert latest[..i + 1][..i] == latest[..i];
      var feedback := latest[i];
      if feedback.feedbackType.None? || feedback.feedbackType != Some(Automatic) {
        continue;
      }
      feedbacks := feedbacks + [feedback];
    }
    assert latest[..|latest|] == latest;
  }

  /** Filtering keeps the order: it distributes over concatenation ... */
  lemma AutomaticOnlyAppend(a: seq<Feedback>, b: seq<Feedback>)
    ensures AutomaticOnly(a + b) == AutomaticOnly(a) + AutomaticOnly(b)
  {
    FilterAppend(IsAutomatic, a, b);
  }

  /** ... and keeps a list of AUTOMATIC records whole, so filtering twice is
      filtering once. */
  lemma {:induction false} AutomaticOnlyKeepsAutomatic(fs: seq<Feedback>)
    requires forall k :: 0 <= k < |fs| ==> IsAutomatic(fs[k])
    ensures AutomaticOnly(fs) == fs
    decreases |fs|
  {
    if |fs| > 0 {
      AutomaticOnlyKeepsAutomatic(fs[..|fs| - 1]);
      assert fs[..|fs| - 1] + [fs[|fs| - 1]] == fs;
    }
  }

  lemma AutomaticOnlyIdempotent(fs: seq<Feedback>)
    ensures AutomaticOnly(AutomaticOnly(fs)) == AutomaticOnly(fs)
  {
    var r := AutomaticOnly(fs);
    forall k | 0 <= k < |r| ensures IsAutomatic(r[k]) {
      assert r[k] in r;
    }
    AutomaticOnlyKeepsAutomatic(r);
  }

  // ---------------------------------------------------------------------
  // Manual feedback

  /** The summary records of the first n rating groups, group after group. */
  function AllGroupFeedbacks(groups: seq<RatingGroup>, n: nat, anns: seq<Annotation>, ext: Ext): seq<Feedback>
    requires n <= |groups|
    requires PenaltiesPresent(anns)
  {
    if n == 0 then []
    else AllGroupFeedbacks(groups, n - 1, anns, ext) + GroupFeedbacks(groups[n - 1], anns, ext)
  }

  /** The sum of the first n rating groups' points. */
  function GroupPoints(groups: seq<RatingGroup>, n: nat, anns: seq<Annotation>, ext: Ext): real
    requires n <= |groups|
  {
    if n == 0 then 0.0
    else GroupPoints(groups, n - 1, anns, ext) + RatingGroupScore(groups[n - 1], anns, ext.calculate).points
  }

  /** One more rating group appends its summary records. (A solver aid: it
      unfolds `AllGroupFeedbacks` once.) */
  lemma AllGroupFeedbacksSnoc(groups: seq<RatingGroup>, n: nat, anns: seq<Annotation>, ext: Ext)
    requires 0 < n <= |groups|
    requires PenaltiesPresent(anns)
    ensures AllGroupFeedbacks(groups, n, anns, ext)
            == AllGroupFeedbacks(groups, n - 1, anns, ext) + GroupFeedbacks(groups[n - 1], anns, ext)
  {
  }

  // A solver aid: a message and a penalty imply the penalty.
  lemma PenaltiesFromMessages(anns: seq<Annotation>)
    requires forall a :: a in anns ==> MessageAndPenaltyPresent(a)
    ensures PenaltiesPresent(anns)
  {
  }

  /** The manual records: the inline records, then every group's summary. */
  function ManualFeedbacks(m: Mapper, ext: Ext): seq<Feedback>
    requires Mappable(m, ext)
  {
    PenaltiesFromMessages(m.annotations);
    InlineFeedbacks(m.annotations, ext.format)
    + AllGroupFeedbacks(m.ratingGroups, |m.ratingGroups|, m.annotations, ext)
  }

  /** The grouping of the annotations by start line and the mapping of each
      group to its inline record. */
  method CollectInlineFeedbacks(anns: seq<Annotation>, format: real -> string) returns (fs: seq<Feedback>)
    requires forall a :: a in anns ==> MessageAndPenaltyPresent(a)
    ensures fs == InlineFeedbacks(anns, format)
  {
    var lines := StartLines(anns);
    fs := [];
    for i := 0 to |lines|
      invariant fs == LineFeedbacks(anns, lines, i, format)
    {
      var f := InlineFeedbackWithNoDeduction(lines[i], OnLine(anns, lines[i]), format);
      fs := fs + [f];
    }
  }

  /** The source's calculateManualFeedbacks: one inline record per start
      line, then the summary records of each rating group in turn. */
  method CalculateManualFeedbacks(m: Mapper, ext: Ext) returns (manualFeedbacks: seq<Feedback>)
    requires Mappable(m, ext)
    ensures manualFeedbacks == ManualFeedbacks(m, ext)
  {
    var anns := m.annotations;
    PenaltiesFromMessages(anns);
    var inline := CollectInlineFeedbacks(anns, ext.format);
    manualFeedbacks := inline;
    var groups := m.ratingGroups;
    for i := 0 to |groups|
      invariant manualFeedbacks == inline + AllGroupFeedbacks(groups, i, anns, ext)
    {
      var feedbacks := GlobalFeedbackWithDeduction(groups[i], anns, ext);
      AllGroupFeedbacksSnoc(groups, i + 1, anns, ext);
      AppendAssociates(inline, AllGroupFeedbacks(groups, i, anns, ext), feedbacks);
      manualFeedbacks := manualFeedbacks + feedbacks;
    }
  }

  // ---------------------------------------------------------------------
  // The archive and the whole list

  /** The hidden archive records of the annotations, or the error of an
      annotation too large to archive. */
  function ArchivalFeedbacks(anns: seq<Annotation>, ext: Ext): (r: Result<seq<Feedback>, string>)
    requires anns != [] || Utf16Length(ext.encode(anns)) < MaxDetailChars
    ensures r.Failure? <==> Serialise(anns, MaxDetailChars, ext.encode).Failure?
    ensures r.Failure? ==> r.error == Serialise(anns, MaxDetailChars, ext.encode).error
    ensures r.Success? ==> forall k :: 0 <= k < |r.value| ==>
      && r.value[k].feedbackType == Some(ManualUnreferenced) && r.value[k].credits == 0.0
      && r.value[k].visibility == Some("NEVER") && r.value[k].text == Some("CLIENT_DATA")
      && Utf16Length(r.value[k].detailText) < MaxDetailChars
    // lossless: record k is the hidden record of part k, and the parts,
    // concatenated in order, are the annotations
    ensures r.Success? ==>
      var parts := ChunksOf(Serialise(anns, MaxDetailChars, ext.encode).value);
      && |r.value| == |parts| && Flatten(parts) == anns
      && forall k :: 0 <= k < |parts| ==> r.value[k] == ClientData(ext.encode(parts[k]))
  {
    match Serialise(anns, MaxDetailChars, ext.encode)
    case Failure(e) => Failure(e)
    case Success(rs) => Success(seq(|rs|, k requires 0 <= k < |rs| => rs[k].record))
  }

  /** Every record of the assessment: AUTOMATIC, then manual, then archive. */
  function AllFeedbacks(m: Mapper, ext: Ext): Result<seq<Feedback>, string>
    requires Mappable(m, ext)
  {
    match ArchivalFeedbacks(m.annotations, ext)
    case Failure(e) => Failure(e)
    case Success(archive) => Success(AutomaticOnly(m.latestFeedback) + ManualFeedbacks(m, ext) + archive)
  }

  /** The source's calculateAllFeedbacks. Removing nulls changes nothing:
      no record in the model is missing. */
  method CalculateAllFeedbacks(m: Mapper, ext: Ext) returns (r: Result<seq<Feedback>, string>)
    requires Mappable(m, ext)
    ensures r == AllFeedbacks(m, ext)
  {
    var result := GetFilteredPreexistentFeedbacks(m);
    var manual := CalculateManualFeedbacks(m, ext);
    result := result + manual;
    var archive := ArchivalFeedbacks(m.annotations, ext);
    if archive.Failure? {
      return Failure(archive.error);
    }
    result := result + archive.value;
    r := Success(result);
  }

  // ---------------------------------------------------------------------
  // Score and counts

  function Min(x: real, y: real): real { if x <= y then x else y }

  function Max(x: real, y: real): real { if x >= y then x else y }

  /** Java's `Math.min(Math.max(0, total), maxPoints)`. */
  function CappedScore(total: real, maxPoints: real): (s: real)
    ensures maxPoints >= 0.0 ==> 0.0 <= s <= maxPoints
    ensures 0.0 <= total <= maxPoints ==> s == total
    ensures 0.0 <= maxPoints && total < 0.0 ==> s == 0.0
    ensures 0.0 <= maxPoints < total ==> s == maxPoints
    ensures maxPoints < 0.0 ==> s == maxPoints
  {
    Min(Max(0.0, total), maxPoints)
  }

  /** A share of a non-zero maximum as a percentage. */
  lemma Percentage(a: real, m: real)
    requires m != 0.0
    ensures (a / m * 100.0) * m == a * 100.0
    ensures m > 0.0 && 0.0 <= a <= m ==> 0.0 <= a / m * 100.0 <= 100.0
    ensures a == m ==> a / m * 100.0 == 100.0
  {
    var q := a / m;
    assert q * m == a;
    if m > 0.0 && 0.0 <= a <= m {
      assert (1.0 - q) * m == m - a;
    }
  }

  /** The relative score of a total: the capped total as a percentage of
      the maximum; with a maximum of 0 the capped total is 0 too and the
      Java division 0.0 / 0.0 gives NaN. */
  function RelativeScore(total: real, maxPoints: real): (r: Score)
    ensures r.NaN? <==> maxPoints == 0.0
    ensures maxPoints > 0.0 ==> 0.0 <= r.value <= 100.0
    ensures maxPoints > 0.0 && 0.0 <= total <= maxPoints ==> r.value * maxPoints == total * 100.0
    ensures maxPoints != 0.0 ==> r.value * maxPoints == CappedScore(total, maxPoints) * 100.0
    ensures maxPoints > 0.0 && total <= 0.0 ==> r.value == 0.0
    ensures maxPoints > 0.0 && total >= maxPoints ==> r.value == 100.0
    ensures maxPoints < 0.0 ==> r.value == 100.0
  {
    var absolute := CappedScore(total, maxPoints);
    if maxPoints == 0.0 then NaN
    else
      Percentage(absolute, maxPoints);
      Finite(absolute / maxPoints * 100.0)
  }

  /** The pre-existing records without a reference are the tests. */
  function Tests(initial: seq<Feedback>): (r: seq<Feedback>)
    ensures |r| <= |initial|
    ensures forall f :: f in r <==> f in initial && f.reference.None?
    ensures |r| == |set k | 0 <= k < |initial| && initial[k].reference.None?|
  {
    FilterCount(IsTest, initial);
    assert Positions(IsTest, initial) == set k | 0 <= k < |initial| && initial[k].reference.None?;
    Filter(IsTest, initial)
  }

  predicate IsCodeIssue(f: Feedback) { f.staticCodeAnalysis }

  predicate IsTest(f: Feedback) { f.reference.None? }

  predicate Passed(f: Feedback) { f.positive == Some(true) }

  predicate IsPassedTest(f: Feedback) { IsTest(f) && Passed(f) }

  /** The number of static-analysis records. */
  function CodeIssueCount(initial: seq<Feedback>): (n: nat)
    ensures n <= |initial|
    ensures n == |set k | 0 <= k < |initial| && initial[k].staticCodeAnalysis|
  {
    FilterCount(IsCodeIssue, initial);
    assert Positions(IsCodeIssue, initial) == set k | 0 <= k < |initial| && initial[k].staticCodeAnalysis;
    |Filter(IsCodeIssue, initial)|
  }

  /** The number of tests whose verdict is present and positive. */
  function PassedTestCount(tests: seq<Feedback>): (n: nat)
    ensures n <= |tests|
    ensures n == |set k | 0 <= k < |tests| && tests[k].positive == Some(true)|
  {
    FilterCount(Passed, tests);
    assert Positions(Passed, tests) == set k | 0 <= k < |tests| && tests[k].positive == Some(true);
    |Filter(Passed, tests)|
  }

  /** The passed tests are the records that are both tests and passed. */
  lemma PassedTests(initial: seq<Feedback>)
    ensures PassedTestCount(Tests(initial))
            == |set k | 0 <= k < |initial| && initial[k].reference.None? && initial[k].positive == Some(true)|
  {
    FilterFilter(IsTest, Passed, IsPassedTest, initial);
    FilterCount(IsPassedTest, initial);
    assert Positions(IsPassedTest, initial)
           == set k | 0 <= k < |initial| && initial[k].reference.None? && initial[k].positive == Some(true);
  }

  /** The assessment, or the error of an annotation too large to archive.
      It fails exactly when archiving fails; otherwise it is a submitted,
      completed SEMI_AUTOMATIC result for the mapper's submission and
      assessor. Its counts are those of the AUTOMATIC records (code issues,
      tests, passed tests), and its relative score is `RelativeScore` of the
      summed credits of its own records: NaN exactly when the maximum is 0,
      a percentage in [0, 100] when the maximum is positive. */
  function Assessment(m: Mapper, ext: Ext): (r: Result<AssessmentResult, string>)
    requires Mappable(m, ext)
    ensures r.Failure? <==> Serialise(m.annotations, MaxDetailChars, ext.encode).Failure?
    ensures r.Failure? ==> r.error == Serialise(m.annotations, MaxDetailChars, ext.encode).error
    ensures r.Success? ==>
      && r.value.assessmentType == "SEMI_AUTOMATIC" && r.value.submitted && r.value.completed
      && r.value.submissionId == m.submissionId && r.value.assessor == m.assessor
    ensures r.Success? ==>
      && r.value.passedTestCaseCount <= r.value.testCaseCount <= |AutomaticOnly(m.latestFeedback)|
      && r.value.codeIssueCount <= |AutomaticOnly(m.latestFeedback)|
    ensures r.Success? ==> (r.value.relativeScore.NaN? <==> m.maxPoints == 0.0)
    ensures r.Success? && m.maxPoints > 0.0 ==> 0.0 <= r.value.relativeScore.value <= 100.0
    // the score is the capped credit sum of the records it holds
    ensures r.Success? ==> r.value.relativeScore == RelativeScore(SumCredits(r.value.feedbacks), m.maxPoints)
    // the counts count the AUTOMATIC records
    ensures r.Success? ==>
      var auto := AutomaticOnly(m.latestFeedback);
      && r.value.codeIssueCount == |set k | 0 <= k < |auto| && auto[k].staticCodeAnalysis|
      && r.value.testCaseCount == |set k | 0 <= k < |auto| && auto[k].reference.None?|
      && r.value.passedTestCaseCount
         == |set k | 0 <= k < |auto| && auto[k].reference.None? && auto[k].positive == Some(true)|
  {
    match AllFeedbacks(m, ext)
    case Failure(e) => Failure(e)
    case Success(all) =>
      var initial := AutomaticOnly(m.latestFeedback);
      var tests := Tests(initial);
      PassedTests(initial);
      Success(AssessmentResult(m.submissionId, "SEMI_AUTOMATIC", RelativeScore(SumCredits(all), m.maxPoints),
                               true, true, m.assessor, all,
                               CodeIssueCount(initial), PassedTestCount(tests), |tests|))
  }

  /** The source's createAssessmentResult. */
  method CreateAssessmentResult(m: Mapper, ext: Ext) returns (r: Result<AssessmentResult, string>)
    requires Mappable(m, ext)
    ensures r == Assessment(m, ext)
  {
    var allFeedbacks := CalculateAllFeedbacks(m, ext);
    if allFeedbacks.Failure? {
      return Failure(allFeedbacks.error);
    }
    var all := allFeedbacks.value;
    var relativeScore := RelativeScore(SumCredits(all), m.maxPoints);
    var initialFeedback := GetFilteredPreexistentFeedbacks(m);
    var tests := Tests(initialFeedback);
    var codeIssueCount := CodeIssueCount(initialFeedback);
    var passedTestCaseCount := PassedTestCount(tests);
    r := Success(AssessmentResult(m.submissionId, "SEMI_AUTOMATIC", relativeScore, true, true,
                                  m.assessor, all, codeIssueCount, passedTestCaseCount, |tests|));
  }

  // ---------------------------------------------------------------------
  // Properties of the assessment

  /** The assessment's records are the AUTOMATIC ones, the inline ones, the
      summaries of the rating groups in their order and the archive, in
      this order. */
  lemma AssessmentLayout(m: Mapper, ext: Ext)
    requires Mappable(m, ext)
    requires Assessment(m, ext).Success?
    ensures ArchivalFeedbacks(m.annotations, ext).Success?
    ensures Assessment(m, ext).value.feedbacks
            == AutomaticOnly(m.latestFeedback)
               + InlineFeedbacks(m.annotations, ext.format)
               + AllGroupFeedbacks(m.ratingGroups, |m.ratingGroups|, m.annotations, ext)
               + ArchivalFeedbacks(m.annotations, ext).value
  {
    var archive := ArchivalFeedbacks(m.annotations, ext).value;
    var auto := AutomaticOnly(m.latestFeedback);
    var inline := InlineFeedbacks(m.annotations, ext.format);
    var groups := AllGroupFeedbacks(m.ratingGroups, |m.ratingGroups|, m.annotations, ext);
    assert Assessment(m, ext).value.feedbacks == auto + (inline + groups) + archive;
    AppendAssociates(auto, inline, groups);
  }

  /** One more rating group adds its points to the credit once. */
  lemma AllGroupCreditStep(groups: seq<RatingGroup>, n: nat, anns: seq<Annotation>, ext: Ext)
    requires 0 < n <= |groups|
    requires PenaltiesPresent(anns)
    ensures SumCredits(AllGroupFeedbacks(groups, n, anns, ext))
            == SumCredits(AllGroupFeedbacks(groups, n - 1, anns, ext))
               + RatingGroupScore(groups[n - 1], anns, ext.calculate).points
    ensures GroupPoints(groups, n, anns, ext)
            == GroupPoints(groups, n - 1, anns, ext) + RatingGroupScore(groups[n - 1], anns, ext.calculate).points
  {
    SumCreditsAppend(AllGroupFeedbacks(groups, n - 1, anns, ext), GroupFeedbacks(groups[n - 1], anns, ext));
    GroupCreditOnce(groups[n - 1], anns, ext);
  }

  // A solver aid: the base case of `AllGroupCredit`, both sides 0.
  lemma NoGroupNoCredit(groups: seq<RatingGroup>, anns: seq<Annotation>, ext: Ext)
    requires PenaltiesPresent(anns)
    ensures SumCredits(AllGroupFeedbacks(groups, 0, anns, ext)) == GroupPoints(groups, 0, anns, ext)
  {
  }

  /** The rating groups' records together carry each group's points once. */
  lemma AllGroupCredit(groups: seq<RatingGroup>, n: nat, anns: seq<Annotation>, ext: Ext)
    requires n <= |groups|
    requires PenaltiesPresent(anns)
    ensures SumCredits(AllGroupFeedbacks(groups, n, anns, ext)) == GroupPoints(groups, n, anns, ext)
  {
    NoGroupNoCredit(groups, anns, ext);
    for i := 0 to n
      invariant SumCredits(AllGroupFeedbacks(groups, i, anns, ext)) == GroupPoints(groups, i, anns, ext)
    {
      AllGroupCreditStep(groups, i + 1, anns, ext);
    }
  }

  lemma ArchiveCarriesNoCredit(anns: seq<Annotation>, ext: Ext)
    requires anns != [] || Utf16Length(ext.encode(anns)) < MaxDetailChars
    requires ArchivalFeedbacks(anns, ext).Success?
    ensures SumCredits(ArchivalFeedbacks(anns, ext).value) == 0.0
  {
    SumCreditsOfZero(ArchivalFeedbacks(anns, ext).value, |ArchivalFeedbacks(anns, ext).value|);
  }

  /** The total credit of the assessment is that of the AUTOMATIC records
      plus each rating group's points once: inline and archive records carry
      nothing. */
  lemma TotalCredit(m: Mapper, ext: Ext)
    requires Mappable(m, ext)
    requires AllFeedbacks(m, ext).Success?
    ensures SumCredits(AllFeedbacks(m, ext).value)
            == SumCredits(AutomaticOnly(m.latestFeedback))
               + GroupPoints(m.ratingGroups, |m.ratingGroups|, m.annotations, ext)
  {
    var anns := m.annotations;
    PenaltiesFromMessages(anns);
    var auto := AutomaticOnly(m.latestFeedback);
    var inline := InlineFeedbacks(anns, ext.format);
    var groups := AllGroupFeedbacks(m.ratingGroups, |m.ratingGroups|, anns, ext);
    var archive := ArchivalFeedbacks(anns, ext).value;
    assert AllFeedbacks(m, ext).value == auto + (inline + groups) + archive;
    SumCreditsAppend(auto + (inline + groups), archive);
    SumCreditsAppend(auto, inline + groups);
    SumCreditsAppend(inline, groups);
    InlineFeedbacksCarryNoCredit(anns, ext.format);
    AllGroupCredit(m.ratingGroups, |m.ratingGroups|, anns, ext);
    ArchiveCarriesNoCredit(anns, ext);
  }

  /** The absolute score before capping: the AUTOMATIC credit plus each
      rating group's points. */
  function UncappedTotal(m: Mapper, ext: Ext): real
  {
    SumCredits(AutomaticOnly(m.latestFeedback)) + GroupPoints(m.ratingGroups, |m.ratingGroups|, m.annotations, ext)
  }

  /** The relative score of a successful assessment is the relative score
      of the AUTOMATIC credit plus each rating group's points: by
      `RelativeScore`'s contract, that total capped to [0, maxPoints] as a
      percentage of maxPoints, or NaN when maxPoints is 0. */
  lemma AssessmentScore(m: Mapper, ext: Ext)
    requires Mappable(m, ext)
    requires Assessment(m, ext).Success?
    ensures Assessment(m, ext).value.relativeScore == RelativeScore(UncappedTotal(m, ext), m.maxPoints)
  {
    var a := Assessment(m, ext).value;
    assert AllFeedbacks(m, ext).Success? && a.feedbacks == AllFeedbacks(m, ext).value;
    TotalCredit(m, ext);
    ScoreOfEqualTotals(a.relativeScore, SumCredits(a.feedbacks), UncappedTotal(m, ext), m.maxPoints);
  }

  // A solver aid: equal totals give equal scores, stated apart from the
  // assessment so that the solver needs no arithmetic for it.
  lemma ScoreOfEqualTotals(s: Score, x: real, y: real, maxPoints: real)
    requires s == RelativeScore(x, maxPoints) && x == y
    ensures s == RelativeScore(y, maxPoints)
  {
  }
}
