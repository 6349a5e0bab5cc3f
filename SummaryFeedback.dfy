/** The summary feedback of a rating group
    (AnnotationMapper.createGlobalFeedbackWithDeduction): a headline with
    the group's points, one line per scored mistake type and one per
    annotation, packed greedily into numbered chunks that each repeat the
    headline. Only the first chunk carries the group's points. */
module SummaryFeedback {
  import opened Base
  import opened Domain
  import opened ScoreAggregator

  const LimitNote: string := "\n    * Note: The sum of penalties hit the limits for this rating group."

  /** DecimalFormat's rendering of the infinite bounds of an open range. */
  const NegativeInfinity: string := "-\U{221E}"
  const PositiveInfinity: string := "\U{221E}"

  function FormatBound(b: Option<real>, ifMissing: string, format: real -> string): string
  {
    if b.Some? then format(b.value) else ifMissing
  }

  /** `<name> [<points> (Range: <low> -- <high>) points]`; the range part
      only when the group has a range. */
  function Headline(g: RatingGroup, points: real, format: real -> string): string
  {
    g.displayName + " [" + format(points)
    + (if g.range.Some?
       then " (Range: " + FormatBound(g.range.value.lower, NegativeInfinity, format)
            + " -- " + FormatBound(g.range.value.upper, PositiveInfinity, format) + ")"
       else "")
    + " points]"
  }

  /** The keys of `scores`, in the order of the group's mistake types (the
      source iterates a HashMap, whose order it does not fix). */
  function ScoreOrder(mts: seq<MistakeType>, scores: map<MistakeType, real>): (r: seq<MistakeType>)
    ensures NoDuplicates(r)
    ensures forall mt :: mt in r <==> mt in mts && mt in scores
    decreases |mts|
  {
    if |mts| == 0 then []
    else
      var r := ScoreOrder(mts[..|mts| - 1], scores);
      var last := mts[|mts| - 1];
      assert forall mt :: mt in mts <==> mt in mts[..|mts| - 1] || mt == last;
      if last in scores && last !in r then r + [last] else r
  }

  function CategoryHeadLine(mt: MistakeType, score: real, format: real -> string): string
  {
    "\n    * \"" + mt.buttonText + "\" [" + format(score) + "P]:"
  }

  /** One annotation's line: file and 1-indexed line, and its own penalty
      when the mistake type takes custom penalties. */
  function AnnotationLine(mt: MistakeType, a: Annotation, format: real -> string): string
    requires mt.isCustomPenalty ==> a.customPenalty.Some?
  {
    "\n        * " + a.classFilePath + " at line " + NatToString(a.startLine + 1)
    + (if mt.isCustomPenalty then " (" + format(a.customPenalty.value) + "P)" else "")
  }

  /** The lines of the first n of a mistake type's annotations. */
  function AnnotationLines(mt: MistakeType, current: seq<Annotation>, n: nat, format: real -> string): (r: seq<string>)
    requires n <= |current|
    requires forall a :: a in current ==> (mt.isCustomPenalty ==> a.customPenalty.Some?)
    ensures |r| == n
    ensures forall k :: 0 <= k < n ==> r[k] == AnnotationLine(mt, current[k], format)
  {
    if n == 0 then []
    else AnnotationLines(mt, current, n - 1, format) + [AnnotationLine(mt, current[n - 1], format)]
  }

  predicate PenaltiesPresent(anns: seq<Annotation>)
  {
    forall a :: a in anns ==> PenaltyPresent(a)
  }

  /** The block of one scored mistake type: its headline, then one line per
      annotation of that type. */
  function CategoryBlock(mt: MistakeType, score: real, anns: seq<Annotation>, format: real -> string): (r: seq<string>)
    requires PenaltiesPresent(anns)
    ensures |r| == 1 + |AnnotationsOf(anns, mt)|
  {
    var current := AnnotationsOf(anns, mt);
    [CategoryHeadLine(mt, score, format)] + AnnotationLines(mt, current, |current|, format)
  }

  /** A block is the mistake type's headline, then line k + 1 for its
      annotation k. */
  lemma CategoryBlockContents(mt: MistakeType, score: real, anns: seq<Annotation>, format: real -> string)
    requires PenaltiesPresent(anns)
    ensures CategoryBlock(mt, score, anns, format)[0] == CategoryHeadLine(mt, score, format)
    ensures forall k :: 0 <= k < |AnnotationsOf(anns, mt)| ==>
      CategoryBlock(mt, score, anns, format)[k + 1] == AnnotationLine(mt, AnnotationsOf(anns, mt)[k], format)
  {
    var current := AnnotationsOf(anns, mt);
    var lines := AnnotationLines(mt, current, |current|, format);
    assert CategoryBlock(mt, score, anns, format) == [CategoryHeadLine(mt, score, format)] + lines;
  }

  /** The blocks of the first n scored mistake types of `order`. */
  function CategoryBlocks(order: seq<MistakeType>, n: nat, scores: map<MistakeType, real>,
                          anns: seq<Annotation>, format: real -> string): (r: seq<string>)
    requires n <= |order|
    requires forall mt :: mt in order ==> mt in scores
    requires PenaltiesPresent(anns)
    ensures |r| >= n
    ensures r == Flatten(seq(n, k requires 0 <= k < n => CategoryBlock(order[k], scores[order[k]], anns, format)))
  {
    if n == 0 then []
    else
      var mt := order[n - 1];
      var blocks := seq(n, k requires 0 <= k < n => CategoryBlock(order[k], scores[order[k]], anns, format));
      assert blocks[..n - 1]
             == seq(n - 1, k requires 0 <= k < n - 1 => CategoryBlock(order[k], scores[order[k]], anns, format));
      CategoryBlocks(order, n - 1, scores, anns, format) + CategoryBlock(mt, scores[mt], anns, format)
  }

  /** The summary's lines, before packing. */
  function SummaryLines(g: RatingGroup, anns: seq<Annotation>, pr: PointResult,
                        format: real -> string): seq<string>
    requires PenaltiesPresent(anns)
  {
    var order := ScoreOrder(g.mistakeTypes, pr.scores);
    CategoryBlocks(order, |order|, pr.scores, anns, format)
    + (if pr.reachedLimit then [LimitNote] else [])
  }

  /** The source's inner loop: one line per annotation of a mistake type,
      appended to `lines`. */
  method AppendAnnotationLines(lines: seq<string>, mt: MistakeType, currentPenalty: real,
                               anns: seq<Annotation>, format: real -> string)
    returns (lines': seq<string>)
    requires PenaltiesPresent(anns)
    ensures lines' == lines + CategoryBlock(mt, currentPenalty, anns, format)
  {
    var currentAnnotations := AnnotationsOf(anns, mt);
    lines' := lines + [CategoryHeadLine(mt, currentPenalty, format)];
    ghost var before := lines';
    for j := 0 to |currentAnnotations|
      invariant lines' == before + AnnotationLines(mt, currentAnnotations, j, format)
    {
      var line := AnnotationLine(mt, currentAnnotations[j], format);
      assert AnnotationLines(mt, currentAnnotations, j + 1, format)
             == AnnotationLines(mt, currentAnnotations, j, format) + [line];
      lines' := lines' + [line];
    }
    assert CategoryBlock(mt, currentPenalty, anns, format)
           == [CategoryHeadLine(mt, currentPenalty, format)]
              + AnnotationLines(mt, currentAnnotations, |currentAnnotations|, format);
  }

  /** The source's loop over the scored mistake types, then the note about
      the limit. */
  method BuildSummaryLines(g: RatingGroup, anns: seq<Annotation>, pr: PointResult,
                           format: real -> string) returns (lines: seq<string>)
    requires PenaltiesPresent(anns)
    ensures lines == SummaryLines(g, anns, pr, format)
  {
    lines := [];
    var order := ScoreOrder(g.mistakeTypes, pr.scores);
    for i := 0 to |order|
      invariant lines == CategoryBlocks(order, i, pr.scores, anns, format)
    {
      var mt := order[i];
      assert CategoryBlocks(order, i + 1, pr.scores, anns, format)
             == lines + CategoryBlock(mt, pr.scores[mt], anns, format);
      lines := AppendAnnotationLines(lines, mt, pr.scores[mt], anns, format);
    }
    if pr.reachedLimit {
      lines := lines + [LimitNote];
    }
  }

  // ---------------------------------------------------------------------
  // Greedy packing of the lines into chunks

  /** A line joins the open chunk only while the chunk stays below this. */
  function Limit(headline: string): int
  {
    MaxDetailChars - Utf16Length(headline) - SafetyMargin
  }

  /** Chunk k (1-based) starts with the headline and its number. */
  function ChunkHeader(headline: string, k: nat): string
  {
    headline + " (annotation " + NatToString(k) + ")"
  }

  function ChunkText(headline: string, k: nat, body: seq<string>): string
  {
    ChunkHeader(headline, k) + Flatten(body)
  }

  /** The packing loop as a function: `done` holds the lines of the closed
      chunks, `cur` those of the open one, `rest` the lines still to place. */
  function Greedy(headline: string, done: seq<seq<string>>, cur: seq<string>,
                  rest: seq<string>): seq<seq<string>>
    decreases |rest|
  {
    if |rest| == 0 then done + [cur]
    else if Utf16Length(ChunkText(headline, |done| + 1, cur)) + Utf16Length(rest[0]) >= Limit(headline)
    then Greedy(headline, done + [cur], [rest[0]], rest[1..])
    else Greedy(headline, done, cur + [rest[0]], rest[1..])
  }

  /** The lines of each chunk. */
  function Chunks(headline: string, lines: seq<string>): seq<seq<string>>
  {
    Greedy(headline, [], [], lines)
  }

  /** The chunks' texts. */
  function ChunkTexts(headline: string, lines: seq<string>): (texts: seq<string>)
    ensures |texts| == |Chunks(headline, lines)|
    ensures forall k :: 0 <= k < |texts| ==> texts[k] == ChunkText(headline, k + 1, Chunks(headline, lines)[k])
  {
    var cs := Chunks(headline, lines);
    seq(|cs|, k requires 0 <= k < |cs| => ChunkText(headline, k + 1, cs[k]))
  }

  lemma ChunkTextSnoc(headline: string, k: nat, body: seq<string>, line: string)
    ensures ChunkText(headline, k, body + [line]) == ChunkText(headline, k, body) + line
  {
    FlattenSnoc(body, line);
  }

  /** The source's loop: a buffer that is flushed into the list of texts
      whenever the next line would make it reach the limit. */
  method PackLines(headline: string, lines: seq<string>) returns (texts: seq<string>)
    ensures texts == ChunkTexts(headline, lines)
  {
    texts := [];
    var text := ChunkHeader(headline, 1);
    ghost var done: seq<seq<string>> := [];
    ghost var cur: seq<string> := [];
    assert text == ChunkText(headline, 1, cur);
    for i := 0 to |lines|
      invariant |texts| == |done|
      invariant forall k :: 0 <= k < |done| ==> texts[k] == ChunkText(headline, k + 1, done[k])
      invariant text == ChunkText(headline, |done| + 1, cur)
      invariant Greedy(headline, done, cur, lines[i..]) == Chunks(headline, lines)
    {
      var line := lines[i];
      assert lines[i..][0] == line && lines[i..][1..] == lines[i + 1..];
      if Utf16Length(text) + Utf16Length(line) >= Limit(headline) {
        texts := texts + [text];
        done := done + [cur];
        cur := [];
        text := ChunkHeader(headline, |texts| + 1);
        assert text == ChunkText(headline, |done| + 1, cur);
      }
      ChunkTextSnoc(headline, |done| + 1, cur, line);
      text := text + line;
      cur := cur + [line];
    }
    texts := texts + [text];
    done := done + [cur];
    assert done == Chunks(headline, lines);
  }

  /** Packing keeps the closed chunks and adds at least the open one ... */
  lemma {:induction false} GreedyKeepsDone(headline: string, done: seq<seq<string>>, cur: seq<string>,
                                           rest: seq<string>)
    ensures |Greedy(headline, done, cur, rest)| >= |done| + 1
    ensures Greedy(headline, done, cur, rest)[..|done|] == done
    decreases |rest|
  {
    if |rest| > 0 {
      var line := rest[0];
      if Utf16Length(ChunkText(headline, |done| + 1, cur)) + Utf16Length(line) >= Limit(headline) {
        GreedyKeepsDone(headline, done + [cur], [line], rest[1..]);
        assert (done + [cur])[..|done|] == done;
      } else {
        GreedyKeepsDone(headline, done, cur + [line], rest[1..]);
      }
    }
  }

  /** ... and loses no line. */
  lemma {:induction false} GreedyLossless(headline: string, done: seq<seq<string>>, cur: seq<string>,
                                          rest: seq<string>)
    ensures Flatten(Greedy(headline, done, cur, rest)) == Flatten(done) + cur + rest
    decreases |rest|
  {
    if |rest| == 0 {
      FlattenSnoc(done, cur);
    } else {
      var line := rest[0];
      assert cur + rest == (cur + [line]) + rest[1..];
      if Utf16Length(ChunkText(headline, |done| + 1, cur)) + Utf16Length(line) >= Limit(headline) {
        GreedyLossless(headline, done + [cur], [line], rest[1..]);
        FlattenSnoc(done, cur);
      } else {
        GreedyLossless(headline, done, cur + [line], rest[1..]);
      }
    }
  }

  /** A chunk either stays below the limit or holds at most one line. */
  predicate Fits(headline: string, k: nat, body: seq<string>)
  {
    Utf16Length(ChunkText(headline, k, body)) < Limit(headline) || |body| <= 1
  }

  lemma {:induction false} GreedyBounded(headline: string, done: seq<seq<string>>, cur: seq<string>,
                                         rest: seq<string>)
    requires forall k :: 0 <= k < |done| ==> Fits(headline, k + 1, done[k])
    requires Fits(headline, |done| + 1, cur)
    ensures forall k :: 0 <= k < |Greedy(headline, done, cur, rest)| ==>
      Fits(headline, k + 1, Greedy(headline, done, cur, rest)[k])
    decreases |rest|
  {
    if |rest| > 0 {
      var line := rest[0];
      if Utf16Length(ChunkText(headline, |done| + 1, cur)) + Utf16Length(line) >= Limit(headline) {
        GreedyBounded(headline, done + [cur], [line], rest[1..]);
      } else {
        ChunkTextSnoc(headline, |done| + 1, cur, line);
        Utf16LengthAppend(ChunkText(headline, |done| + 1, cur), line);
        GreedyBounded(headline, done, cur + [line], rest[1..]);
      }
    }
  }

  /** Chunk k was closed because the first line of chunk k + 1 did not fit. */
  predicate ClosedForNext(headline: string, cs: seq<seq<string>>, k: nat)
    requires k + 1 < |cs|
  {
    cs[k + 1] != [] && Utf16Length(ChunkText(headline, k + 1, cs[k])) + Utf16Length(cs[k + 1][0]) >= Limit(headline)
  }

  lemma {:induction false} GreedyMaximal(headline: string, done: seq<seq<string>>, cur: seq<string>,
                                         rest: seq<string>)
    requires forall k :: 0 <= k < |done| - 1 ==> ClosedForNext(headline, done, k)
    requires |done| > 0 ==> ClosedForNext(headline, done + [cur], |done| - 1)
    ensures forall k :: 0 <= k < |Greedy(headline, done, cur, rest)| - 1 ==>
      ClosedForNext(headline, Greedy(headline, done, cur, rest), k)
    decreases |rest|
  {
    var g := Greedy(headline, done, cur, rest);
    if |rest| == 0 {
      forall k | 0 <= k < |g| - 1 ensures ClosedForNext(headline, g, k) {
        if k < |done| - 1 {
          assert ClosedForNext(headline, done, k);
        } else {
          assert ClosedForNext(headline, done + [cur], |done| - 1);
        }
      }
    } else {
      var line := rest[0];
      if Utf16Length(ChunkText(headline, |done| + 1, cur)) + Utf16Length(line) >= Limit(headline) {
        var done' := done + [cur];
        forall k | 0 <= k < |done'| - 1 ensures ClosedForNext(headline, done', k) {
          if k < |done| - 1 {
            assert ClosedForNext(headline, done, k);
          } else {
            assert ClosedForNext(headline, done + [cur], |done| - 1);
          }
        }
        assert ClosedForNext(headline, done' + [[line]], |done'| - 1);
        GreedyMaximal(headline, done', [line], rest[1..]);
      } else {
        if |done| > 0 {
          assert ClosedForNext(headline, done + [cur], |done| - 1);
          assert ClosedForNext(headline, done + [cur + [line]], |done| - 1);
        }
        GreedyMaximal(headline, done, cur + [line], rest[1..]);
      }
    }
  }

  /** Lossless: the chunks' lines, concatenated in order, are the lines. */
  lemma ChunksLossless(headline: string, lines: seq<string>)
    ensures Flatten(Chunks(headline, lines)) == lines
    ensures |Chunks(headline, lines)| >= 1
  {
    GreedyKeepsDone(headline, [], [], lines);
    GreedyLossless(headline, [], [], lines);
  }

  /** Stripping each text's header and concatenating what remains gives
      back the concatenated lines. */
  lemma ChunkTextsLossless(headline: string, lines: seq<string>)
    ensures var texts := ChunkTexts(headline, lines);
            Flatten(seq(|texts|, k requires 0 <= k < |texts| => texts[k][|ChunkHeader(headline, k + 1)|..]))
            == Flatten(lines)
  {
    var texts := ChunkTexts(headline, lines);
    var cs := Chunks(headline, lines);
    var bodies := seq(|texts|, k requires 0 <= k < |texts| => texts[k][|ChunkHeader(headline, k + 1)|..]);
    assert bodies == seq(|cs|, k requires 0 <= k < |cs| => Flatten(cs[k]));
    FlattenOfFlattens(cs);
    ChunksLossless(headline, lines);
  }

  /** Chunk k (1-based) begins with the headline and " (annotation k)". */
  lemma ChunkTextsHeaders(headline: string, lines: seq<string>)
    ensures |ChunkTexts(headline, lines)| >= 1
    ensures forall k :: 0 <= k < |ChunkTexts(headline, lines)| ==>
      var header := headline + " (annotation " + NatToString(k + 1) + ")";
      |header| <= |ChunkTexts(headline, lines)[k]|
      && ChunkTexts(headline, lines)[k][..|header|] == header
  {
    ChunksLossless(headline, lines);
  }

  /** Bounded: every chunk stays below the limit, or is a header with at
      most one line. */
  lemma ChunkTextsBounded(headline: string, lines: seq<string>)
    ensures forall k :: 0 <= k < |ChunkTexts(headline, lines)| ==>
      Utf16Length(ChunkTexts(headline, lines)[k]) < Limit(headline) || |Chunks(headline, lines)[k]| <= 1
  {
    GreedyBounded(headline, [], [], lines);
  }

  /** Greedy: a chunk is closed only when the next line would reach the
      limit, and every chunk after the first holds at least one line. */
  lemma ChunkTextsGreedy(headline: string, lines: seq<string>)
    ensures forall k :: 1 <= k < |ChunkTexts(headline, lines)| ==>
      Chunks(headline, lines)[k] != []
      && Utf16Length(ChunkTexts(headline, lines)[k - 1]) + Utf16Length(Chunks(headline, lines)[k][0]) >= Limit(headline)
  {
    var cs := Chunks(headline, lines);
    var texts := ChunkTexts(headline, lines);
    GreedyMaximal(headline, [], [], lines);
    assert cs == Greedy(headline, [], [], lines);
    forall k | 1 <= k < |texts|
      ensures cs[k] != [] && Utf16Length(texts[k - 1]) + Utf16Length(cs[k][0]) >= Limit(headline)
    {
      assert ClosedForNext(headline, cs, k - 1);
    }
  }

  /** The first step of the packing loop when the header and the first
      line together reach the limit: the empty first chunk is closed. */
  lemma FirstStepCloses(headline: string, lines: seq<string>)
    requires lines != []
    requires Utf16Length(ChunkHeader(headline, 1)) + Utf16Length(lines[0]) >= Limit(headline)
    ensures Chunks(headline, lines) == Greedy(headline, [[]], [lines[0]], lines[1..])
  {
    var empty: seq<seq<string>> := [];
    assert ChunkText(headline, |empty| + 1, []) == ChunkHeader(headline, 1);
    assert empty + [[]] == [[]];
  }

  /** When the header and the first line together reach the limit, the
      first chunk is the bare header and the lines start in the second. */
  lemma FirstChunkMayBeBare(headline: string, lines: seq<string>)
    requires lines != []
    requires Utf16Length(ChunkHeader(headline, 1)) + Utf16Length(lines[0]) >= Limit(headline)
    ensures |Chunks(headline, lines)| >= 2
    ensures Chunks(headline, lines)[0] == []
    ensures ChunkTexts(headline, lines)[0] == ChunkHeader(headline, 1)
  {
    FirstStepCloses(headline, lines);
    GreedyKeepsDone(headline, [[]], [lines[0]], lines[1..]);
    assert Chunks(headline, lines)[..1] == [[]];
  }

  // ---------------------------------------------------------------------
  // The group's records

  function SummaryRecord(credits: real, text: string): Feedback
  {
    NewFeedback(ManualUnreferenced, credits, None, None, None, text)
  }

  /** One record per text, the first carrying `points` and the others 0. */
  function SummaryRecords(points: real, texts: seq<string>): (fs: seq<Feedback>)
    ensures |fs| == |texts|
    ensures forall k :: 0 <= k < |texts| ==> fs[k] == SummaryRecord(if k == 0 then points else 0.0, texts[k])
  {
    seq(|texts|, k requires 0 <= k < |texts| => SummaryRecord(if k == 0 then points else 0.0, texts[k]))
  }

  /** The records of one rating group: none when there is no line, else one
      per chunk, the first with the group's points and the others with 0. */
  function GroupFeedbacks(g: RatingGroup, anns: seq<Annotation>, ext: Ext): seq<Feedback>
    requires PenaltiesPresent(anns)
  {
    var pr := RatingGroupScore(g, anns, ext.calculate);
    var lines := SummaryLines(g, anns, pr, ext.format);
    if lines == [] then []
    else SummaryRecords(pr.points, ChunkTexts(Headline(g, pr.points, ext.format), lines))
  }

  /** The source's last loop: the first text with the points, each further
      text with 0. */
  method BuildSummaryRecords(points: real, texts: seq<string>) returns (feedbacks: seq<Feedback>)
    requires texts != []
    ensures feedbacks == SummaryRecords(points, texts)
  {
    feedbacks := [SummaryRecord(points, texts[0])];
    for i := 1 to |texts|
      invariant |feedbacks| == i
      invariant forall k :: 0 <= k < i ==> feedbacks[k] == SummaryRecords(points, texts)[k]
    {
      feedbacks := feedbacks + [SummaryRecord(0.0, texts[i])];
    }
  }

  method GlobalFeedbackWithDeduction(g: RatingGroup, anns: seq<Annotation>, ext: Ext)
    returns (feedbacks: seq<Feedback>)
    requires PenaltiesPresent(anns)
    ensures feedbacks == GroupFeedbacks(g, anns, ext)
  {
    var pr := CalculatePointsForRatingGroup(g, anns, ext.calculate);
    var headline := Headline(g, pr.points, ext.format);
    var lines := BuildSummaryLines(g, anns, pr, ext.format);
    if lines == [] {
      return [];
    }
    var texts := PackLines(headline, lines);
    ChunksLossless(headline, lines);
    feedbacks := BuildSummaryRecords(pr.points, texts);
  }

  /** A group without lines scores 0: no scored mistake type and no
      clamping. */
  lemma NoLinesNoPoints(g: RatingGroup, anns: seq<Annotation>, ext: Ext)
    requires PenaltiesPresent(anns)
    requires SummaryLines(g, anns, RatingGroupScore(g, anns, ext.calculate), ext.format) == []
    ensures RatingGroupScore(g, anns, ext.calculate).points == 0.0
  {
    var pr := RatingGroupScore(g, anns, ext.calculate);
    var order := ScoreOrder(g.mistakeTypes, pr.scores);
    assert order == [];
    forall mt | mt in g.mistakeTypes ensures AnnotationsOf(anns, mt) == [] {
      assert mt !in pr.scores;
      assert PointsForMistakeType(anns, mt, ext.calculate).None?;
    }
    RawSumOfUnannotated(g.mistakeTypes, |g.mistakeTypes|, anns, ext.calculate);
  }

  /** Records whose first carries p and whose others carry nothing carry p,
      counted over any non-empty prefix. */
  lemma {:induction false} FirstCarriesAll(fs: seq<Feedback>, p: real, n: nat)
    requires 1 <= n <= |fs|
    requires fs[0].credits == p
    requires forall k :: 1 <= k < |fs| ==> fs[k].credits == 0.0
    ensures SumCreditsOf(fs, n) == p
  {
    if n > 1 {
      FirstCarriesAll(fs, p, n - 1);
    }
  }

  /** The group's records: one per chunk, all MANUAL_UNREFERENCED, the first
      carrying the group's points and the others 0. */
  lemma GroupFeedbacksShape(g: RatingGroup, anns: seq<Annotation>, ext: Ext)
    requires PenaltiesPresent(anns)
    ensures var fs := GroupFeedbacks(g, anns, ext);
            var pr := RatingGroupScore(g, anns, ext.calculate);
            var lines := SummaryLines(g, anns, pr, ext.format);
            && (fs == [] <==> lines == [])
            && (lines != [] ==> |fs| == |ChunkTexts(Headline(g, pr.points, ext.format), lines)|)
            && (forall k :: 0 <= k < |fs| ==>
                  fs[k].feedbackType == Some(ManualUnreferenced)
                  && fs[k].credits == (if k == 0 then pr.points else 0.0)
                  && fs[k].detailText == ChunkTexts(Headline(g, pr.points, ext.format), lines)[k])
  {
    var pr := RatingGroupScore(g, anns, ext.calculate);
    var lines := SummaryLines(g, anns, pr, ext.format);
    if lines != [] {
      ChunksLossless(Headline(g, pr.points, ext.format), lines);
    }
  }

  /** Credit counted once: the group's records together carry exactly the
      group's points. */
  lemma GroupCreditOnce(g: RatingGroup, anns: seq<Annotation>, ext: Ext)
    requires PenaltiesPresent(anns)
    ensures SumCredits(GroupFeedbacks(g, anns, ext)) == RatingGroupScore(g, anns, ext.calculate).points
  {
    var fs := GroupFeedbacks(g, anns, ext);
    var pr := RatingGroupScore(g, anns, ext.calculate);
    GroupFeedbacksShape(g, anns, ext);
    if fs == [] {
      NoLinesNoPoints(g, anns, ext);
    } else {
      FirstCarriesAll(fs, pr.points, |fs|);
    }
  }

  /** A group none of whose mistake types is annotated still gets records
      when 0 lies outside its range: clamping moves its empty sum, and the
      note about the limit is its only line. */
  lemma UnannotatedGroupSummary(g: RatingGroup, anns: seq<Annotation>, ext: Ext)
    requires PenaltiesPresent(anns)
    requires forall mt :: mt in g.mistakeTypes ==> AnnotationsOf(anns, mt) == []
    ensures GroupFeedbacks(g, anns, ext) == [] <==> g.range.None? || InRange(g.range.value, 0.0)
    ensures GroupFeedbacks(g, anns, ext) != [] ==>
      GroupFeedbacks(g, anns, ext)[0].credits == SetToRange(g.range.value, 0.0) != 0.0
  {
    var pr := RatingGroupScore(g, anns, ext.calculate);
    RawSumOfUnannotated(g.mistakeTypes, |g.mistakeTypes|, anns, ext.calculate);
    var lines := SummaryLines(g, anns, pr, ext.format);
    assert lines == (if pr.reachedLimit then [LimitNote] else []);
    if lines != [] {
      ChunksLossless(Headline(g, pr.points, ext.format), lines);
    }
  }
}
