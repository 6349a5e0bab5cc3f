# AnnotationMapper, modelled in Dafny

This project models artemis4j's `AnnotationMapper`. The mapper turns a
tutor's annotations into an Artemis assessment, using the exercise's rating
groups and mistake types and the automatic feedback Artemis already holds for
the submission. The assessment it builds contains:

- the AUTOMATIC feedback records of the lock's latest result;
- one zero-credit inline record per start-line number, across all files,
  named after the file of that line's first annotation;
- per rating group, summary records: a headline with the group's points,
  then one line per scored mistake type and one per annotation, packed
  greedily into numbered chunks. A chunk stays below Artemis' 5000-character
  detail-text limit, less the headline and a margin of 50, unless it holds
  at most one line. Only the first chunk carries the points;
- hidden `CLIENT_DATA` records holding the JSON of the annotations. The list
  is halved until every part encodes below the limit, and a single
  annotation that is still too long is an error;
- a relative score: the summed credits, clamped to `[0, maxPoints]`, as a
  percentage of `maxPoints`;
- the counts of code issues, of tests and of passed tests.

Modules, one file each:

- `Base`: options, results, concatenation, filtering, decimal rendering of
  naturals and Java's `String.trim`.
- `Domain`: the entities and the sum of credits.
- `ScoreAggregator`: the points of a mistake type and of a rating group.
- `ArchivalPacker`: the hidden archive.
- `InlineFeedback`: the records shown at source lines.
- `SummaryFeedback`: a rating group's summary records.
- `AnnotationMapper`: putting the assessment together.

Text lengths are measured as Java's `String.length` measures them, in
UTF-16 code units (`Base.Utf16Length`): a character beyond the Basic
Multilingual Plane, such as an emoji in a custom message, counts twice.

Every entity is a value, and every feedback list is built fresh, so the
model is functional. Each loop of the source is a `method` with its
invariants, proved equal to the function that specifies it.

Three collaborators are parameters, bundled in `Domain.Ext`:

- a mistake type's scoring function (`IMistakeType.calculate`);
- the `##.###` `DecimalFormat`;
- Jackson's JSON encoding of an annotation list.

## Model

| member | source | states |
|---|---|---|
| Domain.SumCreditsAppend | src/main/java/edu/kit/kastel/sdq/artemis4j/grading/artemis/AnnotationMapper.java:62-64 | The credit sum of two lists of records joined is the sum of their credit sums. |
| Base.NatToStringDigits | src/main/java/edu/kit/kastel/sdq/artemis4j/grading/artemis/AnnotationMapper.java:173-174 | A line number is printed as a non-empty string of decimal digits with no leading zero, and those digits, read in base 10, give the number back. |
| Base.NatToStringInjective | src/main/java/edu/kit/kastel/sdq/artemis4j/grading/artemis/AnnotationMapper.java:173-174 | Distinct line numbers are printed as distinct strings. |
| Base.Utf16Length | src/main/java/edu/kit/kastel/sdq/artemis4j/grading/artemis/AnnotationMapper.java:245 | `length()` counts UTF-16 code units: at least one and at most two per character. |
| Base.Utf16LengthAppend | src/main/java/edu/kit/kastel/sdq/artemis4j/grading/artemis/AnnotationMapper.java:245 | The length of joined strings is the sum of their lengths, as `text.length() + line.length()` assumes. |
| Base.Utf16LengthOfBmp | src/main/java/edu/kit/kastel/sdq/artemis4j/grading/artemis/AnnotationMapper.java:77 | Text with no character beyond the Basic Multilingual Plane has one code unit per character. |
| Base.TrimIsSlice | src/main/java/edu/kit/kastel/sdq/artemis4j/grading/artemis/AnnotationMapper.java:190 | `trim()` returns a contiguous slice of its input. Only characters up to the space are dropped, from both ends. The result neither starts nor ends with such a character. |
| ScoreAggregator.AnnotationsOf | src/main/java/edu/kit/kastel/sdq/artemis4j/grading/artemis/AnnotationMapper.java:303 | The annotations of a mistake type are exactly those whose mistake type is that one. |
| ScoreAggregator.PointsForMistakeType | src/main/java/edu/kit/kastel/sdq/artemis4j/grading/artemis/AnnotationMapper.java:300-312 | There is no score (null) exactly when the mistake type has no annotation. Otherwise the score is the type's calculation over its annotations. |
| ScoreAggregator.ScoreMapOf | src/main/java/edu/kit/kastel/sdq/artemis4j/grading/artemis/AnnotationMapper.java:280-289 | After the first n mistake types, the scores map has a key exactly for each of them that has annotations. Its value is that type's calculation. |
| ScoreAggregator.SetToRange | src/main/java/edu/kit/kastel/sdq/artemis4j/grading/artemis/AnnotationMapper.java:291-295 | Clamping leaves a value unchanged exactly when it is in range. For a well-formed range, the result is in range and is the in-range value nearest the input. |
| ScoreAggregator.RatingGroupScore | src/main/java/edu/kit/kastel/sdq/artemis4j/grading/artemis/AnnotationMapper.java:275-298 | The scores map has keys exactly for the group's annotated mistake types, each valued by its calculation. The limit is reached exactly when the group has a range and the raw sum lies outside it. The points are the raw sum, clamped when there is a range, and lie in a well-formed range. |
| ScoreAggregator.CalculatePointsForRatingGroup | src/main/java/edu/kit/kastel/sdq/artemis4j/grading/artemis/AnnotationMapper.java:275-298 | The accumulating loop over the mistake types, followed by the clamp, yields exactly `RatingGroupScore`. |
| ScoreAggregator.RawSumOfUnannotated | src/main/java/edu/kit/kastel/sdq/artemis4j/grading/artemis/AnnotationMapper.java:279-289 | Mistake types with no annotations sum to 0. |
| ScoreAggregator.ClampScenario | src/main/java/edu/kit/kastel/sdq/artemis4j/grading/artemis/AnnotationMapper.java:291-297 | Range [0, 10] with two types scoring 6 each: the sum 12 is clamped to 10 and the limit is reported. |
| ArchivalPacker.Serialise | src/main/java/edu/kit/kastel/sdq/artemis4j/grading/artemis/AnnotationMapper.java:74-93 | A list whose encoding is below the limit becomes one hidden record. A single annotation that is too long is the "too large" error. Any error names an annotation that does not fit on its own. Otherwise, concatenating the records' lists in order gives the input. Each record is the hidden CLIENT_DATA record of its own list and is below the limit, and there are at most as many records as annotations. Lengths are counted in UTF-16 code units. |
| ArchivalPacker.FailureInPart | src/main/java/edu/kit/kastel/sdq/artemis4j/grading/artemis/AnnotationMapper.java:88-90 | An error raised for a half names an annotation of the whole list. |
| ArchivalPacker.JoinParts | src/main/java/edu/kit/kastel/sdq/artemis4j/grading/artemis/AnnotationMapper.java:86-92 | The records of the two halves, concatenated, archive the whole list losslessly. |
| ArchivalPacker.SerialiseFailsIff | src/main/java/edu/kit/kastel/sdq/artemis4j/grading/artemis/AnnotationMapper.java:74-93 | Assume no sublist encodes longer than its list. Then archiving fails if and only if some single annotation encodes at or above the limit. |
| InlineFeedback.OnLine | src/main/java/edu/kit/kastel/sdq/artemis4j/grading/artemis/AnnotationMapper.java:102 | A line's group holds exactly the annotations that start on that line. |
| InlineFeedback.StartLinesOf | src/main/java/edu/kit/kastel/sdq/artemis4j/grading/artemis/AnnotationMapper.java:102 | The grouping keys of a prefix are distinct and cover that prefix's start lines, and every key is the start line of an annotation in the prefix. |
| InlineFeedback.StartLines | src/main/java/edu/kit/kastel/sdq/artemis4j/grading/artemis/AnnotationMapper.java:102 | The keys are distinct and cover every annotation's start line. Every key's group is non-empty. |
| InlineFeedback.InlineGroupsPartition | src/main/java/edu/kit/kastel/sdq/artemis4j/grading/artemis/AnnotationMapper.java:102 | Every annotation lands in exactly one line's group. |
| InlineFeedback.BuildInlineBody | src/main/java/edu/kit/kastel/sdq/artemis4j/grading/artemis/AnnotationMapper.java:176-189 | The loop builds the buffer from the line's entries, each followed by a blank line, in annotation order. |
| InlineFeedback.InlineFeedbackWithNoDeduction | src/main/java/edu/kit/kastel/sdq/artemis4j/grading/artemis/AnnotationMapper.java:168-191 | A line's record is `LineFeedback`: MANUAL, 0 credits, the text and reference from the first annotation's path, and the trimmed buffer. |
| InlineFeedback.LineFeedbacksAt | src/main/java/edu/kit/kastel/sdq/artemis4j/grading/artemis/AnnotationMapper.java:102-103 | Record k of the mapped groups is the record of the k-th line and its group. |
| InlineFeedback.InlineFeedbacksShape | src/main/java/edu/kit/kastel/sdq/artemis4j/grading/artemis/AnnotationMapper.java:168-191 | There is one inline record per distinct start line. Each is MANUAL with 0 credits. Its text names the line 1-indexed, its reference names it 0-indexed, both with the path of the group's first annotation. Its detail is the trimmed body. |
| InlineFeedback.InlineFeedbacksCarryNoCredit | src/main/java/edu/kit/kastel/sdq/artemis4j/grading/artemis/AnnotationMapper.java:190 | Inline records add nothing to the score. |
| InlineFeedback.StartLinesOfOneLine | src/main/java/edu/kit/kastel/sdq/artemis4j/grading/artemis/AnnotationMapper.java:102 | Annotations all on one line yield that line as the only key of every non-empty prefix. |
| InlineFeedback.SingleStartLine | src/main/java/edu/kit/kastel/sdq/artemis4j/grading/artemis/AnnotationMapper.java:102 | Annotations all on one line yield that line as the only key. |
| InlineFeedback.ScenarioTexts | src/main/java/edu/kit/kastel/sdq/artemis4j/grading/artemis/AnnotationMapper.java:173-174 | Line 3 of A.java is shown as "File A.java at line 4" and referenced as "file:A.java.java_line:3". |
| InlineFeedback.SameLineScenario | src/main/java/edu/kit/kastel/sdq/artemis4j/grading/artemis/AnnotationMapper.java:168-191 | Annotations all on line 3 of A.java give exactly one zero-credit record, shown at line 4 and referenced as line 3. Its detail is the trimmed entries of all the annotations, in order. |
| InlineFeedback.InlineUnbounded | src/main/java/edu/kit/kastel/sdq/artemis4j/grading/artemis/AnnotationMapper.java:176-190 | A lone annotation whose canned message does not end in white space gets exactly one record, whose detail is its whole entry. That detail is longer than the message, so no length bound holds for inline records. |
| SummaryFeedback.ScoreOrder | src/main/java/edu/kit/kastel/sdq/artemis4j/grading/artemis/AnnotationMapper.java:212 | The loop visits every key of the scores map exactly once. |
| SummaryFeedback.AnnotationLines | src/main/java/edu/kit/kastel/sdq/artemis4j/grading/artemis/AnnotationMapper.java:220-229 | There is one line per annotation of the mistake type, and line k is the line of annotation k. |
| SummaryFeedback.CategoryBlock | src/main/java/edu/kit/kastel/sdq/artemis4j/grading/artemis/AnnotationMapper.java:212-230 | A scored mistake type contributes its headline plus one line per annotation of that type. |
| SummaryFeedback.CategoryBlockContents | src/main/java/edu/kit/kastel/sdq/artemis4j/grading/artemis/AnnotationMapper.java:216-229 | A block starts with the mistake type's headline. Its line k + 1 is the line of the type's annotation k. |
| SummaryFeedback.CategoryBlocks | src/main/java/edu/kit/kastel/sdq/artemis4j/grading/artemis/AnnotationMapper.java:212-230 | The lines are the blocks of the scored mistake types, concatenated in their order. |
| SummaryFeedback.AppendAnnotationLines | src/main/java/edu/kit/kastel/sdq/artemis4j/grading/artemis/AnnotationMapper.java:216-229 | The inner loop appends exactly the mistake type's block to the lines so far. |
| SummaryFeedback.BuildSummaryLines | src/main/java/edu/kit/kastel/sdq/artemis4j/grading/artemis/AnnotationMapper.java:197-234 | The lines are every scored type's block, in order, then the limit note exactly when the limit was reached. |
| SummaryFeedback.ChunkTextSnoc | src/main/java/edu/kit/kastel/sdq/artemis4j/grading/artemis/AnnotationMapper.java:249 | Appending a line to a chunk appends it to the chunk's text. |
| SummaryFeedback.PackLines | src/main/java/edu/kit/kastel/sdq/artemis4j/grading/artemis/AnnotationMapper.java:236-251 | The packing loop over the buffer yields exactly the greedy chunk texts. |
| SummaryFeedback.GreedyKeepsDone | src/main/java/edu/kit/kastel/sdq/artemis4j/grading/artemis/AnnotationMapper.java:244-251 | Packing never changes closed chunks and always ends with one more chunk. |
| SummaryFeedback.GreedyLossless | src/main/java/edu/kit/kastel/sdq/artemis4j/grading/artemis/AnnotationMapper.java:244-251 | The chunks' lines, concatenated, are the closed, open and remaining lines in order. |
| SummaryFeedback.GreedyBounded | src/main/java/edu/kit/kastel/sdq/artemis4j/grading/artemis/AnnotationMapper.java:244-250 | Every chunk stays below the limit or holds at most one line. |
| SummaryFeedback.GreedyMaximal | src/main/java/edu/kit/kastel/sdq/artemis4j/grading/artemis/AnnotationMapper.java:244-250 | Every closed chunk was closed because the next chunk's first line would have reached the limit. |
| SummaryFeedback.ChunksLossless | src/main/java/edu/kit/kastel/sdq/artemis4j/grading/artemis/AnnotationMapper.java:242-251 | There is at least one chunk, and the chunks' lines, concatenated, are exactly the lines. |
| SummaryFeedback.ChunkTextsLossless | src/main/java/edu/kit/kastel/sdq/artemis4j/grading/artemis/AnnotationMapper.java:242-251 | Strip each text's header and concatenate what remains: the result is the concatenated lines. |
| SummaryFeedback.ChunkTextsHeaders | src/main/java/edu/kit/kastel/sdq/artemis4j/grading/artemis/AnnotationMapper.java:242-247 | There is at least one text, and text k starts with the headline and " (annotation k)". |
| SummaryFeedback.ChunkTextsBounded | src/main/java/edu/kit/kastel/sdq/artemis4j/grading/artemis/AnnotationMapper.java:245 | Every text is below 5000 - headline length - 50 UTF-16 code units, or holds at most one line. |
| SummaryFeedback.ChunkTextsGreedy | src/main/java/edu/kit/kastel/sdq/artemis4j/grading/artemis/AnnotationMapper.java:245-248 | A chunk is closed only when the next line would reach that limit, in UTF-16 code units. Every chunk after the first holds a line. |
| SummaryFeedback.FirstStepCloses | src/main/java/edu/kit/kastel/sdq/artemis4j/grading/artemis/AnnotationMapper.java:242-248 | When the header plus the first line reach the limit, the first step closes the empty first chunk. |
| SummaryFeedback.FirstChunkMayBeBare | src/main/java/edu/kit/kastel/sdq/artemis4j/grading/artemis/AnnotationMapper.java:242-249 | In that case the first text is the bare header, and the lines start in the second chunk. |
| SummaryFeedback.BuildSummaryRecords | src/main/java/edu/kit/kastel/sdq/artemis4j/grading/artemis/AnnotationMapper.java:253-261 | The record loop yields exactly those records. |
| SummaryFeedback.GlobalFeedbackWithDeduction | src/main/java/edu/kit/kastel/sdq/artemis4j/grading/artemis/AnnotationMapper.java:193-262 | The whole method yields exactly the group's records, which are empty when there is no line. |
| SummaryFeedback.NoLinesNoPoints | src/main/java/edu/kit/kastel/sdq/artemis4j/grading/artemis/AnnotationMapper.java:238-240 | A group whose summary has no line scores 0, so returning no record loses no credit. |
| SummaryFeedback.FirstCarriesAll | src/main/java/edu/kit/kastel/sdq/artemis4j/grading/artemis/AnnotationMapper.java:255-258 | Records whose first carries p and whose others carry 0 sum to p over every non-empty prefix. |
| SummaryFeedback.GroupFeedbacksShape | src/main/java/edu/kit/kastel/sdq/artemis4j/grading/artemis/AnnotationMapper.java:236-261 | There are no records exactly when there are no lines, and otherwise one per chunk text. Every record is MANUAL_UNREFERENCED and holds its chunk text. The first carries the group's points and the others 0. |
| SummaryFeedback.GroupCreditOnce | src/main/java/edu/kit/kastel/sdq/artemis4j/grading/artemis/AnnotationMapper.java:253-261 | A group's records together carry exactly the group's points. |
| SummaryFeedback.UnannotatedGroupSummary | src/main/java/edu/kit/kastel/sdq/artemis4j/grading/artemis/AnnotationMapper.java:232-240 | A group with no annotation has records if and only if 0 lies outside its range. In that case the first record carries the clamped, non-zero value. |
| AnnotationMapper.AutomaticOnly | src/main/java/edu/kit/kastel/sdq/artemis4j/grading/artemis/AnnotationMapper.java:264-273 | The kept records are exactly the AUTOMATIC ones. |
| AnnotationMapper.GetFilteredPreexistentFeedbacks | src/main/java/edu/kit/kastel/sdq/artemis4j/grading/artemis/AnnotationMapper.java:264-273 | The loop keeps exactly the AUTOMATIC records, in order. |
| AnnotationMapper.AutomaticOnlyAppend | src/main/java/edu/kit/kastel/sdq/artemis4j/grading/artemis/AnnotationMapper.java:264-273 | The filter distributes over concatenation, so order is kept. |
| AnnotationMapper.AutomaticOnlyKeepsAutomatic | src/main/java/edu/kit/kastel/sdq/artemis4j/grading/artemis/AnnotationMapper.java:264-273 | A list of AUTOMATIC records passes the filter unchanged. |
| AnnotationMapper.AutomaticOnlyIdempotent | src/main/java/edu/kit/kastel/sdq/artemis4j/grading/artemis/AnnotationMapper.java:264-273 | Filtering twice is filtering once. |
| AnnotationMapper.CollectInlineFeedbacks | src/main/java/edu/kit/kastel/sdq/artemis4j/grading/artemis/AnnotationMapper.java:102-103 | The grouping and mapping loop yields exactly the inline records. |
| AnnotationMapper.CalculateManualFeedbacks | src/main/java/edu/kit/kastel/sdq/artemis4j/grading/artemis/AnnotationMapper.java:101-107 | The manual records are the inline records, then every rating group's records in group order. |
| AnnotationMapper.ArchivalFeedbacks | src/main/java/edu/kit/kastel/sdq/artemis4j/grading/artemis/AnnotationMapper.java:95-99 | Archiving with the 5000 limit fails exactly when packing fails, with the same message. Otherwise every record is MANUAL_UNREFERENCED, has 0 credits, visibility NEVER and text CLIENT_DATA, and is below 5000 UTF-16 code units. Record k is the hidden record of the encoding of part k, and the parts, concatenated in order, are the annotations. |
| AnnotationMapper.CalculateAllFeedbacks | src/main/java/edu/kit/kastel/sdq/artemis4j/grading/artemis/AnnotationMapper.java:66-72 | The method yields the AUTOMATIC, manual and archive records, or the archive's error. |
| AnnotationMapper.CappedScore | src/main/java/edu/kit/kastel/sdq/artemis4j/grading/artemis/AnnotationMapper.java:145 | With a non-negative maximum, the capped score lies in [0, max]. A negative total gives 0, a total above the maximum gives the maximum, and a total in range is kept. A negative maximum wins. |
| AnnotationMapper.Percentage | src/main/java/edu/kit/kastel/sdq/artemis4j/grading/artemis/AnnotationMapper.java:110 | The percentage times the maximum is 100 times the share. A share between 0 and a positive maximum gives 0 to 100, and the maximum itself gives 100. |
| AnnotationMapper.RelativeScore | src/main/java/edu/kit/kastel/sdq/artemis4j/grading/artemis/AnnotationMapper.java:109-111 | The score is NaN exactly when the maximum is 0. Otherwise the percentage times the maximum is 100 times the capped total. A positive maximum gives a percentage in [0, 100]: 0 for a total at or below 0, 100 for a total at or above the maximum, and the exact share in between. A negative maximum gives 100. |
| AnnotationMapper.Tests | src/main/java/edu/kit/kastel/sdq/artemis4j/grading/artemis/AnnotationMapper.java:149 | The tests are exactly the pre-existing records without a reference. Their number is the number of positions holding such a record. |
| AnnotationMapper.CodeIssueCount | src/main/java/edu/kit/kastel/sdq/artemis4j/grading/artemis/AnnotationMapper.java:151 | The count is the number of positions holding a static-analysis record. |
| AnnotationMapper.PassedTestCount | src/main/java/edu/kit/kastel/sdq/artemis4j/grading/artemis/AnnotationMapper.java:152-153 | The count is the number of tests whose verdict is present and positive. |
| AnnotationMapper.PassedTests | src/main/java/edu/kit/kastel/sdq/artemis4j/grading/artemis/AnnotationMapper.java:149-153 | The passed tests among the tests are the records that have no reference and a positive verdict. |
| AnnotationMapper.Assessment | src/main/java/edu/kit/kastel/sdq/artemis4j/grading/artemis/AnnotationMapper.java:138-159 | The result fails exactly when archiving fails, with its message. Otherwise it is a submitted, completed SEMI_AUTOMATIC result for the mapper's submission and assessor. Its relative score is `RelativeScore` of the summed credits of its own records. Its counts are those of the AUTOMATIC records: the static-analysis ones, the ones without a reference, and the ones without a reference that passed. The score is NaN exactly when the maximum is 0 and lies in [0, 100] when the maximum is positive. |
| AnnotationMapper.CreateAssessmentResult | src/main/java/edu/kit/kastel/sdq/artemis4j/grading/artemis/AnnotationMapper.java:138-159 | The method yields exactly `Assessment`. |
| AnnotationMapper.AssessmentLayout | src/main/java/edu/kit/kastel/sdq/artemis4j/grading/artemis/AnnotationMapper.java:66-72 | A successful assessment's records are the AUTOMATIC records, the inline records, each rating group's records in group order, and the archive, in this order. |
| AnnotationMapper.AllGroupCreditStep | src/main/java/edu/kit/kastel/sdq/artemis4j/grading/artemis/AnnotationMapper.java:105 | One more rating group adds its points to the credit exactly once. |
| AnnotationMapper.AllGroupCredit | src/main/java/edu/kit/kastel/sdq/artemis4j/grading/artemis/AnnotationMapper.java:105 | The rating groups' records together carry the sum of the groups' points. |
| AnnotationMapper.ArchiveCarriesNoCredit | src/main/java/edu/kit/kastel/sdq/artemis4j/grading/artemis/AnnotationMapper.java:79 | Archive records add nothing to the score. |
| AnnotationMapper.TotalCredit | src/main/java/edu/kit/kastel/sdq/artemis4j/grading/artemis/AnnotationMapper.java:62-72 | The absolute score before capping is the AUTOMATIC credit plus each rating group's points exactly once. |
| AnnotationMapper.AssessmentScore | src/main/java/edu/kit/kastel/sdq/artemis4j/grading/artemis/AnnotationMapper.java:138-159 | The relative score is `RelativeScore` of the AUTOMATIC credit plus each rating group's points: capped to [0, maxPoints] and taken as a percentage of maxPoints. |

## Left out

- Logging (`log.info`) has no effect on the result and is left out.
- Some collaborators are parameters, not models:
  - `IMistakeType.calculate`;
  - `DecimalFormat("##.###")` rendering of finite numbers. A missing range
    bound is not passed through it: the model writes DecimalFormat's English
    symbols for infinity, "-∞" and "∞", as constants;
  - Jackson's JSON encoding.

  Their own code is not part of this model. `ArchivalPacker.SerialiseFailsIff`
  assumes only that a sublist never encodes longer than its list.
- `RatingGroup.setToRange` and `RatingGroup.getRange` are not part of this
  model. `ScoreAggregator.SetToRange` clamps to the nearest bound of an
  inclusive range whose missing bounds are unbounded. An empty range is
  `None`.
- The classes `Feedback`, `AssessmentResult`, `LockResult`, `IAnnotation`,
  `IMistakeType` and `IRatingGroup` are not part of this model. They appear
  as values holding the fields the mapper reads and writes.
- Scores are exact reals, not `double`s. Rounding is not modelled, and a
  sum does not depend on the order of addition. The NaN of 0.0 / 0.0 is the
  constructor `Score.NaN`; infinities do not arise.
- The counts are unbounded naturals. The `(int)` casts of the stream counts
  would overflow only beyond 2^31 records.
- Line numbers are unbounded naturals, not Java `int`s. A negative start
  line, and the wrap of `line + 1` at 2^31 - 1 in the texts of the inline
  and summary records, cannot occur in the model.
- The source does not keep every detail text within Artemis' limit, and
  neither does the model. Inline records are never measured, so a long
  message or many annotations on one line give a record longer than 5000
  code units (`InlineFeedback.InlineUnbounded`). A summary chunk that holds
  at most one line is not bounded either: its header counts too, so even a
  short line, or no line at all under a long enough headline, can leave it
  at or above the limit (`SummaryFeedback.ChunkTextsBounded` allows exactly
  that).
- HashMap iteration orders are fixed:
  - inline records come in order of the first occurrence of their start
    line;
  - a group's scored mistake types come in the group's own order.

  The source leaves both orders unspecified.
- Nulls are not modelled. `removeIf(Objects::isNull)` is the identity
  because no record is missing. A record of the lock without a type is
  `feedbackType == None`.
- Mistake-type equality is value equality. It stands for Java's `equals`
  through an `id` field.
- AnnotationMapper.Mappable: the model requires every custom-penalty
  annotation to carry its message and penalty. Without them the source
  throws `NoSuchElementException` from `orElseThrow`, and that exception is
  not modelled.
- AnnotationMapper.Mappable: the model requires the empty annotation list
  to encode below the limit. In the source, an empty list that did not fit
  would be halved forever. Jackson's `[]` always fits, so no real input is
  excluded.
- ArchivalPacker.Serialise: same requirement for the empty list, for the
  same reason.
- The `IOException` of `convertAnnotationsToJSONString` is not modelled;
  the encoding is a total function. The "too large" `IOException` is
  modelled as `Failure`.
- A group none of whose mistake types has annotations still gets summary
  records when 0 lies outside its range: clamping changes the empty sum, so
  the limit note is its one line. This follows the code and is stated by
  `SummaryFeedback.UnannotatedGroupSummary`.
- When the headline and the first line together reach the packing limit,
  the first summary chunk is the bare header, and that chunk carries the
  points. This follows the code and is stated by
  `SummaryFeedback.FirstChunkMayBeBare`.
