/** The zero-credit feedback shown at a source line
    (AnnotationMapper.createInlineFeedbackWithNoDeduction and the grouping by
    start line in calculateManualFeedbacks). Annotations are grouped by their
    start line only, so annotations of different files on the same line share
    one record, which names the file of the first of them. */
module InlineFeedback {
  import opened Base
  import opened Domain

  /** The annotations starting on `line`, in annotation order. */
  function OnLine(anns: seq<Annotation>, line: nat): (r: seq<Annotation>)
    ensures forall a :: a in r <==> a in anns && a.startLine == line
  {
    Filter((a: Annotation) => a.startLine == line, anns)
  }

  /** The distinct start lines of the first n annotations, in order of
      first occurrence. */
  function StartLinesOf(anns: seq<Annotation>, n: nat): (r: seq<nat>)
    requires n <= |anns|
    ensures NoDuplicates(r)
    ensures forall i :: 0 <= i < n ==> anns[i].startLine in r
    ensures forall k :: 0 <= k < |r| ==> exists i :: 0 <= i < n && anns[i].startLine == r[k]
  {
    if n == 0 then []
    else
      var r := StartLinesOf(anns, n - 1);
      if anns[n - 1].startLine in r then r else r + [anns[n - 1].startLine]
  }

  /** The distinct start lines, in order of first occurrence. The source
      takes them from a HashMap, whose order it does not fix. */
  function StartLines(anns: seq<Annotation>): (r: seq<nat>)
    ensures NoDuplicates(r)
    ensures forall a :: a in anns ==> a.startLine in r
    ensures forall k :: 0 <= k < |r| ==> OnLine(anns, r[k]) != []
  {
    var r := StartLinesOf(anns, |anns|);
    assert forall k :: 0 <= k < |r| ==> OnLine(anns, r[k]) != [] by {
      forall k | 0 <= k < |r| ensures OnLine(anns, r[k]) != [] {
        var i :| 0 <= i < |anns| && anns[i].startLine == r[k];
        assert anns[i] in OnLine(anns, r[k]);
      }
    }
    r
  }

  /** One annotation's entry: `[group:button] ` and then either the custom
      message with its penalty, or the canned message with an optional
      explanation. */
  function InlineEntry(a: Annotation, format: real -> string): string
    requires MessageAndPenaltyPresent(a)
  {
    var mt := a.mistakeType;
    var tag := "[" + mt.ratingGroupName + ":" + mt.buttonText + "] ";
    if mt.isCustomPenalty then
      tag + a.customMessage.value + " (" + format(a.customPenalty.value) + "P)"
    else
      tag + mt.message + (if a.customMessage.Some? then "\nExplanation: " + a.customMessage.value else "")
  }

  /** The entries of a line's annotations, each followed by a blank line. */
  function InlineBodyOf(group: seq<Annotation>, n: nat, format: real -> string): string
    requires n <= |group|
    requires forall a :: a in group ==> MessageAndPenaltyPresent(a)
  {
    if n == 0 then ""
    else InlineBodyOf(group, n - 1, format) + InlineEntry(group[n - 1], format) + "\n\n"
  }

  function InlineBody(group: seq<Annotation>, format: real -> string): string
    requires forall a :: a in group ==> MessageAndPenaltyPresent(a)
  {
    InlineBodyOf(group, |group|, format)
  }

  /** The record's text shows the line 1-indexed ... */
  function LineText(path: string, line: nat): string
  {
    "File " + path + " at line " + NatToString(line + 1)
  }

  /** ... and its reference keeps it 0-indexed. */
  function LineReference(path: string, line: nat): string
  {
    "file:" + path + ".java_line:" + NatToString(line)
  }

  /** The record for one line (0-indexed) and the annotations on it. */
  function LineFeedback(line: nat, group: seq<Annotation>, format: real -> string): (f: Feedback)
    requires group != []
    requires forall a :: a in group ==> MessageAndPenaltyPresent(a)
  {
    var path := group[0].classFilePath;
    NewFeedback(Manual, 0.0, None,
                Some(LineText(path, line)),
                Some(LineReference(path, line)),
                Trim(InlineBody(group, format)))
  }

  /** The source's loop over the line's annotations, appending each entry
      and a blank line to a buffer. */
  method BuildInlineBody(group: seq<Annotation>, format: real -> string) returns (resultText: string)
    requires forall a :: a in group ==> MessageAndPenaltyPresent(a)
    ensures resultText == InlineBody(group, format)
  {
    resultText := "";
    for i := 0 to |group|
      invariant resultText == InlineBodyOf(group, i, format)
    {
      var detailText := InlineEntry(group[i], format);
      assert InlineBodyOf(group, i + 1, format) == resultText + detailText + "\n\n";
      resultText := resultText + detailText + "\n\n";
    }
  }

  /** The record of one line: its text and reference from the first
      annotation's path, and the trimmed buffer as detail text. */
  method InlineFeedbackWithNoDeduction(line: nat, group: seq<Annotation>, format: real -> string)
    returns (f: Feedback)
    requires group != []
    requires forall a :: a in group ==> MessageAndPenaltyPresent(a)
    ensures f == LineFeedback(line, group, format)
  {
    var sample := group[0];
    var text := LineText(sample.classFilePath, line);
    var reference := LineReference(sample.classFilePath, line);
    var resultText := BuildInlineBody(group, format);
    f := NewFeedback(Manual, 0.0, None, Some(text), Some(reference), Trim(resultText));
  }

  /** The records of the first n of the given lines. */
  function LineFeedbacks(anns: seq<Annotation>, lines: seq<nat>, n: nat, format: real -> string): (fs: seq<Feedback>)
    requires n <= |lines|
    requires forall a :: a in anns ==> MessageAndPenaltyPresent(a)
    requires forall k :: 0 <= k < |lines| ==> OnLine(anns, lines[k]) != []
    ensures |fs| == n
  {
    if n == 0 then []
    else LineFeedbacks(anns, lines, n - 1, format) + [LineFeedback(lines[n - 1], OnLine(anns, lines[n - 1]), format)]
  }

  /** Record k is the record of line k. */
  lemma {:induction false} LineFeedbacksAt(anns: seq<Annotation>, lines: seq<nat>, n: nat, format: real -> string, k: nat)
    requires n <= |lines|
    requires forall a :: a in anns ==> MessageAndPenaltyPresent(a)
    requires forall k :: 0 <= k < |lines| ==> OnLine(anns, lines[k]) != []
    requires k < n
    ensures LineFeedbacks(anns, lines, n, format)[k] == LineFeedback(lines[k], OnLine(anns, lines[k]), format)
  {
    var prev := LineFeedbacks(anns, lines, n - 1, format);
    assert LineFeedbacks(anns, lines, n, format)
        == prev + [LineFeedback(lines[n - 1], OnLine(anns, lines[n - 1]), format)];
    if k < n - 1 {
      LineFeedbacksAt(anns, lines, n - 1, format, k);
    }
  }

  /** One record per distinct start line. */
  function InlineFeedbacks(anns: seq<Annotation>, format: real -> string): seq<Feedback>
    requires forall a :: a in anns ==> MessageAndPenaltyPresent(a)
  {
    var lines := StartLines(anns);
    LineFeedbacks(anns, lines, |lines|, format)
  }

  /** Every annotation lands in exactly one line's group. */
  lemma InlineGroupsPartition(anns: seq<Annotation>, a: Annotation)
    requires a in anns
    ensures exists k :: 0 <= k < |StartLines(anns)| && a in OnLine(anns, StartLines(anns)[k])
    ensures forall k, k' :: 0 <= k < |StartLines(anns)| && 0 <= k' < |StartLines(anns)|
              && a in OnLine(anns, StartLines(anns)[k]) && a in OnLine(anns, StartLines(anns)[k'])
              ==> k == k'
  {
    var lines := StartLines(anns);
    var k :| 0 <= k < |lines| && lines[k] == a.startLine;
    assert a in OnLine(anns, lines[k]);
  }

  /** The inline records: one per distinct start line, each a zero-credit
      MANUAL record whose text shows the line 1-indexed and whose reference
      keeps it 0-indexed, both with the path of the line's first annotation. */
  lemma InlineFeedbacksShape(anns: seq<Annotation>, format: real -> string)
    requires forall a :: a in anns ==> MessageAndPenaltyPresent(a)
    ensures |InlineFeedbacks(anns, format)| == |StartLines(anns)|
    ensures forall k :: 0 <= k < |StartLines(anns)| ==>
      var line := StartLines(anns)[k];
      var group := OnLine(anns, line);
      var f := InlineFeedbacks(anns, format)[k];
      && f.feedbackType == Some(Manual) && f.credits == 0.0
      && f.text == Some(LineText(group[0].classFilePath, line))
      && f.reference == Some(LineReference(group[0].classFilePath, line))
      && f.detailText == Trim(InlineBody(group, format))
  {
    var lines := StartLines(anns);
    forall k | 0 <= k < |lines|
      ensures InlineFeedbacks(anns, format)[k] == LineFeedback(lines[k], OnLine(anns, lines[k]), format)
    {
      LineFeedbacksAt(anns, lines, |lines|, format, k);
    }
  }

  /** Inline records never carry credit: the penalties are counted only in
      the rating groups' summaries. */
  lemma InlineFeedbacksCarryNoCredit(anns: seq<Annotation>, format: real -> string)
    requires forall a :: a in anns ==> MessageAndPenaltyPresent(a)
    ensures SumCredits(InlineFeedbacks(anns, format)) == 0.0
  {
    InlineFeedbacksShape(anns, format);
    SumCreditsOfZero(InlineFeedbacks(anns, format), |InlineFeedbacks(anns, format)|);
  }

  lemma {:induction false} StartLinesOfOneLine(anns: seq<Annotation>, line: nat, n: nat)
    requires 1 <= n <= |anns|
    requires forall i :: 0 <= i < |anns| ==> anns[i].startLine == line
    ensures StartLinesOf(anns, n) == [line]
  {
    if n > 1 {
      StartLinesOfOneLine(anns, line, n - 1);
    }
  }

  /** Annotations that all start on one line have that line as their only
      start line. */
  lemma SingleStartLine(anns: seq<Annotation>, line: nat)
    requires anns != []
    requires forall a :: a in anns ==> a.startLine == line
    ensures StartLines(anns) == [line]
  {
    assert forall i :: 0 <= i < |anns| ==> anns[i] in anns;
    StartLinesOfOneLine(anns, line, |anns|);
  }

  lemma ScenarioTexts()
    ensures LineText("A.java", 3) == "File A.java at line 4"
    ensures LineReference("A.java", 3) == "file:A.java.java_line:3"
  {
    assert NatToString(3) == "3";
    var four: nat := 3 + 1;
    assert NatToString(four) == "4";
  }

  /** Annotations that all start on line 3 of A.java give exactly one record,
      shown at line 4, referenced as line 3, and holding every annotation's
      entry. */
  lemma SameLineScenario(anns: seq<Annotation>, format: real -> string)
    requires anns != []
    requires forall a :: a in anns ==> MessageAndPenaltyPresent(a)
    requires forall a :: a in anns ==> a.startLine == 3 && a.classFilePath == "A.java"
    ensures |InlineFeedbacks(anns, format)| == 1
    ensures InlineFeedbacks(anns, format)[0].text == Some("File A.java at line 4")
    ensures InlineFeedbacks(anns, format)[0].reference == Some("file:A.java.java_line:3")
    ensures InlineFeedbacks(anns, format)[0].credits == 0.0
    ensures InlineFeedbacks(anns, format)[0].detailText == Trim(InlineBody(anns, format))
  {
    SingleStartLine(anns, 3);
    var group := OnLine(anns, 3);
    assert forall k :: 0 <= k < |anns| ==> anns[k] in anns;
    FilterKeepsAll((a: Annotation) => a.startLine == 3, anns);
    assert group == anns;
    assert group[0] in group;
    ScenarioTexts();
    LineFeedbacksAt(anns, [3], 1, format, 0);
  }

  /** Inline records are never measured against the detail-text limit: a
      lone annotation whose canned message does not end in white space is
      shown whole, so its record is longer than the message, however long
      that is. */
  lemma InlineUnbounded(a: Annotation, format: real -> string)
    requires !a.mistakeType.isCustomPenalty && a.customMessage.None?
    requires a.mistakeType.message != [] && !IsTrimmed(a.mistakeType.message[|a.mistakeType.message| - 1])
    ensures |InlineFeedbacks([a], format)| == 1
    ensures InlineFeedbacks([a], format)[0].detailText == InlineEntry(a, format)
    ensures Utf16Length(InlineFeedbacks([a], format)[0].detailText) > Utf16Length(a.mistakeType.message)
  {
    var anns := [a];
    var entry := InlineEntry(a, format);
    var mt := a.mistakeType;
    var tag := "[" + mt.ratingGroupName + ":" + mt.buttonText + "] ";
    assert entry == tag + mt.message;
    Utf16LengthAppend(tag, mt.message);
    SingleStartLine(anns, a.startLine);
    assert OnLine(anns, a.startLine) == anns by {
      FilterKeepsAll((b: Annotation) => b.startLine == a.startLine, anns);
    }
    LineFeedbacksAt(anns, [a.startLine], 1, format, 0);
    var body := InlineBody(anns, format);
    assert body == InlineBodyOf(anns, 0, format) + InlineEntry(anns[0], format) + "\n\n";
    assert body == entry + "\n\n";
    assert TrimStart(body) == body;
    assert body[..|body| - 1] == entry + "\n";
    assert (entry + "\n")[..|entry|] == entry;
    assert TrimEnd(body) == TrimEnd(entry + "\n") == TrimEnd(entry) == entry;
  }
}
