/** The hidden archive of the annotations (AnnotationMapper
    .calculateAnnotationSerialisationAsFeedbacks): the JSON encoding of the
    annotation list is stored in the detail text of invisible records, and a
    list whose encoding is too long is halved until every part fits. */
module ArchivalPacker {
  import opened Base
  import opened Domain

  /** One archive record together with the annotations it encodes. */
  datatype Archived = Archived(annotations: seq<Annotation>, record: Feedback)

  /** The hidden record holding one JSON chunk. */
  function ClientData(json: string): Feedback
  {
    NewFeedback(ManualUnreferenced, 0.0, Some("NEVER"), Some("CLIENT_DATA"), None, json)
  }

  /** The message of the exception raised for an annotation that cannot fit. */
  function TooLarge(json: string): string
  {
    "This annotation is too large to serialize! " + json
  }

  /** The annotation lists behind a sequence of archive records. */
  function ChunksOf(rs: seq<Archived>): (cs: seq<seq<Annotation>>)
    ensures |cs| == |rs|
    ensures forall k :: 0 <= k < |rs| ==> cs[k] == rs[k].annotations
  {
    seq(|rs|, k requires 0 <= k < |rs| => rs[k].annotations)
  }

  /** `rs` archives `anns` losslessly: their lists, concatenated in order,
      are `anns`, and every record is the hidden record of its own list and
      fits the limit. */
  predicate Packs(anns: seq<Annotation>, rs: seq<Archived>, maxChars: int, encode: seq<Annotation> -> string)
  {
    && Flatten(ChunksOf(rs)) == anns
    && (forall k :: 0 <= k < |rs| ==>
          rs[k].record == ClientData(encode(rs[k].annotations)) && Utf16Length(rs[k].record.detailText) < maxChars)
    && 1 <= |rs| && (anns != [] ==> |rs| <= |anns|)
  }

  /** The error names an annotation of `anns` that does not fit on its own. */
  predicate NamesOversized(anns: seq<Annotation>, error: string, maxChars: int, encode: seq<Annotation> -> string)
  {
    exists a :: a in anns && Utf16Length(encode([a])) >= maxChars && error == TooLarge(encode([a]))
  }

  /** The archive records of `anns` for a detail-text limit of maxChars.
      An empty list must encode shorter than the limit: halving it would
      give two empty lists again. */
  function Serialise(anns: seq<Annotation>, maxChars: int,
                     encode: seq<Annotation> -> string): (r: Result<seq<Archived>, string>)
    requires anns != [] || Utf16Length(encode(anns)) < maxChars
    // fit: a list that encodes short enough is a single record
    ensures Utf16Length(encode(anns)) < maxChars ==> r == Success([Archived(anns, ClientData(encode(anns)))])
    // fail: a single annotation that does not fit is an error
    ensures |anns| == 1 && Utf16Length(encode(anns)) >= maxChars ==> r == Failure(TooLarge(encode(anns)))
    // and an error always names one annotation that does not fit on its own
    ensures r.Failure? ==> NamesOversized(anns, r.error, maxChars, encode)
    // otherwise the records archive the whole list
    ensures r.Success? ==> Packs(anns, r.value, maxChars, encode)
    decreases |anns|
  {
    var json := encode(anns);
    if Utf16Length(json) < maxChars then
      assert Flatten([anns]) == anns by { FlattenSnoc([], anns); }
      Success([Archived(anns, ClientData(json))])
    else if |anns| == 1 then
      assert anns == [anns[0]];
      Failure(TooLarge(json))
    else
      var half := |anns| / 2;
      var left := Serialise(anns[..half], maxChars, encode);
      if left.Failure? then
        FailureInPart(anns[..half], anns, maxChars, encode, left.error);
        Failure(left.error)
      else
        var right := Serialise(anns[half..], maxChars, encode);
        if right.Failure? then
          FailureInPart(anns[half..], anns, maxChars, encode, right.error);
          Failure(right.error)
        else
          JoinParts(anns, half, left.value, right.value, maxChars, encode);
          Success(left.value + right.value)
  }

  lemma FailureInPart(part: seq<Annotation>, anns: seq<Annotation>, maxChars: int,
                      encode: seq<Annotation> -> string, error: string)
    requires forall a :: a in part ==> a in anns
    requires NamesOversized(part, error, maxChars, encode)
    ensures NamesOversized(anns, error, maxChars, encode)
  {
    var a :| a in part && Utf16Length(encode([a])) >= maxChars && error == TooLarge(encode([a]));
    assert a in anns;
  }

  /** The records of the two halves of a list, joined, archive the list. */
  lemma JoinParts(anns: seq<Annotation>, half: nat, l: seq<Archived>, r: seq<Archived>,
                  maxChars: int, encode: seq<Annotation> -> string)
    requires 1 <= half < |anns|
    requires Packs(anns[..half], l, maxChars, encode) && Packs(anns[half..], r, maxChars, encode)
    ensures Packs(anns, l + r, maxChars, encode)
  {
    assert anns[..half] + anns[half..] == anns;
    assert ChunksOf(l + r) == ChunksOf(l) + ChunksOf(r);
    FlattenAppend(ChunksOf(l), ChunksOf(r));
    forall k | 0 <= k < |l + r|
      ensures (l + r)[k].record == ClientData(encode((l + r)[k].annotations))
              && Utf16Length((l + r)[k].record.detailText) < maxChars
    {
      if k >= |l| {
        assert (l + r)[k] == r[k - |l|];
      }
    }
  }

  /** An encoding in which a part of a list never encodes longer than the
      whole list (true of Jackson's JSON arrays). */
  ghost predicate SublistsEncodeShorter(encode: seq<Annotation> -> string)
  {
    forall s: seq<Annotation>, i, j :: 0 <= i <= j <= |s| ==> Utf16Length(encode(s[i..j])) <= Utf16Length(encode(s))
  }

  /** With such an encoding, packing fails exactly when some single
      annotation does not fit. */
  lemma {:induction false} SerialiseFailsIff(anns: seq<Annotation>, maxChars: int,
                                              encode: seq<Annotation> -> string)
    requires anns != [] || Utf16Length(encode(anns)) < maxChars
    requires SublistsEncodeShorter(encode)
    ensures Serialise(anns, maxChars, encode).Failure? <==>
            exists a :: a in anns && Utf16Length(encode([a])) >= maxChars
    decreases |anns|
  {
    if exists a :: a in anns && Utf16Length(encode([a])) >= maxChars {
      var a :| a in anns && Utf16Length(encode([a])) >= maxChars;
      var i :| 0 <= i < |anns| && anns[i] == a;
      assert anns[i..i + 1] == [a];
      assert Utf16Length(encode(anns)) >= maxChars;
      if |anns| > 1 {
        var half := |anns| / 2;
        if i < half {
          assert a in anns[..half];
          SerialiseFailsIff(anns[..half], maxChars, encode);
        } else {
          assert a in anns[half..];
          SerialiseFailsIff(anns[..half], maxChars, encode);
          SerialiseFailsIff(anns[half..], maxChars, encode);
        }
      }
    }
  }
}
