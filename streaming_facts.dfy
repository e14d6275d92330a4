/** What the streaming engine promises: the step it reports, where the
    final answer comes from, the bounds of its citations, facts and
    alternatives, its confidence range, and the order and shape of the
    results it yields. */
module StreamingFacts {
  import opened Wrappers
  import opened Text
  import opened Lines
  import opened Reasoning
  import opened Streaming

  // ---------------------------------------------------------------------
  // Current step
  // ---------------------------------------------------------------------

  /** The first accepted element of `xs` is still the first one after
      more elements arrive. */
  lemma FirstIndexExtends(xs: seq<string>, more: seq<string>, p: string -> bool)
    requires FirstIndex(xs, p) < |xs|
    ensures FirstIndex(xs + more, p) == FirstIndex(xs, p)
  {
    var i := FirstIndex(xs, p);
    assert (xs + more)[i] == xs[i];
    assert forall j :: 0 <= j < i ==> (xs + more)[j] == xs[j];
  }

  /** Once a final-answer line has been seen the reported step is
      "FINAL ANSWER", and it stays so whatever lines follow. */
  lemma FinalStepStays(ls: seq<string>, more: seq<string>)
    requires exists i :: 0 <= i < |ls| && EndsSteps(ls[i])
    ensures CurrentStep(ls) == "FINAL ANSWER"
    ensures CurrentStep(ls + more) == "FINAL ANSWER"
  {
    var i :| 0 <= i < |ls| && EndsSteps(ls[i]);
    assert FirstIndex(ls, EndsSteps) <= i;
    FirstIndexExtends(ls, more, EndsSteps);
  }

  /** Before any final-answer line the reported step is the last step
      header so far, or "" when there is none. */
  lemma StepBeforeFinal(ls: seq<string>)
    requires forall i :: 0 <= i < |ls| ==> !EndsSteps(ls[i])
    ensures (forall i :: 0 <= i < |ls| ==> !IsStepHeader(ls[i])) ==> CurrentStep(ls) == ""
    ensures forall k :: (0 <= k < |ls| && IsStepHeader(ls[k]) &&
      (forall j :: k < j < |ls| ==> !IsStepHeader(ls[j]))) ==> CurrentStep(ls) == ls[k]
  {
    assert FirstIndex(ls, EndsSteps) == |ls|;
    var last := LastIndex(ls, IsStepHeader);
    forall k | 0 <= k < |ls| && IsStepHeader(ls[k]) && (forall j :: k < j < |ls| ==> !IsStepHeader(ls[j]))
      ensures CurrentStep(ls) == ls[k]
    {
      assert last.Some? && last.value == k;
    }
  }

  // ---------------------------------------------------------------------
  // Final answer
  // ---------------------------------------------------------------------

  /** The pieces of a line followed by more lines. */
  lemma {:induction false} PiecesCons(x: string, rest: seq<string>)
    ensures Pieces([x] + rest) == Piece(x) + Pieces(rest)
    decreases |rest|
  {
    if rest == [] {
      assert Pieces([x]) == Pieces([]) + Piece(x);
    } else {
      var init := rest[..|rest| - 1];
      PiecesCons(x, init);
      assert ([x] + rest)[..|[x] + rest| - 1] == [x] + init;
      assert rest == init + [rest[|rest| - 1]];
    }
  }

  /** A non-empty line that is not a final-answer line. */
  predicate Nonblank(line: string) {
    line != [] && !IsFinalLine(line)
  }

  /** Among lines with no final-answer line, every non-empty line is
      collected as it is, in order. */
  lemma {:induction false} PiecesPlain(ls: seq<string>)
    requires forall j :: 0 <= j < |ls| ==> !IsFinalLine(ls[j])
    ensures Pieces(ls) == Filter(ls, Nonblank)
  {
    if ls != [] {
      PiecesPlain(ls[..|ls| - 1]);
    }
  }

  /** With one final-answer line, the answer lines are the text after its
      first ':' (when it has one), then every later non-empty line. */
  lemma CollectedAfterMarker(ls: seq<string>, f: nat)
    requires f < |ls| && IsFinalLine(ls[f])
    requires forall j :: 0 <= j < |ls| && j != f ==> !IsFinalLine(ls[j])
    ensures Collected(ls) == Piece(ls[f]) + Filter(ls[f + 1..], Nonblank)
    ensures ColonAt(ls[f]) < |ls[f]| ==> Collected(ls)[0] == Strip(ls[f][ColonAt(ls[f]) + 1..])
  {
    assert FirstIndex(ls, IsFinalLine) == f;
    assert ls[f..] == [ls[f]] + ls[f + 1..];
    PiecesCons(ls[f], ls[f + 1..]);
    PiecesPlain(ls[f + 1..]);
  }

  /** Without a final-answer line the answer is the last substantial line,
      or the fixed message when there is none. */
  lemma AnswerWithoutMarker(ls: seq<string>)
    requires forall j :: 0 <= j < |ls| ==> !IsFinalLine(ls[j])
    ensures (forall j :: 0 <= j < |ls| ==> !Substantial(ls[j])) ==> FinalAnswer(ls) == NoAnswer
    ensures (exists j :: 0 <= j < |ls| && Substantial(ls[j])) ==>
      exists k :: 0 <= k < |ls| && ls[k] == FinalAnswer(ls) && Substantial(ls[k]) &&
        forall j :: k < j < |ls| ==> !Substantial(ls[j])
  {
    assert FirstIndex(ls, IsFinalLine) == |ls|;
  }

  /** What a final-answer line with a ':' contributes. */
  lemma MarkerPiece(m: string)
    requires IsFinalLine(m) && ColonAt(m) < |m|
    ensures |Piece(m)| == 1 && Piece(m)[0] == Strip(m[ColonAt(m) + 1..])
  {
  }

  /** A final-answer line with nothing after its ':' ends the reply with
      an empty answer: the fallback is not consulted, however substantial
      the earlier lines are. */
  lemma EmptyAfterMarker(pre: seq<string>, m: string)
    requires forall j :: 0 <= j < |pre| ==> !IsFinalLine(pre[j])
    requires IsFinalLine(m) && ColonAt(m) < |m| && Strip(m[ColonAt(m) + 1..]) == ""
    ensures FinalAnswer(pre + [m]) == ""
  {
    EmptyTextCollected(pre, m);
    var pieces := Collected(pre + [m]);
    assert Join(" ", pieces) == "";
  }

  lemma EmptyTextCollected(pre: seq<string>, m: string)
    requires forall j :: 0 <= j < |pre| ==> !IsFinalLine(pre[j])
    requires IsFinalLine(m) && ColonAt(m) < |m| && Strip(m[ColonAt(m) + 1..]) == ""
    ensures |Collected(pre + [m])| == 1 && Collected(pre + [m])[0] == ""
  {
    var ls := pre + [m];
    assert ls[|pre|] == m;
    CollectedAfterMarker(ls, |pre|);
    assert ls[|pre| + 1..] == [];
    MarkerPiece(m);
  }

  // ---------------------------------------------------------------------
  // Citations
  // ---------------------------------------------------------------------

  /** The relevance of a fallback citation stays between 0.5 and 0.9: the
      clamp to [0.5, 1.0] never bites, since the keyword bonus is capped at
      0.3 and the length bonus is 0.1. */
  lemma StreamRelevanceRange(item: Item, response: string)
    ensures 0.5 <= StreamRelevance(item, response) <= 0.9
    ensures |item.text| <= 100 ==> StreamRelevance(item, response) <= 0.8
  {
  }

  /** Marker citations cite the items their in-range markers name, in
      marker order with repeats, at relevance 0.8. */
  lemma MarkerCitationsFacts(response: string, context: seq<Item>)
    requires InRange(Markers(response), |context|) != []
    ensures var picked := InRange(Markers(response), |context|);
      var cs := StreamCitations(response, context);
      |cs| == |picked| &&
      forall i :: 0 <= i < |cs| ==>
        var item := context[picked[i] - 1];
        cs[i] == Citation(OrElse(item.file, "Unknown"), item.page, Snippet(item.text), 0.8)
  {
    var picked := InRange(Markers(response), |context|);
    var cited := Cited(picked, context, MarkerDefault);
    assert |cited| == |picked| > 0;
    assert StreamCitations(response, context) == cited;
  }

  /** With no in-range marker the first (at most three) items are cited,
      at a relevance in [0.5, 0.9]; an empty context cites nothing. */
  lemma FallbackCitationsFacts(response: string, context: seq<Item>)
    requires InRange(Markers(response), |context|) == []
    ensures var cs := StreamCitations(response, context);
      |cs| == Min(3, |context|) &&
      forall i :: 0 <= i < |cs| ==>
        cs[i].file == OrElse(context[i].file, "Document " + IntToString(i + 1)) &&
        cs[i].text == Snippet(context[i].text) && 0.5 <= cs[i].relevance <= 0.9
  {
    var cs := StreamCitations(response, context);
    assert Cited([], context, MarkerDefault) == [];
    forall i | 0 <= i < |cs|
      ensures 0.5 <= cs[i].relevance <= 0.9
    {
      StreamRelevanceRange(context[i], response);
    }
  }

  /** Every citation the stream produces has a relevance of at least 0.5. */
  lemma StreamRelevancesAtLeastHalf(response: string, context: seq<Item>)
    ensures forall i :: 0 <= i < |StreamCitations(response, context)| ==>
      StreamCitations(response, context)[i].relevance >= 0.5
  {
    if InRange(Markers(response), |context|) != [] {
      MarkerCitationsFacts(response, context);
    } else {
      FallbackCitationsFacts(response, context);
    }
  }

  // ---------------------------------------------------------------------
  // Supporting facts and alternatives
  // ---------------------------------------------------------------------

  /** At most five facts, the first qualifying stripped lines in reply
      order. */
  lemma StreamFactsFacts(response: string)
    ensures var facts := StreamFacts(response);
      |facts| <= 5 &&
      (forall i :: 0 <= i < |facts| ==> IsStreamFact(facts[i]) && facts[i] in StrippedLines(response)) &&
      facts == Filter(StrippedLines(response), IsStreamFact)[..|facts|]
  {
    var all := Filter(StrippedLines(response), IsStreamFact);
    FilterMembers(StrippedLines(response), IsStreamFact);
    forall i | 0 <= i < Min(5, |all|)
      ensures IsStreamFact(all[i]) && all[i] in StrippedLines(response)
    {
      assert all[i] in all;
    }
  }

  /** At most two alternatives: the first lines that mention an
      alternative, or, when no line does, the domain defaults. */
  lemma StreamAlternativesFacts(response: string)
    ensures var alts := StreamAlternatives(response);
      var found := Filter(StrippedLines(response), MentionsAlternative);
      |alts| <= 2 &&
      (found != [] ==>
        alts == found[..|alts|] && alts != [] &&
        forall i :: 0 <= i < |alts| ==> MentionsAlternative(alts[i]) && alts[i] in StrippedLines(response)) &&
      (found == [] ==> alts == Take(DefaultAlternatives(response), 2))
  {
    var found := Filter(StrippedLines(response), MentionsAlternative);
    FilterMembers(StrippedLines(response), MentionsAlternative);
    forall i | 0 <= i < Min(2, |found|)
      ensures MentionsAlternative(found[i]) && found[i] in StrippedLines(response)
    {
      assert found[i] in found;
    }
  }

  /** The intended indicators accept every line the written ones accept:
      "alternative" is a prefix of the first written pattern and the other
      four are the same. */
  lemma IntendedCoversWritten(line: string)
    ensures MentionsWritten(line) ==> MentionsAlternative(line)
  {
    if MentionsWritten(line) {
      var u := Lower(line);
      var k :| 0 <= k < |WrittenPatterns| && Contains(u, WrittenPatterns[k]);
      if k == 0 {
        assert WrittenPatterns[0] == IntendedPatterns[0] + "(?:ly)?";
        ContainsPrefix(u, IntendedPatterns[0], "(?:ly)?");
      } else {
        assert WrittenPatterns[k] == IntendedPatterns[k];
      }
    }
  }

  /** A reply line the written indicators miss. */
  const MissedLine: string := "Alternatively, a mode."

  /** A text without the separator splits into itself. */
  lemma {:induction false} SplitWithoutSeparator(s: string, sep: char)
    requires sep !in s
    ensures Split(s, sep) == [s]
    decreases |s|
  {
    if s != [] {
      SplitWithoutSeparator(s[1..], sep);
      assert [s[0]] + s[1..] == s;
    }
  }

  /** A text with no whitespace at either end is its own strip. */
  lemma StripUnchanged(s: string)
    requires s != [] && !IsSpace(s[0]) && !IsSpace(s[|s| - 1])
    ensures Strip(s) == s
  {
    assert LStrip(s) == s;
  }

  /** The line, lower-cased. */
  const LowerMissedLine: string := "alternatively, a mode."

  /** The line is a reply of one line. */
  lemma MissedLineAlone()
    ensures StrippedLines(MissedLine) == [MissedLine]
  {
    MissedLinePlain();
    SplitWithoutSeparator(MissedLine, '\n');
    StripUnchanged(MissedLine);
  }

  lemma MissedLinePlain()
    ensures '\n' !in MissedLine && !IsSpace(MissedLine[0]) && !IsSpace(MissedLine[|MissedLine| - 1])
  {
  }

  lemma MissedLineLowered()
    ensures Lower(MissedLine) == LowerMissedLine
  {
    assert LowerChar('A') == 'a';
  }

  /** Each written indicator has a character the lower-cased line lacks. */
  lemma MissedLineLacks()
    ensures 'h' !in LowerMissedLine && 'u' !in LowerMissedLine && '(' !in LowerMissedLine
  {
  }

  /** A text lacking one of the characters of `t` does not contain `t`. */
  lemma LacksChar(s: string, t: string, k: nat)
    requires k < |t| && t[k] !in s
    ensures !Contains(s, t)
  {
    ContainedChars(s, t);
  }

  lemma WrittenMisses()
    ensures forall j :: 0 <= j < |WrittenPatterns| ==> !Contains(LowerMissedLine, WrittenPatterns[j])
  {
    forall j | 0 <= j < |WrittenPatterns| ensures !Contains(LowerMissedLine, WrittenPatterns[j]) {
      WrittenMissesAt(j);
    }
  }

  lemma WrittenMissesAt(j: nat)
    requires j < |WrittenPatterns|
    ensures !Contains(LowerMissedLine, WrittenPatterns[j])
  {
    MissedLineLacks();
    if j == 0 {
      assert WrittenPatterns[0][11] == '(';
      LacksChar(LowerMissedLine, WrittenPatterns[0], 11);
    } else if j == 1 {
      assert WrittenPatterns[1][4] == 'h';
      LacksChar(LowerMissedLine, WrittenPatterns[1], 4);
    } else if j == 2 {
      assert WrittenPatterns[2][0] == 'h';
      LacksChar(LowerMissedLine, WrittenPatterns[2], 0);
    } else if j == 3 {
      assert WrittenPatterns[3][5] == 'u';
      LacksChar(LowerMissedLine, WrittenPatterns[3], 5);
    } else {
      assert WrittenPatterns[4][4] == 'h';
      LacksChar(LowerMissedLine, WrittenPatterns[4], 4);
    }
  }

  /** The first written indicator is regular-expression syntax looked up
      as a plain substring, so a line opening with "Alternatively" is not
      taken as an alternative: the stream reports the domain defaults
      instead of the line, where the intended indicators report the line. */
  lemma AsWrittenMissesAlternatively(line: string)
    requires line == MissedLine
    ensures !MentionsWritten(line) && MentionsAlternative(line)
    ensures AlternativesAsWritten(line) == Take(DefaultAlternatives(line), 2)
    ensures StreamAlternatives(line) == [line]
  {
    MissedLineAlone();
    MissedLineMentions();
    assert Filter([line], MentionsWritten) == [];
    assert Filter([line], MentionsAlternative) == [line];
  }

  lemma MissedLineMentions()
    ensures !MentionsWritten(MissedLine) && MentionsAlternative(MissedLine)
  {
    MissedLineLowered();
    WrittenMisses();
    assert LowerMissedLine[..11] == IntendedPatterns[0];
  }

  // ---------------------------------------------------------------------
  // Confidence
  // ---------------------------------------------------------------------

  predicate RelevancesNonNegative(cs: seq<Citation>) {
    forall i :: 0 <= i < |cs| ==> cs[i].relevance >= 0.0
  }

  lemma {:induction false} RelevanceSumNonNegative(cs: seq<Citation>)
    requires RelevancesNonNegative(cs)
    ensures RelevanceSum(cs) >= 0.0
  {
    if cs != [] {
      RelevanceSumNonNegative(cs[..|cs| - 1]);
    }
  }

  /** The score is capped at 1.0, and with non-negative relevances it is at
      least the base 0.3. */
  lemma ScoreRange(s: Snapshot)
    ensures RealMin(RawScore(s), 1.0) <= 1.0
    ensures RelevancesNonNegative(s.citations) ==> RealMin(RawScore(s), 1.0) >= 0.3
  {
    if RelevancesNonNegative(s.citations) && s.citations != [] {
      RelevanceSumNonNegative(s.citations);
      assert RelevanceSum(s.citations) / |s.citations| as real >= 0.0;
    }
  }

  // ---------------------------------------------------------------------
  // The stream
  // ---------------------------------------------------------------------

  /** While chunks arrive only the current step, the answer and the chain
      change: the result stays incomplete, unscored and without citations,
      facts, alternatives or error, and the current step and chain are
      those of the reply so far. */
  lemma {:induction false} StateAfterFacts(chunks: seq<string>, partialOf: string -> string, chainOf: string -> seq<string>)
    ensures var s := StateAfter(chunks, partialOf, chainOf);
      !s.complete && s.error == None && s.confidence == 0.0 &&
      s.citations == [] && s.facts == [] && s.alternatives == []
    ensures chunks != [] ==>
      var s := StateAfter(chunks, partialOf, chainOf);
      s.currentStep == CurrentStep(StrippedLines(Concat(chunks))) && s.chain == chainOf(Concat(chunks))
  {
    if chunks != [] {
      StateAfterFacts(chunks[..|chunks| - 1], partialOf, chainOf);
    }
  }

  /** The `k`-th result seen is the state after the first `k + 1` chunks. */
  lemma {:induction false} StreamedAt(chunks: seq<string>, k: nat, partialOf: string -> string, chainOf: string -> seq<string>)
    requires k < |chunks|
    ensures Streamed(chunks, partialOf, chainOf)[k] == StateAfter(chunks[..k + 1], partialOf, chainOf)
  {
    if k < |chunks| - 1 {
      var init := chunks[..|chunks| - 1];
      StreamedAt(init, k, partialOf, chainOf);
      assert init[..k + 1] == chunks[..k + 1];
    } else {
      assert chunks[..k + 1] == chunks;
    }
  }

  /** Every result seen while chunks arrive is incomplete and carries no
      error. */
  lemma StreamedIncomplete(chunks: seq<string>, partialOf: string -> string, chainOf: string -> seq<string>)
    ensures forall k :: 0 <= k < |chunks| ==>
      !Streamed(chunks, partialOf, chainOf)[k].complete && Streamed(chunks, partialOf, chainOf)[k].error == None
  {
    forall k | 0 <= k < |chunks|
      ensures !Streamed(chunks, partialOf, chainOf)[k].complete && Streamed(chunks, partialOf, chainOf)[k].error == None
    {
      StreamedAt(chunks, k, partialOf, chainOf);
      StateAfterFacts(chunks[..k + 1], partialOf, chainOf);
    }
  }

  /** One result per chunk received, then exactly one complete result: the
      no-documents result, the error result, or the finished reply. */
  lemma YieldsShape(context: seq<Item>, chunks: seq<string>, failure: Option<Failure>,
                    partialOf: string -> string, chainOf: string -> seq<string>, organise: Snapshot -> string)
    ensures var ys := Yields(context, chunks, failure, partialOf, chainOf, organise);
      |ys| == (if context == [] then 1
               else if failure.Some? then Min(failure.value.after, |chunks|) + 1
               else |chunks| + 1) &&
      ys[|ys| - 1].complete &&
      forall k :: 0 <= k < |ys| - 1 ==> !ys[k].complete && ys[k].error == None
  {
    if context != [] {
      var n := if failure.Some? then Min(failure.value.after, |chunks|) else |chunks|;
      StreamedIncomplete(chunks[..n], partialOf, chainOf);
      assert chunks[..|chunks|] == chunks;
    }
  }

  /** A failure replaces the rest of the stream with one error result: no
      confidence, the failure's text as the error, and a message chosen by
      the failure's text. */
  lemma FailureYieldsError(context: seq<Item>, chunks: seq<string>, failure: Failure,
                           partialOf: string -> string, chainOf: string -> seq<string>, organise: Snapshot -> string)
    requires context != []
    ensures var ys := Yields(context, chunks, Some(failure), partialOf, chainOf, organise);
      var last := ys[|ys| - 1];
      last.error == Some(failure.message) && last.confidence == 0.0 && last.citations == [] &&
      last.answer == ErrorMessage(failure.message) && last.chain == ["Configuration Error: " + last.answer] &&
      ys[..|ys| - 1] == Streamed(chunks[..Min(failure.after, |chunks|)], partialOf, chainOf)
  {
  }

  /** A completed stream ends with the whole reply's extractions, scored
      between 0.3 and 1.0 (every citation it makes has relevance at least
      0.5), and no error. */
  lemma CompletedYieldsFinal(context: seq<Item>, chunks: seq<string>,
                             partialOf: string -> string, chainOf: string -> seq<string>, organise: Snapshot -> string)
    requires context != []
    ensures var ys := Yields(context, chunks, None, partialOf, chainOf, organise);
      var last := ys[|ys| - 1];
      var full := Concat(chunks);
      last.error == None && 0.3 <= last.confidence <= 1.0 &&
      last.citations == StreamCitations(full, context) && last.facts == StreamFacts(full) &&
      last.alternatives == StreamAlternatives(full) && last.chain == chainOf(full) &&
      last.currentStep == StateAfter(chunks, partialOf, chainOf).currentStep
  {
    var full := Concat(chunks);
    var e := Extracted(StateAfter(chunks, partialOf, chainOf), full, context, chainOf);
    StateAfterFacts(chunks, partialOf, chainOf);
    StreamRelevancesAtLeastHalf(full, context);
    ScoreRange(e);
  }
}
