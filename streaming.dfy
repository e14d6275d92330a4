/** The streaming reasoning engine: the result object it yields again and
    again while the reply arrives, and the extractors it runs on the reply
    so far (current step) and on the whole reply (final answer, citations,
    supporting facts, alternatives, confidence). */
module Streaming {
  import opened Wrappers
  import opened Text
  import opened Lines
  import opened Reasoning

  // ---------------------------------------------------------------------
  // Current step
  // ---------------------------------------------------------------------

  /** A line that ends the step scan: a final-answer line that is not a step
      header (a step header is taken as a header first). */
  predicate EndsSteps(line: string) {
    !IsStepHeader(line) && IsFinalLine(line)
  }

  /** The last step header, "" when there is none. */
  function LastHeader(ls: seq<string>): string {
    match LastIndex(ls, IsStepHeader)
    case Some(k) => ls[k]
    case None => ""
  }

  /** `_extract_current_step` on the stripped lines: "FINAL ANSWER" once the
      final answer has started, otherwise the latest step header. */
  function CurrentStep(ls: seq<string>): string {
    if FirstIndex(ls, EndsSteps) < |ls| then "FINAL ANSWER" else LastHeader(ls)
  }

  lemma LastHeaderStep(ls: seq<string>, i: nat)
    requires i < |ls|
    ensures LastHeader(ls[..i + 1]) == if IsStepHeader(ls[i]) then ls[i] else LastHeader(ls[..i])
  {
    assert ls[..i + 1][..i] == ls[..i] && ls[..i + 1][i] == ls[i];
  }

  /** One line of the loop of `_extract_current_step`. */
  method StepLine(line: string, step: string) returns (step': string, stop: bool)
    ensures stop <==> EndsSteps(line)
    ensures stop ==> step' == "FINAL ANSWER"
    ensures !stop ==> step' == if IsStepHeader(line) then line else step
  {
    step', stop := step, false;
    if IsStepHeader(line) {
      step' := line;
    } else if IsFinalLine(line) {
      step', stop := "FINAL ANSWER", true;
    }
  }

  method ExtractCurrentStep(response: string) returns (step: string)
    ensures step == CurrentStep(StrippedLines(response))
  {
    var ls := StrippedLines(response);
    ghost var f := FirstIndex(ls, EndsSteps);
    step := "";
    var i := 0;
    while i < |ls|
      invariant 0 <= i <= |ls| && i <= f
      invariant step == LastHeader(ls[..i])
    {
      LastHeaderStep(ls, i);
      var stop;
      step, stop := StepLine(ls[i], step);
      if stop {
        return;
      }
      FirstIndexPast(ls, EndsSteps, i);
      i := i + 1;
    }
    assert ls[..i] == ls;
  }

  // ---------------------------------------------------------------------
  // Final answer
  // ---------------------------------------------------------------------

  /** The position of the first ':' in `s`, `|s|` when there is none. */
  function ColonAt(s: string): (i: nat)
    ensures i <= |s|
    ensures i < |s| ==> s[i] == ':'
    ensures forall j :: 0 <= j < i ==> s[j] != ':'
  {
    if s == [] then 0
    else if s[0] == ':' then 0
    else 1 + ColonAt(s[1..])
  }

  /** What one line from the first final-answer line on contributes: the
      stripped text after the first ':' of a final-answer line, any other
      non-empty line as it is. */
  function Piece(line: string): seq<string> {
    if IsFinalLine(line) then
      var c := ColonAt(line);
      if c < |line| then [Strip(line[c + 1..])] else []
    else if line != [] then [line]
    else []
  }

  /** The answer lines collected from `ls`, in order. */
  function Pieces(ls: seq<string>): seq<string> {
    if ls == [] then [] else Pieces(ls[..|ls| - 1]) + Piece(ls[|ls| - 1])
  }

  /** A line the fallback may return as the answer. */
  predicate Substantial(line: string) {
    line != [] && !StartsWith(line, "STEP") && !StartsWith(line, "**") && |line| > 20
  }

  const NoAnswer: string := "No clear answer found in response."

  /** The answer lines: those from the first final-answer line on. */
  function Collected(ls: seq<string>): seq<string> {
    var f := FirstIndex(ls, IsFinalLine);
    if f < |ls| then Pieces(ls[f..]) else []
  }

  /** The fallback answer: the last substantial line, or a fixed message. */
  function FallbackAnswer(ls: seq<string>): string {
    match LastIndex(ls, Substantial)
    case Some(k) => ls[k]
    case None => NoAnswer
  }

  /** `_extract_final_answer` on the stripped lines. */
  function FinalAnswer(ls: seq<string>): string {
    var pieces := Collected(ls);
    if pieces != [] then Strip(Join(" ", pieces)) else FallbackAnswer(ls)
  }

  lemma PiecesStep(ls: seq<string>, f: nat, i: nat)
    requires f <= i < |ls|
    ensures Pieces(ls[f..i + 1]) == Pieces(ls[f..i]) + Piece(ls[i])
  {
    assert ls[f..i + 1][..i - f] == ls[f..i] && ls[f..i + 1][i - f] == ls[i];
  }

  /** One line of the collecting loop of `_extract_final_answer`. */
  method CollectLine(ghost ls: seq<string>, ghost f: nat, i: nat, line: string, started: bool, pieces: seq<string>)
    returns (started': bool, pieces': seq<string>)
    requires i < |ls| && line == ls[i]
    requires f == FirstIndex(ls, IsFinalLine)
    requires started <==> f < i
    requires f < i ==> pieces == Pieces(ls[f..i])
    requires f >= i ==> pieces == []
    ensures started' <==> f < i + 1
    ensures f < i + 1 ==> pieces' == Pieces(ls[f..i + 1])
    ensures f >= i + 1 ==> pieces' == []
  {
    started', pieces' := started, pieces;
    if f <= i {
      PiecesStep(ls, f, i);
    }
    if IsFinalLine(line) {
      started' := true;
      var c := ColonAt(line);
      if c < |line| {
        pieces' := pieces' + [Strip(line[c + 1..])];
      }
    } else if started && line != [] {
      pieces' := pieces' + [line];
    }
  }

  /** The fallback: the last substantial line, scanning from the end. */
  method LastSubstantial(ls: seq<string>) returns (answer: string)
    ensures answer == FallbackAnswer(ls)
  {
    var k := |ls|;
    while k > 0
      invariant 0 <= k <= |ls|
      invariant forall j :: k <= j < |ls| ==> !Substantial(ls[j])
    {
      if Substantial(ls[k - 1]) {
        return ls[k - 1];
      }
      k := k - 1;
    }
    return NoAnswer;
  }

  /** The collecting loop of `_extract_final_answer`. */
  method CollectAnswerLines(ls: seq<string>) returns (pieces: seq<string>)
    ensures pieces == Collected(ls)
  {
    ghost var f := FirstIndex(ls, IsFinalLine);
    var started := false;
    pieces := [];
    var i := 0;
    while i < |ls|
      invariant 0 <= i <= |ls|
      invariant started <==> f < i
      invariant f < i ==> pieces == Pieces(ls[f..i])
      invariant f >= i ==> pieces == []
    {
      started, pieces := CollectLine(ls, f, i, ls[i], started, pieces);
      i := i + 1;
    }
    assert ls[..i] == ls;
  }

  method ExtractFinalAnswer(response: string) returns (answer: string)
    ensures answer == FinalAnswer(StrippedLines(response))
  {
    var ls := StrippedLines(response);
    var pieces := CollectAnswerLines(ls);
    if pieces != [] {
      return Strip(Join(" ", pieces));
    }
    answer := LastSubstantial(ls);
  }

  // ---------------------------------------------------------------------
  // Citations
  // ---------------------------------------------------------------------

  const StreamKeywords: seq<string> := ["classroom", "management", "teaching", "learning", "student", "teacher"]

  /** How many of `keywords` occur in both lower-cased texts. */
  function SharedKeywords(text: string, response: string, keywords: seq<string>): (n: nat)
    ensures n <= |keywords|
  {
    if keywords == [] then 0
    else
      var k := keywords[|keywords| - 1];
      SharedKeywords(text, response, keywords[..|keywords| - 1])
      + (if Contains(Lower(text), k) && Contains(Lower(response), k) then 1 else 0)
  }

  /** The relevance `_create_context_citations_streaming` gives an item:
      0.5, plus 0.1 per shared keyword up to 0.3, plus 0.1 for a text longer
      than 100 characters, clamped to [0.5, 1.0]. */
  function StreamRelevance(item: Item, response: string): real {
    var matches := SharedKeywords(item.text, response, StreamKeywords);
    var r := 0.5 + RealMin(matches as real * 0.1, 0.3) + (if |item.text| > 100 then 0.1 else 0.0);
    RealMin(RealMax(r, 0.5), 1.0)
  }

  /** The fallback citation of the `i`-th context item. */
  function StreamContextCitation(item: Item, i: nat, response: string): Citation {
    Cite(item, "Document " + IntToString(i + 1), StreamRelevance(item, response))
  }

  /** `_create_context_citations_streaming`: the first three items, in order. */
  function StreamContextCitations(response: string, context: seq<Item>): (cs: seq<Citation>)
    ensures |cs| == Min(3, |context|)
  {
    var n := Min(3, |context|);
    seq(n, i requires 0 <= i < n => StreamContextCitation(context[i], i, response))
  }

  method CreateContextCitationsStreaming(response: string, context: seq<Item>) returns (cs: seq<Citation>)
    ensures cs == StreamContextCitations(response, context)
  {
    cs := [];
    var n := Min(3, |context|);
    var i := 0;
    while i < n
      invariant 0 <= i <= n
      invariant |cs| == i && forall j :: 0 <= j < i ==> cs[j] == StreamContextCitation(context[j], j, response)
    {
      cs := cs + [StreamContextCitation(context[i], i, response)];
      i := i + 1;
    }
  }

  /** Marker citations all carry the fixed relevance 0.8. */
  function MarkerDefault(item: Item): real {
    0.8
  }

  /** What `_extract_citations_streaming` returns. */
  function StreamCitations(response: string, context: seq<Item>): seq<Citation> {
    var cs := Cited(InRange(Markers(response), |context|), context, MarkerDefault);
    if cs == [] && context != [] then StreamContextCitations(response, context) else cs
  }

  method ExtractCitationsStreaming(response: string, context: seq<Item>) returns (cs: seq<Citation>)
    ensures cs == StreamCitations(response, context)
  {
    cs := CiteMarkers(Markers(response), context, MarkerDefault);
    if cs == [] && context != [] {
      cs := CreateContextCitationsStreaming(response, context);
    }
  }

  // ---------------------------------------------------------------------
  // Supporting facts and alternatives
  // ---------------------------------------------------------------------

  /** A stripped line `_extract_supporting_facts_streaming` keeps. */
  predicate IsStreamFact(line: string) {
    line != [] && !StartsWith(line, "STEP") && !StartsWith(line, "FINAL ANSWER") &&
    !StartsWith(line, "**") && |line| > 30
  }

  method ExtractSupportingFactsStreaming(response: string) returns (facts: seq<string>)
    ensures facts == StreamFacts(response)
  {
    facts := KeepLines(response, IsStreamFact);
    facts := Take(facts, 5);
  }

  /** The indicator list as written: the first entry is regular-expression
      syntax, but it is looked up as a plain substring. */
  const WrittenPatterns: seq<string> :=
    ["alternative(?:ly)?", "on the other hand", "however", "it could also be", "another interpretation"]

  /** The indicator list as intended: a line with "alternative" (and so
      one with "alternatively") counts. */
  const IntendedPatterns: seq<string> :=
    ["alternative", "on the other hand", "however", "it could also be", "another interpretation"]

  /** `any(pattern in line.lower() for pattern in alt_patterns)` as written. */
  predicate MentionsWritten(line: string) {
    ContainsAny(Lower(line), WrittenPatterns)
  }

  /** The same test with the intended indicators. */
  predicate MentionsAlternative(line: string) {
    ContainsAny(Lower(line), IntendedPatterns)
  }

  /** `_extract_alternatives_streaming` as written: the mentioning lines or,
      when there are none, the domain defaults; at most two. */
  function AlternativesAsWritten(response: string): seq<string> {
    var found := Filter(StrippedLines(response), MentionsWritten);
    Take(if found == [] then DefaultAlternatives(response) else found, 2)
  }

  /** The same with the intended indicators. */
  function StreamAlternatives(response: string): seq<string> {
    var found := Filter(StrippedLines(response), MentionsAlternative);
    Take(if found == [] then DefaultAlternatives(response) else found, 2)
  }

  method ExtractAlternativesStreaming(response: string) returns (alts: seq<string>)
    ensures alts == StreamAlternatives(response)
  {
    alts := KeepLines(response, MentionsAlternative);
    if alts == [] {
      alts := DefaultAlternatives(response);
    }
    alts := Take(alts, 2);
  }

  // ---------------------------------------------------------------------
  // The result object
  // ---------------------------------------------------------------------

  /** The fields of a `StreamingReasoningResult` at one moment (its metadata
      reduced to the error it reports). */
  datatype Snapshot = Snapshot(
    answer: string, chain: seq<string>, confidence: real, citations: seq<Citation>,
    facts: seq<string>, alternatives: seq<string>, currentStep: string, complete: bool,
    error: Option<string>)

  class StreamingResult {
    var answer: string
    var chain: seq<string>
    var confidence: real
    var citations: seq<Citation>
    var facts: seq<string>
    var alternatives: seq<string>
    var currentStep: string
    var complete: bool
    var error: Option<string>

    function View(): Snapshot
      reads this
    {
      Snapshot(answer, chain, confidence, citations, facts, alternatives, currentStep, complete, error)
    }

    constructor (s: Snapshot)
      ensures View() == s
    {
      answer := s.answer;
      chain := s.chain;
      confidence := s.confidence;
      citations := s.citations;
      facts := s.facts;
      alternatives := s.alternatives;
      currentStep := s.currentStep;
      complete := s.complete;
      error := s.error;
    }

    /** Sets every field from `s`. */
    method Load(s: Snapshot)
      modifies this
      ensures View() == s
    {
      answer := s.answer;
      chain := s.chain;
      confidence := s.confidence;
      citations := s.citations;
      facts := s.facts;
      alternatives := s.alternatives;
      currentStep := s.currentStep;
      complete := s.complete;
      error := s.error;
    }
  }

  // ---------------------------------------------------------------------
  // Confidence
  // ---------------------------------------------------------------------

  /** The sum of the citation relevances. */
  function RelevanceSum(cs: seq<Citation>): real {
    if cs == [] then 0.0 else RelevanceSum(cs[..|cs| - 1]) + cs[|cs| - 1].relevance
  }

  /** The score `_calculate_confidence_score` adds up, before the cap. */
  function RawScore(s: Snapshot): real {
    0.3
    + (if s.citations != [] then RealMin(RelevanceSum(s.citations) / |s.citations| as real * 0.25, 0.25) else 0.0)
    + (if s.facts != [] then 0.15 + (if |s.facts| >= 3 then 0.05 else 0.0) else 0.0)
    + (if |s.chain| >= 3 then 0.15 else 0.0)
    + (if |s.answer| > 100 then 0.10 else if |s.answer| > 50 then 0.05 else 0.0)
    + (if s.alternatives != [] then 0.05 else 0.0)
  }

  method CalculateConfidenceScore(s: Snapshot) returns (score: real)
    ensures score == RealMin(RawScore(s), 1.0)
  {
    score := 0.3;
    if s.citations != [] {
      var total := 0.0;
      var i := 0;
      while i < |s.citations|
        invariant 0 <= i <= |s.citations|
        invariant total == RelevanceSum(s.citations[..i])
      {
        assert s.citations[..i + 1][..i] == s.citations[..i];
        total := total + s.citations[i].relevance;
        i := i + 1;
      }
      assert s.citations[..i] == s.citations;
      score := score + RealMin(total / |s.citations| as real * 0.25, 0.25);
    }
    if s.facts != [] {
      score := score + 0.15;
      if |s.facts| >= 3 {
        score := score + 0.05;
      }
    }
    if |s.chain| >= 3 {
      score := score + 0.15;
    }
    if |s.answer| > 100 {
      score := score + 0.10;
    } else if |s.answer| > 50 {
      score := score + 0.05;
    }
    if s.alternatives != [] {
      score := score + 0.05;
    }
    score := RealMin(score, 1.0);
  }

  // ---------------------------------------------------------------------
  // The stream
  // ---------------------------------------------------------------------

  const NoDocumentsAnswer: string := "No relevant documents found to answer the query."

  /** The single result for an empty context. */
  const NoDocuments: Snapshot :=
    Snapshot(NoDocumentsAnswer, ["No document context was retrieved."], 0.0, [], [], [], "", true, None)

  /** A fresh result before the first chunk. */
  const Initial: Snapshot := Snapshot("", [], 0.0, [], [], [], "", false, None)

  const ApiConfigMessage: string :=
    "API configuration required. Please click 'Configure' to set up your API key and endpoint."
  const ConnectionMessage: string :=
    "Connection error. Please check your API endpoint URL and internet connection."

  /** The message shown for a failure with text `error`. */
  function ErrorMessage(error: string): string {
    if Contains(error, "API key") || Contains(error, "not set") then ApiConfigMessage
    else if Contains(error, "Connection error") || Contains(error, "protocol") then ConnectionMessage
    else "Error: " + error
  }

  /** The single result that replaces the stream after a failure. */
  function ErrorResult(error: string): Snapshot {
    var message := ErrorMessage(error);
    Snapshot(message, ["Configuration Error: " + message], 0.0, [], [], [], "", true, Some(error))
  }

  /** A model failure: the generator raises `message` after `after` chunks
      (at or past the last chunk: while the reply is being finished). */
  datatype Failure = Failure(after: nat, message: string)

  /** The reply received so far. */
  function Concat(chunks: seq<string>): string {
    if chunks == [] then "" else Concat(chunks[..|chunks| - 1]) + chunks[|chunks| - 1]
  }

  /** One chunk's update of the result, given the reply so far. */
  function Advance(s: Snapshot, full: string, partialOf: string -> string,
                   chainOf: string -> seq<string>): Snapshot {
    var partial := partialOf(full);
    s.(currentStep := CurrentStep(StrippedLines(full)),
       answer := if partial != [] && partial != s.answer then partial else s.answer,
       chain := chainOf(full))
  }

  /** The result after the chunks `chunks`. */
  function StateAfter(chunks: seq<string>, partialOf: string -> string,
                      chainOf: string -> seq<string>): Snapshot {
    if chunks == [] then Initial
    else Advance(StateAfter(chunks[..|chunks| - 1], partialOf, chainOf), Concat(chunks), partialOf, chainOf)
  }

  /** What the consumer sees at each of the chunks' yields. */
  function Streamed(chunks: seq<string>, partialOf: string -> string,
                    chainOf: string -> seq<string>): (ss: seq<Snapshot>)
    ensures |ss| == |chunks|
  {
    if chunks == [] then []
    else Streamed(chunks[..|chunks| - 1], partialOf, chainOf) + [StateAfter(chunks, partialOf, chainOf)]
  }

  /** The supporting facts of the whole reply. */
  function StreamFacts(full: string): seq<string> {
    Take(Filter(StrippedLines(full), IsStreamFact), 5)
  }

  /** The result with the whole reply's extractions, before scoring. */
  function Extracted(s: Snapshot, full: string, context: seq<Item>, chainOf: string -> seq<string>): Snapshot {
    Snapshot(FinalAnswer(StrippedLines(full)), chainOf(full), s.confidence, StreamCitations(full, context),
             StreamFacts(full), StreamAlternatives(full), s.currentStep, true, s.error)
  }

  /** The result with its confidence score. */
  function Scored(s: Snapshot): Snapshot {
    Snapshot(s.answer, s.chain, RealMin(RawScore(s), 1.0), s.citations, s.facts,
             s.alternatives, s.currentStep, s.complete, s.error)
  }

  /** The final processing of the whole reply `full`: extract, score, then
      render the organised answer from the scored result. */
  function Finished(s: Snapshot, full: string, context: seq<Item>, chainOf: string -> seq<string>,
                    organise: Snapshot -> string): Snapshot {
    var scored := Scored(Extracted(s, full, context, chainOf));
    Snapshot(organise(scored), scored.chain, scored.confidence, scored.citations, scored.facts,
             scored.alternatives, scored.currentStep, scored.complete, scored.error)
  }

  /** Everything `process_query_stream` yields, as seen at each yield. */
  function Yields(context: seq<Item>, chunks: seq<string>, failure: Option<Failure>,
                  partialOf: string -> string, chainOf: string -> seq<string>,
                  organise: Snapshot -> string): seq<Snapshot> {
    if context == [] then [NoDocuments]
    else if failure.Some? then
      Streamed(chunks[..Min(failure.value.after, |chunks|)], partialOf, chainOf) + [ErrorResult(failure.value.message)]
    else
      Streamed(chunks, partialOf, chainOf) +
      [Finished(StateAfter(chunks, partialOf, chainOf), Concat(chunks), context, chainOf, organise)]
  }

  /** The per-chunk update of the result object. */
  method TakeChunk(r: StreamingResult, full: string, partialOf: string -> string, chainOf: string -> seq<string>)
    modifies r
    ensures r.View() == Advance(old(r.View()), full, partialOf, chainOf)
  {
    var step := ExtractCurrentStep(full);
    r.currentStep := step;
    var partial := partialOf(full);
    if partial != [] && partial != r.answer {
      r.answer := partial;
    }
    var chain := chainOf(full);
    if chain != r.chain {
      r.chain := chain;
    }
  }

  /** The extractions run on the whole reply once it has arrived. */
  method ExtractAll(s: Snapshot, full: string, context: seq<Item>, chainOf: string -> seq<string>)
    returns (s1: Snapshot)
    ensures s1 == Extracted(s, full, context, chainOf)
  {
    var answer := ExtractFinalAnswer(full);
    var citations := ExtractCitationsStreaming(full, context);
    var facts := ExtractSupportingFactsStreaming(full);
    var alternatives := ExtractAlternativesStreaming(full);
    s1 := Snapshot(answer, chainOf(full), s.confidence, citations, facts, alternatives, s.currentStep, true, s.error);
  }

  /** The final processing of the whole reply, on values. */
  method FinishReply(s: Snapshot, full: string, context: seq<Item>, chainOf: string -> seq<string>,
                     organise: Snapshot -> string) returns (f: Snapshot)
    ensures f == Finished(s, full, context, chainOf, organise)
  {
    var s1 := ExtractAll(s, full, context, chainOf);
    var confidence := CalculateConfidenceScore(s1);
    var scored := Snapshot(s1.answer, s1.chain, confidence, s1.citations, s1.facts, s1.alternatives,
                           s1.currentStep, true, s1.error);
    f := Snapshot(organise(scored), s1.chain, confidence, s1.citations, s1.facts, s1.alternatives,
                  s1.currentStep, true, s1.error);
  }

  /** The final processing of the result object. */
  method Finish(r: StreamingResult, full: string, context: seq<Item>, chainOf: string -> seq<string>,
                organise: Snapshot -> string)
    modifies r
    ensures r.View() == Finished(old(r.View()), full, context, chainOf, organise)
  {
    var f := FinishReply(r.View(), full, context, chainOf, organise);
    r.Load(f);
  }

  /** One more chunk: the reply grows by it, the result advances once and
      one more result is seen. */
  lemma StreamStep(chunks: seq<string>, i: nat, partialOf: string -> string, chainOf: string -> seq<string>)
    requires i < |chunks|
    ensures Concat(chunks[..i + 1]) == Concat(chunks[..i]) + chunks[i]
    ensures StateAfter(chunks[..i + 1], partialOf, chainOf)
         == Advance(StateAfter(chunks[..i], partialOf, chainOf), Concat(chunks[..i + 1]), partialOf, chainOf)
    ensures Streamed(chunks[..i + 1], partialOf, chainOf)
         == Streamed(chunks[..i], partialOf, chainOf) + [StateAfter(chunks[..i + 1], partialOf, chainOf)]
  {
    assert chunks[..i + 1][..i] == chunks[..i];
  }

  /** The streaming loop over the first `n` chunks: one update of the
      result object per chunk, and what it looked like when yielded. */
  method StreamChunks(r: StreamingResult, chunks: seq<string>, n: nat,
                      partialOf: string -> string, chainOf: string -> seq<string>)
    returns (seen: seq<Snapshot>, full: string)
    requires n <= |chunks| && r.View() == Initial
    modifies r
    ensures full == Concat(chunks[..n])
    ensures r.View() == StateAfter(chunks[..n], partialOf, chainOf)
    ensures seen == Streamed(chunks[..n], partialOf, chainOf)
  {
    seen := [];
    full := "";
    var i := 0;
    while i < n
      invariant 0 <= i <= n
      invariant full == Concat(chunks[..i])
      invariant r.View() == StateAfter(chunks[..i], partialOf, chainOf)
      invariant seen == Streamed(chunks[..i], partialOf, chainOf)
    {
      StreamStep(chunks, i, partialOf, chainOf);
      full := full + chunks[i];
      TakeChunk(r, full, partialOf, chainOf);
      seen := seen + [r.View()];
      i := i + 1;
    }
  }

  /** A stream that completes: every chunk, then the final processing, all
      on one fresh result object, which is yielded every time. */
  method StreamCompleted(context: seq<Item>, chunks: seq<string>, partialOf: string -> string,
                         chainOf: string -> seq<string>, organise: Snapshot -> string)
    returns (r: StreamingResult, seen: seq<Snapshot>)
    ensures seen == Streamed(chunks, partialOf, chainOf) +
      [Finished(StateAfter(chunks, partialOf, chainOf), Concat(chunks), context, chainOf, organise)]
    ensures fresh(r) && r.View() == seen[|seen| - 1]
  {
    r := new StreamingResult(Initial);
    var full;
    seen, full := StreamChunks(r, chunks, |chunks|, partialOf, chainOf);
    assert chunks[..|chunks|] == chunks;
    Finish(r, full, context, chainOf, organise);
    seen := seen + [r.View()];
  }

  /** A stream the model breaks off after `failure.after` chunks: the chunks
      before it on one result object `r`, then a fresh error result `e`. */
  method StreamFailed(chunks: seq<string>, failure: Failure, partialOf: string -> string,
                      chainOf: string -> seq<string>)
    returns (r: StreamingResult, e: StreamingResult, seen: seq<Snapshot>)
    ensures seen == Streamed(chunks[..Min(failure.after, |chunks|)], partialOf, chainOf) +
      [ErrorResult(failure.message)]
    ensures fresh(r) && fresh(e) && r != e && e.View() == seen[|seen| - 1]
  {
    r := new StreamingResult(Initial);
    var full;
    seen, full := StreamChunks(r, chunks, Min(failure.after, |chunks|), partialOf, chainOf);
    e := new StreamingResult(ErrorResult(failure.message));
    seen := seen + [e.View()];
  }

  /** The same object yielded `n` times. */
  method Repeat(r: StreamingResult, n: nat) returns (ys: seq<StreamingResult>)
    ensures |ys| == n && forall k :: 0 <= k < n ==> ys[k] == r
  {
    ys := seq(n, _ => r);
  }

  /** `process_query_stream`. The model's reply arrives as `chunks`;
      `failure` says whether and when the model raises; the partial-answer
      and streaming-chain extractors and the organised-answer rendering are
      the parameters `partialOf`, `chainOf` and `organise`. Returns the
      objects yielded and what each looked like when it was yielded: one
      object serves the whole stream, so after the stream every reference
      shows the final state. */
  method ProcessQueryStream(context: seq<Item>, chunks: seq<string>, failure: Option<Failure>,
                            partialOf: string -> string, chainOf: string -> seq<string>,
                            organise: Snapshot -> string)
    returns (yielded: seq<StreamingResult>, seen: seq<Snapshot>)
    ensures seen == Yields(context, chunks, failure, partialOf, chainOf, organise)
    ensures |yielded| == |seen| && forall k :: 0 <= k < |yielded| ==> fresh(yielded[k])
    ensures yielded[|yielded| - 1].View() == seen[|seen| - 1]
    ensures context != [] && failure.None? ==> forall k :: 0 <= k < |yielded| ==> yielded[k] == yielded[|yielded| - 1]
    ensures context != [] && failure.Some? ==> forall k :: 0 <= k < |yielded| - 1 ==> yielded[k] != yielded[|yielded| - 1]
  {
    if context == [] {
      var r := new StreamingResult(NoDocuments);
      yielded, seen := [r], [NoDocuments];
    } else if failure.Some? {
      var r, e;
      r, e, seen := StreamFailed(chunks, failure.value, partialOf, chainOf);
      yielded := Repeat(r, |seen| - 1);
      yielded := yielded + [e];
    } else {
      var r;
      r, seen := StreamCompleted(context, chunks, partialOf, chainOf, organise);
      yielded := Repeat(r, |seen|);
    }
  }
}
