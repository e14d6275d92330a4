/** What the reasoning engine's rule-based helpers promise: first-match
    classification and what it shadows, the shape of the generated chain,
    markers read back as written, citation bounds, extraction limits,
    confidence bounds and the de-duplicated source list. */
module ReasoningFacts {
  import opened Wrappers
  import opened Text
  import opened Lines
  import opened Reasoning

  // ---------------------------------------------------------------------
  // Classification

  /** Categories are tried in order, so a query with "how many" is taken
      by "factual" or by "analytical" (through "how") and never reaches
      "numerical". */
  lemma HowManyIsNeverNumerical(query: string)
    requires Contains(Lower(query), "how many")
    ensures QuestionType(query) == "factual" || QuestionType(query) == "analytical"
  {
    assert "how" + " many" == "how many";
    ContainsPrefix(Lower(query), "how", " many");
    assert ContainsAny(Lower(query), QuestionKeywords[1]) by {
      assert QuestionKeywords[1][0] == "how";
    }
  }

  /** "compare" is an analytical keyword as well, so a query with it is
      never classified "comparative". */
  lemma CompareIsNeverComparative(query: string)
    requires Contains(Lower(query), "compare")
    ensures QuestionType(query) == "factual" || QuestionType(query) == "analytical"
  {
    assert ContainsAny(Lower(query), QuestionKeywords[1]) by {
      assert QuestionKeywords[1][4] == "compare";
    }
  }

  /** "when" is a factual keyword, so a query with it is never "temporal". */
  lemma WhenIsFactual(query: string)
    requires Contains(Lower(query), "when")
    ensures QuestionType(query) == "factual"
  {
    assert ContainsAny(Lower(query), QuestionKeywords[0]) by {
      assert QuestionKeywords[0][2] == "when";
    }
  }

  // ---------------------------------------------------------------------
  // The generated chain

  /** The chain has six steps exactly for analytical, comparative and
      numerical questions; taking out the inserted fourth step gives back
      the five base steps, which the other question types get unchanged. */
  lemma ReasoningChainShape(questionType: string, contextCount: int)
    ensures var chain := ReasoningChain(questionType, contextCount);
      var base := BaseChain(questionType, contextCount);
      (|chain| == 6 <==> questionType in {"analytical", "comparative", "numerical"}) &&
      (|chain| == 6 ==> chain[..3] + chain[4..] == base && chain[3] == ExtraStep(questionType).value) &&
      (|chain| == 5 ==> chain == base)
  {
    var chain := ReasoningChain(questionType, contextCount);
    var base := BaseChain(questionType, contextCount);
    if ExtraStep(questionType).Some? {
      assert chain[..3] == base[..3] && chain[4..] == base[3..];
      assert base[..3] + base[3..] == base;
    }
  }

  // ---------------------------------------------------------------------
  // Markers

  /** The marker text for the numbers `ns`: "[n1][n2]...". */
  function Rendered(ns: seq<nat>): string {
    if ns == [] then "" else "[" + DigitString(ns[0]) + "]" + Rendered(ns[1..])
  }

  lemma {:induction false} DigitStringDigits(n: nat)
    ensures forall i :: 0 <= i < |DigitString(n)| ==> IsDigit(DigitString(n)[i])
    ensures DigitsValue(DigitString(n)) == n
    decreases n
  {
    if n >= 10 {
      DigitStringDigits(n / 10);
      var s := DigitString(n);
      assert s[..|s| - 1] == DigitString(n / 10);
    }
  }

  lemma {:induction false} DigitRunStops(digits: string, rest: string)
    requires forall i :: 0 <= i < |digits| ==> IsDigit(digits[i])
    requires rest != [] && !IsDigit(rest[0])
    ensures DigitRun(digits + rest) == |digits|
    decreases |digits|
  {
    if digits != [] {
      assert (digits + rest)[1..] == digits[1..] + rest;
      DigitRunStops(digits[1..], rest);
    } else {
      assert digits + rest == rest;
    }
  }

  /** Reading the markers back from the text "[n1][n2]..." gives the numbers
      written, so every citation marker the prompt asks for is recognised. */
  lemma {:induction false} MarkersRoundTrip(ns: seq<nat>)
    ensures Markers(Rendered(ns)) == ns
    decreases |ns|
  {
    if ns != [] {
      var d := DigitString(ns[0]);
      var rest := Rendered(ns[1..]);
      var s := Rendered(ns);
      DigitStringDigits(ns[0]);
      assert s == "[" + d + "]" + rest;
      assert s[1..] == d + ("]" + rest);
      DigitRunStops(d, "]" + rest);
      assert s[1..|d| + 1] == d;
      assert s[|d| + 2..] == rest;
      MarkersRoundTrip(ns[1..]);
    }
  }

  // ---------------------------------------------------------------------
  // Citations

  /** A marker is kept exactly when it names a context item. */
  lemma {:induction false} InRangeMembers(ms: seq<nat>, count: nat)
    ensures forall m :: m in InRange(ms, count) <==> m in ms && 1 <= m <= count
  {
    if ms != [] {
      InRangeMembers(ms[..|ms| - 1], count);
      assert ms == ms[..|ms| - 1] + [ms[|ms| - 1]];
    }
  }

  /** Citations follow the in-range markers one for one, in order and with
      repeats, each quoting the item its marker names; with no such marker
      the first (at most three) items are cited instead, each with a
      relevance of at most 1.0, and an empty context cites nothing. */
  lemma CitationsFacts(response: string, context: seq<Item>)
    ensures var picked := InRange(Markers(response), |context|);
      var cs := Citations(response, context);
      (picked != [] ==>
        |cs| == |picked| &&
        forall i :: 0 <= i < |cs| ==>
          var item := context[picked[i] - 1];
          cs[i] == Citation(OrElse(item.file, "Unknown"), item.page, Snippet(item.text), MarkerRelevance(item))) &&
      (picked == [] ==>
        |cs| == Min(3, |context|) &&
        forall i :: 0 <= i < |cs| ==>
          cs[i].file == OrElse(context[i].file, "Document " + IntToString(i + 1)) &&
          cs[i].relevance <= 1.0 && cs[i].text == Snippet(context[i].text))
  {
  }

  // ---------------------------------------------------------------------
  // Extraction limits

  /** Supporting facts: at most three, each a stripped reply line that
      qualifies, the first qualifying lines in reply order. */
  lemma SupportingFactsFacts(response: string)
    ensures var facts := Take(Filter(StrippedLines(response), IsFact), 3);
      |facts| <= 3 &&
      (forall i :: 0 <= i < |facts| ==> IsFact(facts[i]) && facts[i] in StrippedLines(response)) &&
      facts == Filter(StrippedLines(response), IsFact)[..|facts|]
  {
    var all := Filter(StrippedLines(response), IsFact);
    FilterMembers(StrippedLines(response), IsFact);
    forall i | 0 <= i < Min(3, |all|)
      ensures IsFact(all[i]) && all[i] in StrippedLines(response)
    {
      assert all[i] in all;
    }
  }

  /** Alternatives: at most two, each a non-empty line that follows the
      first signalling line and does not signal itself. */
  lemma AlternativesFacts(response: string)
    ensures var ls := StrippedLines(response);
      var alts := Take(AlternativesIn(ls), 2);
      var f := FirstIndex(ls, Signals);
      |alts| <= 2 &&
      (f == |ls| ==> alts == []) &&
      forall i :: 0 <= i < |alts| ==> alts[i] != [] && !Signals(alts[i]) && alts[i] in ls[f + 1..]
  {
    var ls := StrippedLines(response);
    var f := FirstIndex(ls, Signals);
    if f < |ls| {
      var all := Filter(ls[f + 1..], Follows);
      FilterMembers(ls[f + 1..], Follows);
      forall i | 0 <= i < Min(2, |all|)
        ensures all[i] != [] && !Signals(all[i]) && all[i] in ls[f + 1..]
      {
        assert all[i] in all;
      }
    }
  }

  /** A step header stays a step header whatever follows it. */
  lemma HeaderExtends(h: string, rest: string)
    requires IsStepHeader(h)
    ensures IsStepHeader(h + rest)
  {
    assert Upper(h + rest)[..5] == Upper(h)[..5];
    assert Upper(h + rest)[5] == Upper(h)[5];
  }

  /** Every step read from the reply starts with its step header. */
  lemma {:induction false} StepsAreHeaded(ls: seq<string>, current: Option<string>, content: seq<string>)
    requires current.Some? ==> IsStepHeader(current.value)
    ensures forall e :: e in StepsFrom(ls, current, content) ==> IsStepHeader(e)
    decreases |ls|
  {
    if current.Some? {
      HeaderExtends(current.value, ": " + Join(" ", content));
      assert current.value + ": " + Join(" ", content) == current.value + (": " + Join(" ", content));
    }
    if ls != [] {
      var line := ls[0];
      if line == [] {
        StepsAreHeaded(ls[1..], current, content);
      } else if IsStepHeader(line) {
        StepsAreHeaded(ls[1..], Some(line), []);
      } else if IsFinalLine(line) {
      } else if current.Some? {
        var cleaned := Unbullet(line);
        var content' := if cleaned != [] && !StartsWith(cleaned, "STEP") then content + [cleaned] else content;
        StepsAreHeaded(ls[1..], current, content');
        if current.Some? {
          HeaderExtends(current.value, ": " + Join(" ", content'));
          assert current.value + ": " + Join(" ", content') == current.value + (": " + Join(" ", content'));
        }
      } else {
        StepsAreHeaded(ls[1..], current, content);
      }
    }
  }

  /** The extracted chain has between one and five steps; either each is
      headed by a "STEP n" line of the reply, or the reply had none and the
      chain is the explicit four-step fallback. */
  lemma ReasoningChainFacts(response: string)
    ensures var chain := Take(ReplySteps(response), 5);
      1 <= |chain| <= 5 &&
      (chain == ExplicitSteps(response) ||
       forall i :: 0 <= i < |chain| ==> IsStepHeader(chain[i]))
  {
    var steps := StepsFrom(StrippedLines(response), None, []);
    StepsAreHeaded(StrippedLines(response), None, []);
    if steps != [] {
      forall i | 0 <= i < Min(5, |steps|) ensures IsStepHeader(steps[i]) {
        assert steps[i] in steps;
      }
    }
  }

  // ---------------------------------------------------------------------
  // Confidence

  ghost predicate SimilaritiesNonNegative(context: seq<Item>) {
    forall i :: 0 <= i < |context| && context[i].similarity.Some? ==> context[i].similarity.value >= 0.0
  }

  lemma {:induction false} SimilaritySumNonNegative(context: seq<Item>)
    requires SimilaritiesNonNegative(context)
    ensures SimilaritySum(context) >= 0.0
  {
    if context != [] {
      SimilaritySumNonNegative(context[..|context| - 1]);
    }
  }

  /** Confidence never exceeds 1.0, and with non-negative similarity
      scores it is at least the 0.5 it starts from. */
  lemma ConfidenceBounds(result: Answer, context: seq<Item>, entityTypes: nat)
    ensures RealMin(1.0, RawConfidence(result, context, entityTypes)) <= 1.0
    ensures SimilaritiesNonNegative(context) ==>
      RealMin(1.0, RawConfidence(result, context, entityTypes)) >= 0.5
  {
    if SimilaritiesNonNegative(context) && context != [] {
      SimilaritySumNonNegative(context);
      assert SimilaritySum(context) / |context| as real >= 0.0;
    }
  }

  /** The error fallback scores below every computed answer whose
      similarity scores are non-negative, and reports the error it got. */
  lemma FallbackRanksLast(error: string, device: string, result: Answer, context: seq<Item>, entityTypes: nat)
    requires SimilaritiesNonNegative(context)
    ensures FallbackResult(error, device).confidence < RealMin(1.0, RawConfidence(result, context, entityTypes))
    ensures FallbackResult(error, device).origin == Fallback(error, device)
    ensures EndsWithError(FallbackResult(error, device).answer, error)
  {
    ConfidenceBounds(result, context, entityTypes);
  }

  predicate EndsWithError(answer: string, error: string) {
    |error| <= |answer| && answer[|answer| - |error|..] == error
  }

  // ---------------------------------------------------------------------
  // The source list

  /** The files of the entries. */
  function Files(u: seq<Source>): set<string> {
    set i | 0 <= i < |u| :: u[i].file
  }

  /** The files the citations name. */
  function CitedFiles(cs: seq<Citation>): set<string> {
    set k | 0 <= k < |cs| :: cs[k].file
  }

  ghost predicate DistinctFiles(u: seq<Source>) {
    forall i, j :: 0 <= i < j < |u| ==> u[i].file != u[j].file
  }

  /** The position of the first citation of `file`. */
  function FirstCitation(cs: seq<Citation>, file: string): (k: nat)
    ensures k <= |cs|
    ensures k < |cs| ==> cs[k].file == file
    ensures forall j :: 0 <= j < k ==> cs[j].file != file
  {
    if cs == [] then 0
    else if cs[0].file == file then 0
    else 1 + FirstCitation(cs[1..], file)
  }

  /** `s` carries the page and relevance of the first citation of its file
      that has the highest relevance. */
  ghost predicate FirstBest(cs: seq<Citation>, s: Source) {
    (forall k :: 0 <= k < |cs| && cs[k].file == s.file ==> cs[k].relevance <= s.relevance) &&
    exists k :: 0 <= k < |cs| && cs[k].file == s.file && cs[k].page == s.page && cs[k].relevance == s.relevance &&
      forall j :: 0 <= j < k && cs[j].file == s.file ==> cs[j].relevance < s.relevance
  }

  /** What the de-duplicated list promises about the citations `cs`. */
  ghost predicate SourcesOf(cs: seq<Citation>, u: seq<Source>) {
    DistinctFiles(u) && Files(u) == CitedFiles(cs) &&
    (forall i, j :: 0 <= i < j < |u| ==> FirstCitation(cs, u[i].file) < FirstCitation(cs, u[j].file)) &&
    (forall i :: 0 <= i < |u| ==> FirstBest(cs, u[i]))
  }

  lemma CitedFilesAppend(cs: seq<Citation>, c: Citation)
    ensures CitedFiles(cs + [c]) == CitedFiles(cs) + {c.file}
  {
    var cs' := cs + [c];
    forall f | f in CitedFiles(cs') ensures f in CitedFiles(cs) + {c.file} {
      var k :| 0 <= k < |cs'| && cs'[k].file == f;
      if k < |cs| { assert cs[k] == cs'[k]; }
    }
    forall f | f in CitedFiles(cs) ensures f in CitedFiles(cs') {
      var k :| 0 <= k < |cs| && cs[k].file == f;
      assert cs'[k] == cs[k];
    }
    assert cs'[|cs|] == c;
  }

  lemma FilesAppend(u: seq<Source>, s: Source)
    ensures Files(u + [s]) == Files(u) + {s.file}
  {
    var u' := u + [s];
    forall f | f in Files(u') ensures f in Files(u) + {s.file} {
      var i :| 0 <= i < |u'| && u'[i].file == f;
      if i < |u| { assert u'[i] == u[i]; }
    }
    forall f | f in Files(u) ensures f in Files(u') {
      var i :| 0 <= i < |u| && u[i].file == f;
      assert u'[i] == u[i];
    }
    assert u'[|u|] == s;
  }

  lemma {:induction false} FirstCitationAppend(cs: seq<Citation>, c: Citation, file: string)
    requires file in CitedFiles(cs)
    ensures FirstCitation(cs + [c], file) == FirstCitation(cs, file)
    decreases |cs|
  {
    assert (cs + [c])[0] == cs[0];
    if cs[0].file != file {
      var k :| 0 <= k < |cs| && cs[k].file == file;
      assert cs[1..][k - 1] == cs[k];
      assert file in CitedFiles(cs[1..]);
      assert (cs + [c])[1..] == cs[1..] + [c];
      FirstCitationAppend(cs[1..], c, file);
    }
  }

  lemma FirstCitationNew(cs: seq<Citation>, c: Citation)
    requires c.file !in CitedFiles(cs)
    ensures FirstCitation(cs + [c], c.file) == |cs|
  {
    var cs' := cs + [c];
    assert cs'[|cs|] == c;
    forall j | 0 <= j < |cs| ensures cs'[j].file != c.file {
      assert cs'[j] == cs[j];
      assert cs[j].file in CitedFiles(cs);
    }
  }

  /** An entry stays first-best when the new citation is for another file
      or is not more relevant. */
  lemma FirstBestKept(cs: seq<Citation>, c: Citation, s: Source)
    requires FirstBest(cs, s)
    requires c.file != s.file || c.relevance <= s.relevance
    ensures FirstBest(cs + [c], s)
  {
    var cs' := cs + [c];
    var k :| 0 <= k < |cs| && cs[k].file == s.file && cs[k].page == s.page && cs[k].relevance == s.relevance &&
      forall j :: 0 <= j < k && cs[j].file == s.file ==> cs[j].relevance < s.relevance;
    assert cs'[k] == cs[k];
    forall j | 0 <= j < |cs'| && cs'[j].file == s.file ensures cs'[j].relevance <= s.relevance {
      if j < |cs| { assert cs'[j] == cs[j]; }
    }
    forall j | 0 <= j < k && cs'[j].file == s.file ensures cs'[j].relevance < s.relevance {
      assert cs'[j] == cs[j];
    }
  }

  /** A citation more relevant than every earlier one of its file is the
      first-best one. */
  lemma FirstBestNew(cs: seq<Citation>, c: Citation)
    requires forall k :: 0 <= k < |cs| && cs[k].file == c.file ==> cs[k].relevance < c.relevance
    ensures FirstBest(cs + [c], Source(c.file, c.page, c.relevance))
  {
    var cs' := cs + [c];
    assert cs'[|cs|] == c;
    forall j | 0 <= j < |cs'| && cs'[j].file == c.file ensures cs'[j].relevance <= c.relevance {
      if j < |cs| { assert cs'[j] == cs[j]; }
    }
    forall j | 0 <= j < |cs| && cs'[j].file == c.file ensures cs'[j].relevance < c.relevance {
      assert cs'[j] == cs[j];
    }
  }

  /** A citation of a new file is added at the end. */
  lemma UpsertNew(cs: seq<Citation>, u: seq<Source>, c: Citation)
    requires SourcesOf(cs, u) && c.file !in Files(u)
    ensures SourcesOf(cs + [c], u + [Source(c.file, c.page, c.relevance)])
  {
    var s := Source(c.file, c.page, c.relevance);
    CitedFilesAppend(cs, c);
    FilesAppend(u, s);
    UpsertNewDistinct(u, s);
    UpsertNewOrder(cs, u, c);
    UpsertNewBest(cs, u, c);
  }

  lemma UpsertNewDistinct(u: seq<Source>, s: Source)
    requires DistinctFiles(u) && s.file !in Files(u)
    ensures DistinctFiles(u + [s])
  {
    var u' := u + [s];
    assert forall i :: 0 <= i < |u| ==> u'[i] == u[i];
    assert u'[|u|] == s;
    forall i | 0 <= i < |u| ensures u[i].file in Files(u) {}
  }

  lemma UpsertNewOrder(cs: seq<Citation>, u: seq<Source>, c: Citation)
    requires SourcesOf(cs, u) && c.file !in Files(u)
    ensures var u' := u + [Source(c.file, c.page, c.relevance)];
      forall i, j :: 0 <= i < j < |u'| ==> FirstCitation(cs + [c], u'[i].file) < FirstCitation(cs + [c], u'[j].file)
  {
    var cs' := cs + [c];
    var u' := u + [Source(c.file, c.page, c.relevance)];
    FirstCitationNew(cs, c);
    forall i | 0 <= i < |u| ensures FirstCitation(cs', u[i].file) == FirstCitation(cs, u[i].file) < |cs| {
      assert u[i].file in Files(u);
      FirstCitationAppend(cs, c, u[i].file);
    }
    assert forall i :: 0 <= i < |u| ==> u'[i] == u[i];
    assert u'[|u|].file == c.file;
  }

  lemma UpsertNewBest(cs: seq<Citation>, u: seq<Source>, c: Citation)
    requires SourcesOf(cs, u) && c.file !in Files(u)
    ensures var u' := u + [Source(c.file, c.page, c.relevance)];
      forall i :: 0 <= i < |u'| ==> FirstBest(cs + [c], u'[i])
  {
    var cs' := cs + [c];
    var u' := u + [Source(c.file, c.page, c.relevance)];
    forall k | 0 <= k < |cs| ensures cs[k].file != c.file {
      assert cs[k].file in CitedFiles(cs);
    }
    FirstBestNew(cs, c);
    forall i | 0 <= i < |u| ensures FirstBest(cs', u[i]) {
      assert u[i].file in Files(u);
      FirstBestKept(cs, c, u[i]);
    }
    assert forall i :: 0 <= i < |u| ==> u'[i] == u[i];
    assert u'[|u|] == Source(c.file, c.page, c.relevance);
  }

  /** After a citation of a known file, a list with the same files in the
      same places still has distinct files, the cited files, and their
      order of first citation. */
  lemma KnownFiles(cs: seq<Citation>, u: seq<Source>, u': seq<Source>, c: Citation)
    requires SourcesOf(cs, u) && c.file in Files(u)
    requires |u'| == |u| && forall i :: 0 <= i < |u| ==> u'[i].file == u[i].file
    ensures DistinctFiles(u') && Files(u') == CitedFiles(cs + [c])
    ensures forall i, j :: 0 <= i < j < |u'| ==> FirstCitation(cs + [c], u'[i].file) < FirstCitation(cs + [c], u'[j].file)
  {
    CitedFilesAppend(cs, c);
    assert Files(u') == Files(u);
    forall i | 0 <= i < |u| ensures FirstCitation(cs + [c], u[i].file) == FirstCitation(cs, u[i].file) {
      assert u[i].file in Files(u);
      FirstCitationAppend(cs, c, u[i].file);
    }
  }

  /** A citation of a known file that is more relevant replaces its entry
      in place. */
  lemma UpsertReplace(cs: seq<Citation>, u: seq<Source>, c: Citation, idx: nat)
    requires SourcesOf(cs, u) && idx < |u| && u[idx].file == c.file
    requires c.relevance > u[idx].relevance
    ensures SourcesOf(cs + [c], u[idx := Source(c.file, c.page, c.relevance)])
  {
    var u' := u[idx := Source(c.file, c.page, c.relevance)];
    assert u[idx].file in Files(u);
    KnownFiles(cs, u, u', c);
    forall i | 0 <= i < |u| && i != idx ensures FirstBest(cs + [c], u[i]) {
      FirstBestKept(cs, c, u[i]);
    }
    assert FirstBest(cs, u[idx]);
    FirstBestNew(cs, c);
  }

  /** A citation of a known file that is not more relevant changes nothing. */
  lemma UpsertKeep(cs: seq<Citation>, u: seq<Source>, c: Citation, idx: nat)
    requires SourcesOf(cs, u) && idx < |u| && u[idx].file == c.file
    requires c.relevance <= u[idx].relevance
    ensures SourcesOf(cs + [c], u)
  {
    assert u[idx].file in Files(u);
    KnownFiles(cs, u, u, c);
    forall i | 0 <= i < |u| ensures FirstBest(cs + [c], u[i]) {
      FirstBestKept(cs, c, u[i]);
    }
  }

  /** The de-duplicated sources: one entry per cited file and no other,
      in the order the files are first cited, each with the page and
      relevance of the first citation of its file that has the highest
      relevance (a later citation wins only when strictly more relevant). */
  lemma {:induction false} UniqueSourcesFacts(cs: seq<Citation>)
    ensures SourcesOf(cs, UniqueSources(cs))
  {
    if cs != [] {
      var init := cs[..|cs| - 1];
      var c := cs[|cs| - 1];
      var u := UniqueSources(init);
      UniqueSourcesFacts(init);
      assert init + [c] == cs;
      var idx := IndexOfFile(u, c.file);
      if idx == |u| {
        UpsertNew(init, u, c);
      } else {
        if c.relevance > u[idx].relevance {
          UpsertReplace(init, u, c, idx);
        } else {
          UpsertKeep(init, u, c, idx);
        }
      }
    }
  }

  /** Entries with distinct files are as many as their files. */
  lemma {:induction false} DistinctCount(u: seq<Source>)
    requires DistinctFiles(u)
    ensures |Files(u)| == |u|
    decreases |u|
  {
    if u != [] {
      var init := u[..|u| - 1];
      DistinctCount(init);
      assert init + [u[|u| - 1]] == u;
      FilesAppend(init, u[|u| - 1]);
      assert u[|u| - 1].file !in Files(init);
    }
  }

  lemma {:induction false} SourceLinesAt(sources: seq<Source>, link: string -> string, i: nat)
    requires i < |sources|
    ensures SourceLines(sources, link)[i] == SourceLine(i + 1, sources[i], link)
    decreases |sources|
  {
    if i < |sources| - 1 {
      SourceLinesAt(sources[..|sources| - 1], link, i);
    }
  }

  lemma StartsWithAppend(x: string, y: string, p: string)
    requires StartsWith(x, p)
    ensures StartsWith(x + y, p)
  {
    assert (x + y)[..|p|] == x[..|p|];
  }

  lemma SourceLineNumbered(n: nat, s: Source, link: string -> string)
    ensures StartsWith(SourceLine(n, s, link), "[" + IntToString(n) + "] ")
  {
    var p := "[" + IntToString(n) + "] ";
    var head := p + "<span style='font-weight: bold; color: #2c3e50;'>";
    StartsWithAppend(p, "<span style='font-weight: bold; color: #2c3e50;'>", p);
    var l1 := head + FileName(s.file);
    StartsWithAppend(head, FileName(s.file), p);
    var l2 := l1 + "</span> • page ";
    StartsWithAppend(l1, "</span> • page ", p);
    var l3 := l2 + PageText(s.page);
    StartsWithAppend(l2, PageText(s.page), p);
    var l4 := l3 + " • ";
    StartsWithAppend(l3, " • ", p);
    StartsWithAppend(l4, OpenLink(s.file, link), p);
  }

  /** One source line per distinct cited file. */
  lemma SourceCount(cs: seq<Citation>)
    ensures |UniqueSources(cs)| == |CitedFiles(cs)|
  {
    UniqueSourcesFacts(cs);
    DistinctCount(UniqueSources(cs));
  }

  /** The `i`-th source line is numbered `[i]`. */
  lemma SourceLinesNumbered(u: seq<Source>, link: string -> string)
    ensures forall i :: 0 <= i < |u| ==> StartsWith(SourceLines(u, link)[i], "[" + IntToString(i + 1) + "] ")
  {
    forall i | 0 <= i < |u| ensures StartsWith(SourceLines(u, link)[i], "[" + IntToString(i + 1) + "] ") {
      SourceLinesAt(u, link, i);
      SourceLineNumbered(i + 1, u[i], link);
    }
  }

  /** Without citations the answer comes back unchanged; otherwise the
      answer is followed by the "Sources:" header and one line per distinct
      cited file, the `i`-th numbered `[i]`. */
  lemma FormattedFacts(answer: string, cs: seq<Citation>, link: string -> string)
    ensures cs == [] ==> Formatted(answer, cs, link) == answer
    ensures cs != [] ==>
      var lines := SourceLines(UniqueSources(cs), link);
      Formatted(answer, cs, link) == answer + SourcesHeader + Join("<br>", lines) &&
      |lines| == |CitedFiles(cs)| &&
      forall i :: 0 <= i < |lines| ==> StartsWith(lines[i], "[" + IntToString(i + 1) + "] ")
  {
    if cs != [] {
      SourceCount(cs);
      SourceLinesNumbered(UniqueSources(cs), link);
    }
  }
}
