/** The rule-based side of the reasoning engine (`ReasoningEngine` in
    src/reasoning.py): it classifies the question, builds the fixed reasoning
    chain, maps `[n]` markers in the model's reply to context items, pulls
    facts, alternatives and steps out of the reply, scores confidence and
    renders the de-duplicated source list. The LLM call itself is an input. */
module Reasoning {
  import opened Wrappers
  import opened Text
  import opened Lines

  /** One retrieved context item as the engine reads it with `dict.get`:
      a missing key is `None` (the text defaults to ""). */
  datatype Item = Item(file: Option<string>, page: Option<int>, text: string, similarity: Option<real>)

  /** A `SourceCitation`. */
  datatype Citation = Citation(file: string, page: Option<int>, text: string, relevance: real)

  /** How a result came about: computed from a reply, or the error fallback
      with its `error`, `device_used` and `fallback: True` metadata. */
  datatype Origin = Computed | Fallback(error: string, device: string)

  /** A `ReasoningResult`. */
  datatype Answer = Answer(answer: string, chain: seq<string>, confidence: real,
                           citations: seq<Citation>, facts: seq<string>,
                           alternatives: seq<string>, origin: Origin)

  function RealMin(a: real, b: real): real {
    if a <= b then a else b
  }

  function RealMax(a: real, b: real): real {
    if a >= b then a else b
  }

  function OrElse(o: Option<string>, d: string): string {
    if o.Some? then o.value else d
  }

  // ---------------------------------------------------------------------
  // First-match classification (question type, domain)
  // ---------------------------------------------------------------------

  /** The index of the first keyword list one of whose keywords occurs in
      `text`, or `|table|` when none does. */
  function FirstMatch(text: string, table: seq<seq<string>>): (i: nat)
    ensures i <= |table|
    ensures i < |table| ==> ContainsAny(text, table[i])
    ensures forall j :: 0 <= j < i ==> !ContainsAny(text, table[j])
  {
    if table == [] then 0
    else if ContainsAny(text, table[0]) then 0
    else
      var i := FirstMatch(text, table[1..]);
      assert forall j :: 1 <= j < i + 1 ==> table[j] == table[1..][j - 1];
      i + 1
  }

  const QuestionTypes: seq<string> :=
    ["factual", "analytical", "comparative", "numerical", "temporal"]

  const QuestionKeywords: seq<seq<string>> := [
    ["what", "who", "when", "where", "which"],
    ["how", "why", "explain", "analyze", "compare"],
    ["compare", "contrast", "difference", "similarity"],
    ["how many", "how much", "count", "number", "percentage"],
    ["when", "before", "after", "during", "timeline"]
  ]

  /** `_identify_question_type`: the first category, in declaration order,
      with a keyword in the lower-cased query; "general" when none has. */
  function QuestionType(query: string): (t: string)
    ensures t == "general" <==>
      forall j :: 0 <= j < |QuestionKeywords| ==> !ContainsAny(Lower(query), QuestionKeywords[j])
    ensures forall j :: 0 <= j < |QuestionTypes| && t == QuestionTypes[j] ==>
      ContainsAny(Lower(query), QuestionKeywords[j]) &&
      forall k :: 0 <= k < j ==> !ContainsAny(Lower(query), QuestionKeywords[k])
  {
    var i := FirstMatch(Lower(query), QuestionKeywords);
    if i < |QuestionTypes| then QuestionTypes[i] else "general"
  }

  const Domains: seq<string> :=
    ["education", "technology", "customer_support", "business", "legal", "medical"]

  const DomainKeywords: seq<seq<string>> := [
    ["classroom", "teaching", "learning", "education", "student", "teacher", "pedagogy", "curriculum", "instruction"],
    ["software", "system", "application", "database", "api", "code", "programming", "technical", "server", "network"],
    ["customer", "support", "help", "ticket", "issue", "problem", "service", "assistance", "resolution"],
    ["business", "company", "organization", "management", "strategy", "process", "workflow", "operations"],
    ["legal", "law", "regulation", "compliance", "contract", "agreement", "policy", "rights", "liability"],
    ["medical", "health", "patient", "treatment", "diagnosis", "therapy", "clinical", "healthcare", "medicine"]
  ]

  /** `_detect_domain`: the first domain, in the fixed order, with a keyword
      in the lower-cased text; "general" when none has. */
  function DetectDomain(text: string): (d: string)
    ensures d == "general" <==>
      forall j :: 0 <= j < |DomainKeywords| ==> !ContainsAny(Lower(text), DomainKeywords[j])
    ensures forall j :: 0 <= j < |Domains| && d == Domains[j] ==>
      ContainsAny(Lower(text), DomainKeywords[j]) &&
      forall k :: 0 <= k < j ==> !ContainsAny(Lower(text), DomainKeywords[k])
  {
    var i := FirstMatch(Lower(text), DomainKeywords);
    if i < |Domains| then Domains[i] else "general"
  }

  /** The two stock perspectives offered for a domain. */
  function AlternativesFor(domain: string): seq<string> {
    match domain
    case "education" => [
      "Some traditional perspectives emphasize structured, teacher-directed approaches, while others advocate for more flexible, student-centered methodologies.",
      "Different educational philosophies may prioritize different outcomes, such as academic achievement versus holistic development or individual growth versus standardized benchmarks."]
    case "technology" => [
      "Some approaches favor established, proven technologies and methodologies, while others prioritize cutting-edge solutions and rapid innovation.",
      "Different organizations may emphasize different priorities, such as security and stability versus agility and rapid deployment."]
    case "customer_support" => [
      "Some support strategies focus on quick resolution and efficiency, while others prioritize comprehensive understanding and relationship building.",
      "Different support philosophies may emphasize self-service options versus personalized assistance, or reactive support versus proactive guidance."]
    case "business" => [
      "Some business approaches emphasize traditional, hierarchical structures and processes, while others favor agile, collaborative methodologies.",
      "Different business philosophies may prioritize different metrics, such as short-term profitability versus long-term sustainability or growth."]
    case "legal" => [
      "Some legal interpretations may emphasize strict adherence to established precedents, while others consider evolving societal norms and contemporary applications.",
      "Different jurisdictions or legal traditions may approach similar issues with varying frameworks and considerations."]
    case "medical" => [
      "Some medical approaches may emphasize evidence-based, standardized protocols, while others consider individualized treatment plans and patient-specific factors.",
      "Different medical specialties or schools of thought may prioritize different aspects of care, such as symptom management versus root cause treatment."]
    case _ => [
      "Some approaches may emphasize established, traditional methods and practices, while others favor innovative, contemporary solutions.",
      "Different perspectives may prioritize different aspects, such as efficiency and standardization versus customization and flexibility."]
  }

  /** `_generate_default_alternatives`: the stock perspectives for the
      domain the text belongs to. */
  function DefaultAlternatives(text: string): seq<string> {
    AlternativesFor(DetectDomain(text))
  }

  // ---------------------------------------------------------------------
  // The generated reasoning chain
  // ---------------------------------------------------------------------

  /** The five steps every generated chain has. */
  function BaseChain(questionType: string, contextCount: int): (chain: seq<string>)
    ensures |chain| == 5
  {
    ["1. Identified question type as '" + questionType + "'",
     "2. Retrieved " + IntToString(contextCount) + " relevant passages from documents",
     "3. Extracted key entities and facts from sources",
     "4. Applied logical inference and cross-referencing",
     "5. Synthesized information into coherent answer"]
  }

  /** The step inserted for analytical, comparative and numerical questions. */
  function ExtraStep(questionType: string): Option<string> {
    if questionType == "analytical" then Some("3a. Analyzed cause-and-effect relationships")
    else if questionType == "comparative" then Some("3a. Compared and contrasted information")
    else if questionType == "numerical" then Some("3a. Validated numerical data consistency")
    else None
  }

  /** `_generate_reasoning_chain`: the base chain, with the extra step put
      at index 3 (`list.insert(3, ...)`) when the question type has one. */
  function ReasoningChain(questionType: string, contextCount: int): (chain: seq<string>)
    ensures |chain| == 5 || |chain| == 6
  {
    var base := BaseChain(questionType, contextCount);
    match ExtraStep(questionType)
    case None => base
    case Some(step) => base[..3] + [step] + base[3..]
  }

  // ---------------------------------------------------------------------
  // Citation markers and citations
  // ---------------------------------------------------------------------

  /** The length of the run `\d+` matches at the start of `s`, for the
      digits `IsDigit` accepts (the ASCII ones). */
  function DigitRun(s: string): (n: nat)
    ensures n <= |s|
    ensures forall i :: 0 <= i < n ==> IsDigit(s[i])
    ensures n < |s| ==> !IsDigit(s[n])
  {
    if s == [] || !IsDigit(s[0]) then 0 else 1 + DigitRun(s[1..])
  }

  /** `s` starts with a marker `[digits]`. */
  predicate MarkerAt(s: string) {
    |s| > 0 && s[0] == '[' &&
    var d := DigitRun(s[1..]);
    d > 0 && d + 1 < |s| && s[d + 1] == ']'
  }

  /** The numbers of the markers in `s`, left to right:
      `[int(m) for m in re.findall(r'\[(\d+)\]', s)]`. A scan that fails at
      a `[` resumes at the next character. */
  function Markers(s: string): seq<nat>
    decreases |s|
  {
    if s == [] then []
    else if MarkerAt(s) then
      var d := DigitRun(s[1..]);
      assert forall i :: 0 <= i < d ==> s[1..d + 1][i] == s[1..][i];
      [DigitsValue(s[1..d + 1])] + Markers(s[d + 2..])
    else Markers(s[1..])
  }

  /** The markers that name a context item: `0 <= n - 1 < count`. */
  function InRange(ms: seq<nat>, count: nat): (r: seq<nat>)
    ensures |r| <= |ms|
    ensures forall i :: 0 <= i < |r| ==> 1 <= r[i] <= count
  {
    if ms == [] then []
    else
      var init := InRange(ms[..|ms| - 1], count);
      var m := ms[|ms| - 1];
      if 1 <= m <= count then init + [m] else init
  }

  /** Citation text: at most 200 characters of the item, "..." marking a cut. */
  function Snippet(text: string): (r: string)
    ensures |text| <= 200 ==> r == text
    ensures |text| > 200 ==> |r| == 203 && r[..200] == text[..200] && r[200..] == "..."
  {
    if |text| > 200 then text[..200] + "..." else text
  }

  /** The citation of one context item. */
  function Cite(item: Item, file: string, relevance: real): Citation {
    Citation(OrElse(item.file, file), item.page, Snippet(item.text), relevance)
  }

  /** One citation per in-range marker, in marker order, duplicates kept. */
  function Cited(picked: seq<nat>, context: seq<Item>, relevance: Item -> real): (cs: seq<Citation>)
    requires forall i :: 0 <= i < |picked| ==> 1 <= picked[i] <= |context|
    ensures |cs| == |picked|
  {
    seq(|picked|, i requires 0 <= i < |picked| =>
      Cite(context[picked[i] - 1], "Unknown", relevance(context[picked[i] - 1])))
  }

  /** The loop of `_extract_citations` over the markers: out-of-range
      markers are skipped, the others cited in order. */
  method CiteMarkers(markers: seq<nat>, context: seq<Item>, relevance: Item -> real)
    returns (cs: seq<Citation>)
    ensures cs == Cited(InRange(markers, |context|), context, relevance)
  {
    cs := [];
    var i := 0;
    while i < |markers|
      invariant 0 <= i <= |markers|
      invariant cs == Cited(InRange(markers[..i], |context|), context, relevance)
    {
      var m := markers[i];
      assert markers[..i + 1][..i] == markers[..i];
      if 1 <= m <= |context| {
        cs := cs + [Cite(context[m - 1], "Unknown", relevance(context[m - 1]))];
      }
      i := i + 1;
    }
    assert markers[..i] == markers;
  }

  /** The relevance of a marker citation: the item's similarity score, 0.8
      when it has none. */
  function MarkerRelevance(item: Item): real {
    if item.similarity.Some? then item.similarity.value else 0.8
  }

  /** The relevance `_create_context_citations` gives the item it cites. */
  function FallbackRelevance(item: Item): (r: real)
    ensures r <= 1.0
  {
    var similarity := if item.similarity.Some? then item.similarity.value else 0.8;
    RealMin(similarity + (if |item.text| > 100 then 0.1 else 0.0), 1.0)
  }

  /** The fallback citation of the `i`-th context item. */
  function ContextCitation(item: Item, i: nat): Citation {
    Cite(item, "Document " + IntToString(i + 1), FallbackRelevance(item))
  }

  /** `_create_context_citations`: the first three items, in order. */
  function ContextCitations(context: seq<Item>): (cs: seq<Citation>)
    ensures |cs| == Min(3, |context|)
  {
    var n := Min(3, |context|);
    seq(n, i requires 0 <= i < n => ContextCitation(context[i], i))
  }

  method CreateContextCitations(context: seq<Item>) returns (cs: seq<Citation>)
    ensures cs == ContextCitations(context)
  {
    cs := [];
    var n := Min(3, |context|);
    var i := 0;
    while i < n
      invariant 0 <= i <= n
      invariant |cs| == i && forall j :: 0 <= j < i ==> cs[j] == ContextCitation(context[j], j)
    {
      cs := cs + [ContextCitation(context[i], i)];
      i := i + 1;
    }
  }

  /** What `_extract_citations` returns for a reply and its context. */
  function Citations(response: string, context: seq<Item>): seq<Citation> {
    var cs := Cited(InRange(Markers(response), |context|), context, MarkerRelevance);
    if cs == [] && context != [] then ContextCitations(context) else cs
  }

  method ExtractCitations(response: string, context: seq<Item>) returns (cs: seq<Citation>)
    ensures cs == Citations(response, context)
  {
    cs := CiteMarkers(Markers(response), context, MarkerRelevance);
    if cs == [] && context != [] {
      cs := CreateContextCitations(context);
    }
  }

  // ---------------------------------------------------------------------
  // Line extractors
  // ---------------------------------------------------------------------

  /** The loop `for line in response.split('\n'): line = line.strip(); if
      keep(line): out.append(line)`. */
  method KeepLines(response: string, keep: string -> bool) returns (kept: seq<string>)
    ensures kept == Filter(StrippedLines(response), keep)
  {
    var raw := Split(response, '\n');
    ghost var ls := StrippedLines(response);
    kept := [];
    var i := 0;
    while i < |raw|
      invariant 0 <= i <= |raw|
      invariant kept == Filter(ls[..i], keep)
    {
      var line := Strip(raw[i]);
      assert ls[..i + 1][..i] == ls[..i] && ls[..i + 1][i] == line;
      if keep(line) {
        kept := kept + [line];
      }
      i := i + 1;
    }
    assert ls[..i] == ls;
  }

  const FactIndicators: seq<string> := ["according to", "the document", "source", "data shows"]

  /** A stripped line `_extract_supporting_facts` keeps. */
  predicate IsFact(line: string) {
    line != [] &&
    !StartsWith(line, "Reasoning:") && !StartsWith(line, "Analysis:") && !StartsWith(line, "Step") &&
    ContainsAny(Lower(line), FactIndicators)
  }

  method ExtractSupportingFacts(response: string) returns (facts: seq<string>)
    ensures facts == Take(Filter(StrippedLines(response), IsFact), 3)
  {
    facts := KeepLines(response, IsFact);
    facts := Take(facts, 3);
  }

  const AlternativeIndicators: seq<string> := ["alternative", "however", "on the other hand", "it could also"]

  /** A line that opens the alternatives section. */
  predicate Signals(line: string) {
    ContainsAny(Lower(line), AlternativeIndicators)
  }

  /** A line collected once the section is open. */
  predicate Follows(line: string) {
    line != [] && !Signals(line)
  }

  /** The alternatives in a list of stripped lines: the non-empty lines
      after the first signalling line, signalling lines excepted. */
  function AlternativesIn(ls: seq<string>): seq<string> {
    var f := FirstIndex(ls, Signals);
    if f < |ls| then Filter(ls[f + 1..], Follows) else []
  }

  lemma AlternativesInUnfold(ls: seq<string>, f: nat)
    requires f == FirstIndex(ls, Signals)
    ensures AlternativesIn(ls) == if f < |ls| then Filter(ls[f + 1..], Follows) else []
  {
  }

  /** Extending the scanned part by one line extends the collected
      alternatives by that line when it is collected at all. */
  lemma AlternativesStep(ls: seq<string>, f: nat, i: nat)
    requires f < i < |ls|
    ensures Filter(ls[f + 1..i + 1], Follows) ==
            Filter(ls[f + 1..i], Follows) + (if Follows(ls[i]) then [ls[i]] else [])
  {
    assert ls[f + 1..i + 1][..i - f - 1] == ls[f + 1..i];
    assert ls[f + 1..i + 1][i - f - 1] == ls[i];
  }

  /** One pass of the `_extract_alternatives` loop over the stripped line
      `ls[i]`: a signalling line opens the section and is skipped, a
      non-empty line inside the section is collected. */
  method ScanAlternative(ghost ls: seq<string>, ghost f: nat, i: nat, line: string,
                         inAlternatives: bool, alts: seq<string>)
    returns (inAlternatives': bool, alts': seq<string>)
    requires i < |ls| && line == ls[i] && f == FirstIndex(ls, Signals)
    requires inAlternatives <==> f < i
    requires alts == if f < i then Filter(ls[f + 1..i], Follows) else []
    ensures inAlternatives' <==> f < i + 1
    ensures alts' == if f < i + 1 then Filter(ls[f + 1..i + 1], Follows) else []
  {
    if f < i {
      AlternativesStep(ls, f, i);
    }
    inAlternatives', alts' := inAlternatives, alts;
    if Signals(line) {
      if f >= i {
        assert f == i && ls[f + 1..i + 1] == [];
      }
      inAlternatives' := true;
    } else if inAlternatives && line != [] {
      alts' := alts + [line];
    }
  }

  /** `_extract_alternatives`. */
  method ExtractAlternatives(response: string) returns (alts: seq<string>)
    ensures alts == Take(AlternativesIn(StrippedLines(response)), 2)
  {
    var ls := StrippedLines(response);
    ghost var f := FirstIndex(ls, Signals);
    alts := [];
    var inAlternatives := false;
    var i := 0;
    while i < |ls|
      invariant 0 <= i <= |ls|
      invariant inAlternatives <==> f < i
      invariant alts == if f < i then Filter(ls[f + 1..i], Follows) else []
    {
      inAlternatives, alts := ScanAlternative(ls, f, i, ls[i], inAlternatives, alts);
      i := i + 1;
    }
    if f < |ls| {
      assert ls[f + 1..i] == ls[f + 1..];
    }
    AlternativesInUnfold(ls, f);
    alts := Take(alts, 2);
  }

  /** `re.match(r'STEP \d+', line.upper())`. */
  predicate IsStepHeader(line: string) {
    var u := Upper(line);
    |u| > 5 && StartsWith(u, "STEP ") && IsDigit(u[5])
  }

  /** `"FINAL ANSWER:" in line.upper()`. */
  predicate IsFinalLine(line: string) {
    Contains(Upper(line), "FINAL ANSWER:")
  }

  /** `re.sub(r'^[-*]\s*', '', line)`. */
  function Unbullet(line: string): string {
    if line != [] && (line[0] == '-' || line[0] == '*') then LStrip(line[1..]) else line
  }

  /** The step being collected, written out when it has content. */
  function Close(current: Option<string>, content: seq<string>): seq<string> {
    if current.Some? && content != [] then [current.value + ": " + Join(" ", content)] else []
  }

  /** The steps `_extract_reasoning_chain` writes for the remaining stripped
      lines, given the open step header and its collected lines. */
  function StepsFrom(ls: seq<string>, current: Option<string>, content: seq<string>): seq<string>
    decreases |ls|
  {
    if ls == [] then Close(current, content)
    else
      var line := ls[0];
      if line == [] then StepsFrom(ls[1..], current, content)
      else if IsStepHeader(line) then Close(current, content) + StepsFrom(ls[1..], Some(line), [])
      else if IsFinalLine(line) then Close(current, content)
      else if current.Some? then
        var cleaned := Unbullet(line);
        var content' := if cleaned != [] && !StartsWith(cleaned, "STEP") then content + [cleaned] else content;
        StepsFrom(ls[1..], current, content')
      else StepsFrom(ls[1..], current, content)
  }

  const AnalysisStep: string := "Step 1 - Question Analysis: Identified this as a "
  const AnalysisStepEnd: string := " question requiring comprehensive explanation."
  const GatheredFromDocuments: string := "Step 2 - Information Gathering: Retrieved relevant information from provided document context."
  const GatheredFromContext: string := "Step 2 - Information Gathering: Analyzed available context for relevant information."
  const CombinedSources: string := "Step 3 - Synthesis: Combined information from multiple sources to form comprehensive answer."
  const SynthesizedSources: string := "Step 3 - Synthesis: Synthesized available information into coherent response."
  const VerificationStep: string := "Step 4 - Verification: Ensured answer directly addresses the question and is supported by evidence."

  /** `_create_explicit_reasoning_steps`: four steps worded after what the
      reply mentions. */
  function ExplicitSteps(response: string): seq<string> {
    var lower := Lower(response);
    var kind := if ContainsAny(lower, ["what is", "define", "definition"]) then "definition" else "general";
    [AnalysisStep + kind + AnalysisStepEnd,
     if ContainsAny(lower, ["document", "source", "text", "information", "context"])
     then GatheredFromDocuments else GatheredFromContext,
     if ContainsAny(lower, ["based on", "according to", "from the", "the document shows"])
     then CombinedSources else SynthesizedSources,
     VerificationStep]
  }

  /** The chain `_extract_reasoning_chain` returns, before the cut to five. */
  function ReplySteps(response: string): seq<string> {
    var steps := StepsFrom(StrippedLines(response), None, []);
    if steps == [] then ExplicitSteps(response) else steps
  }

  method ExtractReasoningChain(response: string) returns (chain: seq<string>)
    ensures chain == Take(ReplySteps(response), 5)
  {
    var ls := StrippedLines(response);
    ghost var goal := StepsFrom(ls, None, []);
    var reasoning: seq<string> := [];
    var current: Option<string> := None;
    var content: seq<string> := [];
    var i := 0;
    while i < |ls|
      invariant 0 <= i <= |ls|
      invariant goal == reasoning + StepsFrom(ls[i..], current, content)
    {
      var line := ls[i];
      assert ls[i..][0] == line && ls[i..][1..] == ls[i + 1..];
      if line != [] {
        if IsStepHeader(line) {
          reasoning := reasoning + Close(current, content);
          current := Some(line);
          content := [];
        } else if IsFinalLine(line) {
          assert goal == reasoning + Close(current, content);
          break;
        } else if current.Some? {
          var cleaned := Unbullet(line);
          if cleaned != [] && !StartsWith(cleaned, "STEP") {
            content := content + [cleaned];
          }
        }
      }
      i := i + 1;
    }
    if i == |ls| {
      assert ls[i..] == [];
    }
    reasoning := reasoning + Close(current, content);
    if reasoning == [] {
      reasoning := ExplicitSteps(response);
    }
    chain := Take(reasoning, 5);
  }

  // ---------------------------------------------------------------------
  // Confidence
  // ---------------------------------------------------------------------

  /** The sum of the context similarity scores, 0.5 standing in for a
      missing one. */
  function SimilaritySum(context: seq<Item>): real {
    if context == [] then 0.0
    else
      var item := context[|context| - 1];
      SimilaritySum(context[..|context| - 1]) + (if item.similarity.Some? then item.similarity.value else 0.5)
  }

  /** The score `_calculate_confidence` adds up, before the cap at 1.0. */
  function RawConfidence(result: Answer, context: seq<Item>, entityTypes: nat): real {
    0.5
    + (if |context| >= 3 then 0.2 else if |context| >= 1 then 0.1 else 0.0)
    + (if |result.answer| > 50 then 0.1 else 0.0)
    + (if result.citations != [] then 0.1 else 0.0)
    + (if result.facts != [] then 0.1 else 0.0)
    + (if entityTypes > 0 then 0.05 else 0.0)
    + (if context != [] then RealMin(SimilaritySum(context) / |context| as real * 0.10, 0.10) else 0.0)
    + (if |result.chain| >= 3 then 0.10 else 0.0)
    + (if result.alternatives != [] then 0.05 else 0.0)
  }

  /** The similarities of the context items, 0.5 for an item without one. */
  method SumSimilarities(context: seq<Item>) returns (total: real)
    ensures total == SimilaritySum(context)
  {
    total := 0.0;
    var i := 0;
    while i < |context|
      invariant 0 <= i <= |context|
      invariant total == SimilaritySum(context[..i])
    {
      assert context[..i + 1][..i] == context[..i];
      var item := context[i];
      total := total + (if item.similarity.Some? then item.similarity.value else 0.5);
      i := i + 1;
    }
    assert context[..i] == context;
  }

  /** `_calculate_confidence`: factors added one by one, capped at 1.0.
      `entityTypes` is the number of entity kinds found in the query. */
  method CalculateConfidence(result: Answer, context: seq<Item>, entityTypes: nat) returns (confidence: real)
    ensures confidence == RealMin(1.0, RawConfidence(result, context, entityTypes))
  {
    confidence := 0.5;
    if |context| >= 3 {
      confidence := confidence + 0.2;
    } else if |context| >= 1 {
      confidence := confidence + 0.1;
    }
    if |result.answer| > 50 {
      confidence := confidence + 0.1;
    }
    if result.citations != [] {
      confidence := confidence + 0.1;
    }
    if result.facts != [] {
      confidence := confidence + 0.1;
    }
    if entityTypes > 0 {
      confidence := confidence + 0.05;
    }
    if context != [] {
      var total := SumSimilarities(context);
      confidence := confidence + RealMin(total / |context| as real * 0.10, 0.10);
    }
    if |result.chain| >= 3 {
      confidence := confidence + 0.10;
    }
    if result.alternatives != [] {
      confidence := confidence + 0.05;
    }
    confidence := RealMin(1.0, confidence);
  }

  // ---------------------------------------------------------------------
  // Source list
  // ---------------------------------------------------------------------

  /** One entry of the `unique_sources` dict. */
  datatype Source = Source(file: string, page: Option<int>, relevance: real)

  /** The position of `file` among the entries, `|sources|` when absent. */
  function IndexOfFile(sources: seq<Source>, file: string): (i: nat)
    ensures i <= |sources|
    ensures i < |sources| ==> sources[i].file == file
    ensures forall j :: 0 <= j < i ==> sources[j].file != file
  {
    if sources == [] then 0
    else if sources[0].file == file then 0
    else 1 + IndexOfFile(sources[1..], file)
  }

  /** One dict assignment `unique_sources[file] = {...}` when the file is
      new or the citation is strictly more relevant; a replaced key keeps
      its place. */
  function Upsert(sources: seq<Source>, c: Citation): seq<Source> {
    var i := IndexOfFile(sources, c.file);
    if i == |sources| then sources + [Source(c.file, c.page, c.relevance)]
    else if c.relevance > sources[i].relevance then sources[i := Source(c.file, c.page, c.relevance)]
    else sources
  }

  /** The dict after all citations, in insertion order. */
  function UniqueSources(cs: seq<Citation>): seq<Source> {
    if cs == [] then [] else Upsert(UniqueSources(cs[..|cs| - 1]), cs[|cs| - 1])
  }

  const SourcesHeader: string := "\n\n<b style='color: #34495e; font-size: 14px;'>Sources:</b><br>"

  /** The name shown for a source: its POSIX basename, "Unknown" kept as is. */
  function FileName(file: string): string {
    if file != "Unknown" then Basename(file) else "Unknown"
  }

  /** `str(page)`. */
  function PageText(page: Option<int>): string {
    if page.Some? then IntToString(page.value) else "None"
  }

  /** The "Open" link: `link(file)` renders a local file's URL. */
  function OpenLink(file: string, link: string -> string): string {
    if file != "Unknown" then link(file) else "<span style='color: #666;'>Open</span>"
  }

  /** The `n`-th line of the source list. */
  function SourceLine(n: nat, s: Source, link: string -> string): string {
    "[" + IntToString(n) + "] " + "<span style='font-weight: bold; color: #2c3e50;'>" + FileName(s.file)
    + "</span> • page " + PageText(s.page) + " • " + OpenLink(s.file, link)
  }

  /** The numbered lines of the source list, the first numbered 1. */
  function SourceLines(sources: seq<Source>, link: string -> string): (lines: seq<string>)
    ensures |lines| == |sources|
  {
    if sources == [] then []
    else SourceLines(sources[..|sources| - 1], link) + [SourceLine(|sources|, sources[|sources| - 1], link)]
  }

  /** What `_format_answer_with_citations` returns. */
  function Formatted(answer: string, cs: seq<Citation>, link: string -> string): string {
    if cs == [] then answer
    else answer + SourcesHeader + Join("<br>", SourceLines(UniqueSources(cs), link))
  }

  method FormatAnswerWithCitations(answer: string, cs: seq<Citation>, link: string -> string)
    returns (formatted: string)
    ensures formatted == Formatted(answer, cs, link)
  {
    if cs == [] {
      return answer;
    }
    var unique: seq<Source> := [];
    var i := 0;
    while i < |cs|
      invariant 0 <= i <= |cs|
      invariant unique == UniqueSources(cs[..i])
    {
      assert cs[..i + 1][..i] == cs[..i];
      unique := Upsert(unique, cs[i]);
      i := i + 1;
    }
    assert cs[..i] == cs;
    var lines: seq<string> := [];
    var k := 0;
    while k < |unique|
      invariant 0 <= k <= |unique|
      invariant lines == SourceLines(unique[..k], link)
    {
      assert unique[..k + 1][..k] == unique[..k];
      lines := lines + [SourceLine(k + 1, unique[k], link)];
      k := k + 1;
    }
    assert unique[..k] == unique;
    formatted := answer + SourcesHeader + Join("<br>", lines);
  }

  // ---------------------------------------------------------------------
  // Error fallback
  // ---------------------------------------------------------------------

  /** `_create_fallback_result`: the error text as the answer, a three-step
      chain, confidence 0.1 and nothing cited. */
  function FallbackResult(error: string, device: string): (r: Answer)
    ensures |r.chain| == 3 && r.citations == [] && r.facts == [] && r.alternatives == []
  {
    Answer("Unable to generate answer due to error: " + error,
           ["1. Error occurred during LLM processing",
            "2. Fallback to basic response",
            "3. Please check system configuration"],
           0.1, [], [], [], Fallback(error, device))
  }
}
