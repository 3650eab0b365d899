/** The two agent nodes and the graph around them: their budgets, and the grounding of accepted reports. */
module AgentWorkflow {
  import opened Basics
  import opened Sanitizer
  import opened AgentData
  import opened ResearchSpec

  /** String operations that are not modelled: `str.strip`, `str.upper` and the ticker pattern. */
  datatype TextOps = TextOps(strip: string -> string, upper: string -> string, extract: string -> seq<string>)

  datatype NodeResult = NodeRaised | Updated(st: AgentState)

  datatype RunResult = InvalidDepth | RunRaised | Finished(st: AgentState)

  const DEPTHS: set<string> := {"quick", "standard", "deep"}

  function Normalised(text: TextOps, tickers: seq<string>): seq<string> {
    if tickers == [] then []
    else (if text.strip(tickers[0]) != "" then [text.strip(text.upper(tickers[0]))] else [])
         + Normalised(text, tickers[1..])
  }

  function ValidateInput(text: TextOps, st: AgentState): AgentState {
    var query := text.strip(st.query);
    var named := Normalised(text, st.tickers);
    var tickers := if named == [] && query != "" then Clip(text.extract(query), 3) else named;
    AgentState(query, tickers, if st.depth in DEPTHS then st.depth else "standard", st.gathered, 0, 0, 0,
               if tickers == [] then None else st.report,
               if tickers == [] then Some("No tickers provided or extractable from query.") else None)
  }

  /** After the research: go on to the analyst with data and without an error. */
  predicate RouteToAnalyst(st: AgentState) {
    !HasError(st) && (st.gathered.analyses != [] || st.gathered.news != [])
  }

  function Done(st: AgentState, g: Gathered, modelCalls: nat, input: nat, output: nat): AgentState {
    st.(gathered := g, modelCalls := modelCalls, inputTokens := input, outputTokens := output,
        error := ResearchError(g))
  }

  /** The state after the analyst node, whose first model invocation would be number `models`. */
  function Analysed(w: World, models: nat, st: AgentState): AgentState {
    var (used, got) := Fallback(w.answers, models, w.providers, CallsLeft(w, st.modelCalls));
    var after := st.(modelCalls := st.modelCalls + used);
    match got
    case None =>
      var error := if after.modelCalls >= w.limits.maxModelCalls then BUDGET_EXHAUSTED else GENERATION_FAILED;
      after.(report := None, error := Some(error))
    case Some(reply) =>
      var usage := if reply.usage.Some? then reply.usage.value else Usage(0, 0);
      var counted := after.(inputTokens := st.inputTokens + usage.input,
                            outputTokens := st.outputTokens + usage.output);
      match Judge(st.gathered.sources, reply.content)
      case Accepted(report) => counted.(report := Some(report), error := None)
      case Denied(error) => counted.(report := None, error := Some(error))
  }

  /** A whole run: its result, the invocations up to its end, and how far the research got. */
  datatype Run = Run(result: RunResult, models: nat, tools: nat, research: Progress)

  function RunOf(
    w: World, text: TextOps, briefable: AgentState -> bool, models: nat, tools: nat,
    query: string, tickers: seq<string>, depth: string): Run
  {
    var start := AgentState(query, tickers, depth, NOTHING, 0, 0, 0, None, None);
    if depth !in DEPTHS then Run(InvalidDepth, models, tools, Begin(models, tools, start))
    else RunFrom(w, briefable, models, tools, ValidateInput(text, start))
  }

  /** The rest of a run after the validation. */
  function RunFrom(w: World, briefable: AgentState -> bool, models: nat, tools: nat, st: AgentState): Run {
    if HasError(st) then Run(Finished(st), models, tools, Begin(models, tools, st)) else
      var (p, ok) := Rounds(w, Begin(models, tools, st));
      if !ok then Run(RunRaised, p.models, p.tools, p)
      else Concluded(w, briefable, Done(st, p.g, p.modelCalls, p.input, p.output), p)
  }

  /** The rest of a run whose research ended in state `st`. */
  function Concluded(w: World, briefable: AgentState -> bool, st: AgentState, p: Progress): Run {
    if !RouteToAnalyst(st) then Run(Finished(st), p.models, p.tools, p)
    else if !briefable(st) then Run(RunRaised, p.models, p.tools, p)
    else Run(Finished(Analysed(w, p.models, st)), p.models + AnalystCalls(w, p.models, st), p.tools, p)
  }

  function AnalystCalls(w: World, models: nat, st: AgentState): nat {
    Fallback(w.answers, models, w.providers, CallsLeft(w, st.modelCalls)).0
  }

  /** Every citation names a source that stems from a logged, successful, non-empty call of a known tool. */
  predicate GroundedReport(naming: Naming, g: Gathered, report: Report) {
    && |report.citations| >= 1
    && forall c <- report.citations ::
         exists s <- g.sources :: s.sourceId == c.sourceId && Grounded(naming, g.log, s)
  }

  lemma AcceptedIsGrounded(naming: Naming, g: Gathered, content: Content)
    requires Filed(naming, g) && Judge(g.sources, content).Accepted?
    ensures GroundedReport(naming, g, Judge(g.sources, content).report)
  {
    var report := content.report;
    forall c <- report.citations
      ensures exists s <- g.sources :: s.sourceId == c.sourceId && Grounded(naming, g.log, s)
    {
      var s :| s in g.sources && s.sourceId == c.sourceId;
      SourcesFromLog(naming, g.log, s);
    }
  }

  /** The analyst stays within the budget, sets a report or an error, and reports nothing once the budget
      is spent. */
  lemma AnalystSound(w: World, models: nat, st: AgentState)
    requires Filed(w.naming, st.gathered)
    ensures var st' := Analysed(w, models, st);
      && st'.modelCalls == st.modelCalls + AnalystCalls(w, models, st) <= Most(st.modelCalls, w.limits.maxModelCalls)
      && st'.gathered == st.gathered
      && (st'.report.Some? <==> st'.error.None?)
      && (st'.report.Some? ==> st.modelCalls < w.limits.maxModelCalls
                               && GroundedReport(w.naming, st.gathered, st'.report.value))
  {
    FallbackMeans(w.answers, models, w.providers, CallsLeft(w, st.modelCalls));
    var got := Fallback(w.answers, models, w.providers, CallsLeft(w, st.modelCalls)).1;
    if got.Some? && Judge(st.gathered.sources, got.value.content).Accepted? {
      AcceptedIsGrounded(w.naming, st.gathered, got.value.content);
    }
  }

  // What the analyst makes of the first answer within the budget.

  /** The invocations that providers and budget allow the node. */
  function Reach(w: World, models: nat, st: AgentState): nat {
    models + Least(w.providers, Most(w.limits.maxModelCalls, st.modelCalls) - st.modelCalls)
  }

  predicate FirstAnswer(w: World, models: nat, st: AgentState, k: nat) {
    models <= k < Reach(w, models, st) && w.answers(k).Answered?
    && forall j :: models <= j < k ==> w.answers(j).ProviderFailed?
  }

  const HEX: set<char> := {'0', '1', '2', '3', '4', '5', '6', '7', '8', '9', 'a', 'b', 'c', 'd', 'e', 'f'}

  /** An id of the form `src_` and twelve hexadecimal digits, with a claim of 1 to 500 characters. */
  predicate WellFormed(c: Citation) {
    && |c.sourceId| == 16
    && c.sourceId[0] == 's' && c.sourceId[1] == 'r' && c.sourceId[2] == 'c' && c.sourceId[3] == '_'
    && (forall i :: 4 <= i < 16 ==> c.sourceId[i] in HEX)
    && c.claim != "" && |c.claim| <= 500
  }

  /** One to fifty well-formed citations. */
  predicate WellCited(r: Report) {
    r.citations != [] && |r.citations| <= 50 && forall i :: 0 <= i < |r.citations| ==> WellFormed(r.citations[i])
  }

  predicate CitesOnly(r: Report, ids: set<string>) {
    forall i :: 0 <= i < |r.citations| ==> r.citations[i].sourceId in ids
  }

  function IdsOf(sources: seq<Source>): set<string> {
    set s <- sources :: s.sourceId
  }

  /** The error that the analyst sets on an answer with the given content, if any. */
  function Objection(content: Content, ids: set<string>): Option<string> {
    match content
    case NotText => Some("Analyst response must be plain JSON text")
    case NotJson => Some("Model returned invalid report JSON.")
    case NotAMapping => Some("Report generation failed.")
    case Draft(r, restOk) =>
      if !(restOk && WellCited(r)) then Some("Model report failed schema validation.")
      else if !CitesOnly(r, ids) then Some("Report cited a source outside the supplied registry")
      else None
  }

  lemma HexDigits(c: char)
    ensures IsHex(c) <==> c in HEX
  {
  }

  lemma CitationForm(c: Citation)
    ensures CitationOk(c) <==> WellFormed(c)
  {
    if |c.sourceId| == 16 {
      var digits := c.sourceId[4..];
      assert c.sourceId[..4] == "src_" <==>
        c.sourceId[0] == 's' && c.sourceId[1] == 'r' && c.sourceId[2] == 'c' && c.sourceId[3] == '_';
      forall i | 4 <= i < 16 ensures c.sourceId[i] in digits && (IsHex(c.sourceId[i]) <==> c.sourceId[i] in HEX) {
        assert c.sourceId[i] == digits[i - 4];
        HexDigits(c.sourceId[i]);
      }
      forall d <- digits ensures exists i :: 4 <= i < 16 && c.sourceId[i] == d {
        var j :| 0 <= j < 12 && digits[j] == d;
        assert c.sourceId[j + 4] == d;
      }
    }
  }

  lemma JudgeMeans(sources: seq<Source>, content: Content)
    ensures Judge(sources, content)
            == match Objection(content, IdsOf(sources)) case Some(error) => Denied(error) case None => Accepted(content.report)
  {
    if content.Draft? {
      var r := content.report;
      forall i | 0 <= i < |r.citations| ensures CitationOk(r.citations[i]) <==> WellFormed(r.citations[i]) {
        CitationForm(r.citations[i]);
      }
      SchemaMeans(r);
      RegisteredMeans(r, sources);
    }
  }

  lemma SchemaMeans(r: Report)
    requires forall i :: 0 <= i < |r.citations| ==> (CitationOk(r.citations[i]) <==> WellFormed(r.citations[i]))
    ensures Validates(r, true) <==> WellCited(r)
    ensures !Validates(r, false)
  {
    if WellCited(r) {
      forall c <- r.citations ensures CitationOk(c) {
        var i :| 0 <= i < |r.citations| && r.citations[i] == c;
      }
    }
    if Validates(r, true) {
      forall i | 0 <= i < |r.citations| ensures WellFormed(r.citations[i]) {
        assert r.citations[i] in r.citations;
      }
    }
  }

  lemma RegisteredMeans(r: Report, sources: seq<Source>)
    ensures Registered(r, sources) <==> CitesOnly(r, IdsOf(sources))
  {
    if Registered(r, sources) {
      forall i | 0 <= i < |r.citations| ensures r.citations[i].sourceId in IdsOf(sources) {
        assert r.citations[i] in r.citations;
      }
    }
  }

  lemma FirstOrNone(w: World, models: nat, st: AgentState)
    ensures var (used, got) := Fallback(w.answers, models, w.providers, CallsLeft(w, st.modelCalls));
      match got
      case Some(reply) => used >= 1 && FirstAnswer(w, models, st, models + used - 1)
                          && w.answers(models + used - 1) == Answered(reply)
      case None => models + used == Reach(w, models, st)
                   && forall k :: models <= k < Reach(w, models, st) ==> w.answers(k).ProviderFailed?
  {
    FallbackMeans(w.answers, models, w.providers, CallsLeft(w, st.modelCalls));
  }

  /** A report is set if and only if the first answer within the budget is a draft whose fields pass their schema,
      with one to fifty well-formed citations of registered sources; it is that draft. */
  lemma ReportedExactly(w: World, models: nat, st: AgentState, report: Report)
    ensures Analysed(w, models, st).report == Some(report) <==>
              exists k :: FirstAnswer(w, models, st, k) && w.answers(k).reply.content == Draft(report, true)
                          && WellCited(report) && CitesOnly(report, IdsOf(st.gathered.sources))
  {
    var (used, got) := Fallback(w.answers, models, w.providers, CallsLeft(w, st.modelCalls));
    FirstOrNone(w, models, st);
    if got.Some? {
      JudgeMeans(st.gathered.sources, got.value.content);
      forall k | FirstAnswer(w, models, st, k) ensures k == models + used - 1 {
        SameFirst(w, models, st, k, models + used - 1);
      }
    }
  }

  lemma SameFirst(w: World, models: nat, st: AgentState, j: nat, k: nat)
    requires FirstAnswer(w, models, st, j) && FirstAnswer(w, models, st, k)
    ensures j == k
  {
  }

  /** What the analyst sets otherwise, and what it has counted: every invocation up to the first answer, and the
      tokens of that answer; nothing else changes. */
  lemma AnalysedExactly(w: World, models: nat, st: AgentState)
    ensures var st', used := Analysed(w, models, st), AnalystCalls(w, models, st);
      && st'.modelCalls == st.modelCalls + used
      && st'.inputTokens == st.inputTokens + UsageOf(w.answers, models, models + used).input
      && st'.outputTokens == st.outputTokens + UsageOf(w.answers, models, models + used).output
      && st' == st.(modelCalls := st'.modelCalls, inputTokens := st'.inputTokens, outputTokens := st'.outputTokens,
                    report := st'.report, error := st'.error)
      && (if used >= 1 && FirstAnswer(w, models, st, models + used - 1) then
            st'.error == Objection(w.answers(models + used - 1).reply.content, IdsOf(st.gathered.sources))
          else
            && (forall k :: models <= k < Reach(w, models, st) ==> w.answers(k).ProviderFailed?)
            && models + used == Reach(w, models, st) && st'.report == None
            && st'.error == Some(if st'.modelCalls >= w.limits.maxModelCalls then "Per-job model-call budget exhausted"
                                 else "Report generation failed."))
  {
    var (used, got) := Fallback(w.answers, models, w.providers, CallsLeft(w, st.modelCalls));
    FirstOrNone(w, models, st);
    RoundCosts(w.answers, models, models, w.providers, CallsLeft(w, st.modelCalls));
    if got.Some? { JudgeMeans(st.gathered.sources, got.value.content); }
  }

  // The normalised input, and how a run ends.

  lemma {:induction false} NormalisedJoin(text: TextOps, a: seq<string>, b: seq<string>)
    ensures Normalised(text, a + b) == Normalised(text, a) + Normalised(text, b)
  {
    if a == [] {
      assert a + b == b;
    } else {
      NormalisedJoin(text, a[1..], b);
      assert (a + b)[1..] == a[1..] + b;
      Regroup(if text.strip(a[0]) != "" then [text.strip(text.upper(a[0]))] else [],
              Normalised(text, a[1..]), Normalised(text, b));
    }
  }

  lemma NormalisedOne(text: TextOps, ticker: string)
    ensures Normalised(text, [ticker]) == if text.strip(ticker) == "" then [] else [text.strip(text.upper(ticker))]
  {
    assert [ticker][1..] == [] && Normalised(text, []) == [];
  }

  /** Tickers keep their order; blank ones go, the others are stripped and in upper case. */
  lemma TickersKept(text: TextOps, before: seq<string>, ticker: string, after: seq<string>)
    ensures Normalised(text, before + [ticker] + after)
            == Normalised(text, before)
               + (if text.strip(ticker) == "" then [] else [text.strip(text.upper(ticker))])
               + Normalised(text, after)
    ensures Normalised(text, []) == []
  {
    NormalisedJoin(text, before + [ticker], after);
    NormalisedJoin(text, before, [ticker]);
    NormalisedOne(text, ticker);
  }

  /** The checked input: the tickers given or else the first three found in the query, a known depth, and an error
      if and only if there is no ticker. */
  lemma InputChecked(text: TextOps, st: AgentState)
    ensures var r, given := ValidateInput(text, st), Normalised(text, st.tickers);
      && r.query == text.strip(st.query) && r.gathered == st.gathered
      && r.modelCalls == r.inputTokens == r.outputTokens == 0
      && (given != [] || text.strip(st.query) == "" ==> r.tickers == given)
      && (given == [] && text.strip(st.query) != "" ==>
            var found := text.extract(text.strip(st.query));
            r.tickers <= found && |r.tickers| == Least(|found|, 3))
      && r.depth in {"quick", "standard", "deep"}
      && (st.depth in {"quick", "standard", "deep"} ==> r.depth == st.depth)
      && (st.depth !in {"quick", "standard", "deep"} ==> r.depth == "standard")
      && (r.tickers != [] ==> r.error == None && r.report == st.report)
      && (r.tickers == [] ==> r.error == Some("No tickers provided or extractable from query.") && r.report == None)
  {
  }

  /** The end of a run whose research ended in `p`, and began with the checked input `st`. */
  ghost predicate EndsAs(w: World, briefable: AgentState -> bool, st: AgentState, p: Progress, run: Run) {
    var counted := st.(gathered := p.g, modelCalls := p.modelCalls, inputTokens := p.input, outputTokens := p.output);
    if p.g.analyses == [] && p.g.news == [] then
      && run.models == p.models
      && run.result == Finished(counted.(error := Some("No research data was available from the configured providers.")))
    else if p.g.sources == [] then
      && run.models == p.models
      && run.result == Finished(counted.(error := Some("Research data lacked verifiable source provenance.")))
    else if !briefable(counted.(error := None)) then
      run.models == p.models && run.result == RunRaised
    else
      && run.models == p.models + AnalystCalls(w, p.models, counted)
      && run.result == Finished(Analysed(w, p.models, counted.(error := None)))
  }

  /** A run ends with an unknown depth, with the validation's error, with the research node's exception or error,
      with an unbuildable prompt, or with the analyst's state; the analyst is asked if and only if the research
      found analyses or news, and sources. */
  lemma RunEnds(
    w: World, text: TextOps, briefable: AgentState -> bool, models: nat, tools: nat,
    query: string, tickers: seq<string>, depth: string)
    ensures var run := RunOf(w, text, briefable, models, tools, query, tickers, depth);
      var st := ValidateInput(text, AgentState(query, tickers, depth, NOTHING, 0, 0, 0, None, None));
      var (p, ok) := Rounds(w, Begin(models, tools, st));
      if depth !in {"quick", "standard", "deep"} then run.result == InvalidDepth && run.models == models && run.tools == tools
      else if st.tickers == [] then run.result == Finished(st) && run.models == models && run.tools == tools
      else if !ok then run.result == RunRaised && run.models == p.models && run.tools == p.tools
      else run.tools == p.tools && EndsAs(w, briefable, st, p, run)
  {
    var st := ValidateInput(text, AgentState(query, tickers, depth, NOTHING, 0, 0, 0, None, None));
    if depth in DEPTHS && st.tickers != [] {
      var (p, ok) := Rounds(w, Begin(models, tools, st));
      if ok { ResearchEnds(w, briefable, st, p); }
    }
  }

  lemma ResearchEnds(w: World, briefable: AgentState -> bool, st: AgentState, p: Progress)
    ensures var run := Concluded(w, briefable, Done(st, p.g, p.modelCalls, p.input, p.output), p);
      run.tools == p.tools && EndsAs(w, briefable, st, p, run)
  {
    var done := Done(st, p.g, p.modelCalls, p.input, p.output);
    var counted := st.(gathered := p.g, modelCalls := p.modelCalls, inputTokens := p.input, outputTokens := p.output);
    assert done == counted.(error := ResearchError(p.g));
    if p.g.sources != [] && (p.g.analyses != [] || p.g.news != []) {
      assert done == counted.(error := None);
    }
  }

  /** The tokens of a finished run are those that the answering models reported. */
  predicate TokensCounted(w: World, models: nat, run: Run) {
    run.result.Finished? ==>
      && run.models >= models
      && run.result.st.inputTokens == UsageOf(w.answers, models, run.models).input
      && run.result.st.outputTokens == UsageOf(w.answers, models, run.models).output
  }

  lemma AnalystCounts(w: World, first: nat, models: nat, st: AgentState)
    requires first <= models && Usage(st.inputTokens, st.outputTokens) == UsageOf(w.answers, first, models)
    ensures var st', n := Analysed(w, models, st), models + AnalystCalls(w, models, st);
      Usage(st'.inputTokens, st'.outputTokens) == UsageOf(w.answers, first, n)
  {
    RoundCosts(w.answers, first, models, w.providers, CallsLeft(w, st.modelCalls));
  }

  lemma ConcludedCounts(w: World, briefable: AgentState -> bool, first: nat, st: AgentState, p: Progress)
    requires first <= p.models && Usage(st.inputTokens, st.outputTokens) == UsageOf(w.answers, first, p.models)
    ensures TokensCounted(w, first, Concluded(w, briefable, st, p))
  {
    AnalystCounts(w, first, p.models, st);
  }

  lemma FromCounts(w: World, briefable: AgentState -> bool, models: nat, tools: nat, st: AgentState)
    requires st.inputTokens == st.outputTokens == 0
    ensures TokensCounted(w, models, RunFrom(w, briefable, models, tools, st))
  {
    if !HasError(st) {
      var p0 := Begin(models, tools, st);
      RoundsCost(w, models, st, p0);
      var (p, ok) := Rounds(w, p0);
      if ok { ConcludedCounts(w, briefable, models, Done(st, p.g, p.modelCalls, p.input, p.output), p); }
    }
  }

  /** A finished run counts exactly the tokens that the answering models reported, in both nodes. */
  lemma RunCountsTokens(
    w: World, text: TextOps, briefable: AgentState -> bool, models: nat, tools: nat,
    query: string, tickers: seq<string>, depth: string)
    ensures TokensCounted(w, models, RunOf(w, text, briefable, models, tools, query, tickers, depth))
  {
    FromCounts(w, briefable, models, tools,
               ValidateInput(text, AgentState(query, tickers, depth, NOTHING, 0, 0, 0, None, None)));
  }

  lemma ResearchKept(w: World, models: nat, tools: nat, st: AgentState)
    requires st.modelCalls == 0
    ensures var p0 := Begin(models, tools, st); Kept(w, p0, Rounds(w, p0).0)
  {
    var p0 := Begin(models, tools, st);
    BeginKept(w, models, tools, st);
    RoundsKeep(w, p0, p0);
  }

  /** What the accounts say at the end of a run that began at the given invocation numbers. */
  predicate WithinBudgets(w: World, models: nat, tools: nat, run: Run) {
    && models <= run.models <= models + w.limits.maxModelCalls
    && tools <= run.tools <= tools + w.limits.maxToolCalls
    && run.research.iterations <= w.limits.maxIterations
    && (run.result.Finished? ==>
          && run.result.st.modelCalls == run.models - models
          && run.tools - tools <= |run.result.st.gathered.log| <= w.limits.maxToolCalls)
  }

  lemma ConcludedWithinBudgets(w: World, briefable: AgentState -> bool, p0: Progress, p: Progress, st: AgentState)
    requires Kept(w, p0, p) && p0.modelCalls == 0
    requires st.gathered == p.g && st.modelCalls == p.modelCalls
    ensures WithinBudgets(w, p0.models, p0.tools, Concluded(w, briefable, st, p))
  {
    AnalystSound(w, p.models, st);
  }

  /** A state in which the research may start. */
  predicate Blank(st: AgentState) {
    st.gathered == NOTHING && st.modelCalls == 0 && st.report == None
  }

  lemma FromWithinBudgets(w: World, briefable: AgentState -> bool, models: nat, tools: nat, st: AgentState)
    requires Blank(st)
    ensures WithinBudgets(w, models, tools, RunFrom(w, briefable, models, tools, st))
  {
    if !HasError(st) {
      var p0 := Begin(models, tools, st);
      ResearchKept(w, models, tools, st);
      var p := Rounds(w, p0).0;
      if Rounds(w, p0).1 {
        ConcludedWithinBudgets(w, briefable, p0, p, Done(st, p.g, p.modelCalls, p.input, p.output));
      } else {
        RaisedWithinBudgets(w, p0, p);
      }
    }
  }

  lemma RaisedWithinBudgets(w: World, p0: Progress, p: Progress)
    requires Kept(w, p0, p) && p0.modelCalls == 0
    ensures WithinBudgets(w, p0.models, p0.tools, Run(RunRaised, p.models, p.tools, p))
  {
  }

  /** The budgets hold however a run ends, and a finished run counts exactly the model invocations made,
      failed ones included. */
  lemma RunWithinBudgets(
    w: World, text: TextOps, briefable: AgentState -> bool, models: nat, tools: nat,
    query: string, tickers: seq<string>, depth: string)
    ensures WithinBudgets(w, models, tools, RunOf(w, text, briefable, models, tools, query, tickers, depth))
  {
    FromWithinBudgets(w, briefable, models, tools,
                      ValidateInput(text, AgentState(query, tickers, depth, NOTHING, 0, 0, 0, None, None)));
  }

  /** Research that spends the whole model budget leaves no report. */
  lemma SpentBudgetNoReport(
    w: World, text: TextOps, briefable: AgentState -> bool, models: nat, tools: nat,
    query: string, tickers: seq<string>, depth: string)
    ensures var run := RunOf(w, text, briefable, models, tools, query, tickers, depth);
      run.research.modelCalls >= w.limits.maxModelCalls && run.result.Finished? ==> run.result.st.report == None
  {
    var st := ValidateInput(text, AgentState(query, tickers, depth, NOTHING, 0, 0, 0, None, None));
    ResearchKept(w, models, tools, st);
    var p := Rounds(w, Begin(models, tools, st)).0;
    AnalystSound(w, p.models, Done(st, p.g, p.modelCalls, p.input, p.output));
  }

  lemma ConcludedGrounded(
    w: World, briefable: AgentState -> bool, p0: Progress, p: Progress, st: AgentState, policy: Policy)
    requires (policy.block || MarkerFits(policy)) && Screens(w.screen, policy)
    requires Kept(w, p0, p) && st.gathered == p.g && st.modelCalls == p.modelCalls && st.report == None
    ensures var run := Concluded(w, briefable, st, p);
      run.result.Finished? && run.result.st.report.Some? ==> SoundReport(w, policy, run)
  {
    AnalystSound(w, p.models, st);
    forall s <- p.g.sources ensures Clean(policy, s.content) {
      SourcesAreClean(policy, w, p0, p, s);
    }
  }

  /** The report has no error beside it, research left budget for it, it cites at least one source, and every
      cited id belongs to a source made from the sanitized result of a logged, successful call of a known
      tool. */
  predicate SoundReport(w: World, policy: Policy, run: Run)
    requires run.result.Finished? && run.result.st.report.Some?
  {
    var st := run.result.st;
    && st.error == None
    && run.research.modelCalls < w.limits.maxModelCalls
    && GroundedReport(w.naming, st.gathered, st.report.value)
    && forall s <- st.gathered.sources :: Clean(policy, s.content)
  }

  /** Every report is sound, whatever models and tools answer. */
  lemma ReportsAreGrounded(
    w: World, text: TextOps, briefable: AgentState -> bool, models: nat, tools: nat,
    query: string, tickers: seq<string>, depth: string, policy: Policy)
    requires (policy.block || MarkerFits(policy)) && Screens(w.screen, policy)
    ensures var run := RunOf(w, text, briefable, models, tools, query, tickers, depth);
      run.result.Finished? && run.result.st.report.Some? ==> SoundReport(w, policy, run)
  {
    var st := ValidateInput(text, AgentState(query, tickers, depth, NOTHING, 0, 0, 0, None, None));
    ResearchKept(w, models, tools, st);
    var p0 := Begin(models, tools, st);
    var p := Rounds(w, p0).0;
    ConcludedGrounded(w, briefable, p0, p, Done(st, p.g, p.modelCalls, p.input, p.output), policy);
  }

  class Workflow {
    const world: World
    const text: TextOps
    /** Whether the analyst's prompt can be built from the gathered records. */
    const briefable: AgentState -> bool
    /** Invocations that actually took place. */
    var modelsInvoked: nat
    var toolsInvoked: nat

    constructor (world: World, text: TextOps, briefable: AgentState -> bool)
      ensures modelsInvoked == 0 && toolsInvoked == 0
      ensures this.world == world && this.text == text && this.briefable == briefable
    {
      this.world, this.text, this.briefable := world, text, briefable;
      modelsInvoked, toolsInvoked := 0, 0;
    }

    method InvokeModel() returns (answer: Answer)
      modifies this`modelsInvoked
      ensures answer == world.answers(old(modelsInvoked)) && modelsInvoked == old(modelsInvoked) + 1
    {
      answer := world.answers(modelsInvoked);
      modelsInvoked := modelsInvoked + 1;
    }

    method InvokeTool() returns (outcome: ToolOutcome)
      modifies this`toolsInvoked
      ensures outcome == world.outcomes(old(toolsInvoked)) && toolsInvoked == old(toolsInvoked) + 1
    {
      outcome := world.outcomes(toolsInvoked);
      toolsInvoked := toolsInvoked + 1;
    }

    /** The fallback loop of both nodes. Every invocation, failed or not, is counted. */
    method AskModels(calls: nat) returns (modelCalls: nat, response: Option<Reply>)
      modifies this`modelsInvoked
      ensures modelCalls >= calls && modelCalls - calls == modelsInvoked - old(modelsInvoked)
      ensures (modelCalls - calls, response)
              == Fallback(world.answers, old(modelsInvoked), world.providers, CallsLeft(world, calls))
      ensures modelCalls <= Most(calls, world.limits.maxModelCalls)
    {
      modelCalls, response := calls, None;
      var index := 0;
      ghost var left, providers := CallsLeft(world, calls), world.providers;
      while index < world.providers
        invariant 0 <= index <= providers && response == None
        invariant modelCalls == calls + index && modelsInvoked == old(modelsInvoked) + index && index <= left
        invariant var (used, got) := Fallback(world.answers, modelsInvoked, providers - index, left - index);
          Fallback(world.answers, old(modelsInvoked), providers, left) == (index + used, got)
      {
        if modelCalls >= world.limits.maxModelCalls {
          break;
        }
        modelCalls := modelCalls + 1;
        var answer := InvokeModel();
        if answer.Answered? {
          response := Some(answer.reply);
          break;
        }
        index := index + 1;
      }
    }

    /** One tool call. Tools that are not in the map are not invoked. */
    method RunTool(call: ToolCall) returns (result: Result)
      modifies this`toolsInvoked
      ensures toolsInvoked == old(toolsInvoked) + if call.tool.Unknown? then 0 else 1
      ensures result == ToolResult(world.screen, call.tool, world.outcomes(old(toolsInvoked)))
    {
      if call.tool.Unknown? {
        return Problem(NoSuchTool(call.tool.name));
      }
      var outcome := InvokeTool();
      match outcome
      case ToolRaised(message) => return Problem(Raised(message));
      case Returned(value) =>
        var screened := world.screen(value);
        return if screened.Some? then Data(screened.value) else Problem(Unsafe);
    }

    /** The tool loop. */
    method RunTools(calls: seq<ToolCall>, iteration: nat, g0: Gathered, ghost p0: Progress) returns (g: Gathered)
      requires p0.g == g0 && p0.tools == toolsInvoked && p0.iterations == iteration
      modifies this`toolsInvoked
      ensures var p := MakeCalls(world, p0, calls); p.g == g && p.tools == toolsInvoked
    {
      g := g0;
      var i := 0;
      ghost var p := p0;
      while i < |calls|
        invariant 0 <= i <= |calls|
        invariant p.g == g && p.tools == toolsInvoked && p.iterations == iteration
        invariant MakeCalls(world, p, calls[i..]) == MakeCalls(world, p0, calls)
      {
        if |g.log| >= world.limits.maxToolCalls {
          return;
        }
        assert calls[i..][0] == calls[i] && calls[i..][1..] == calls[i + 1..];
        p := MakeCall(world, p, calls[i]);
        var result := RunTool(calls[i]);
        g := File(world.naming, g, LogEntry(calls[i].tool, calls[i].args, result, iteration));
        i := i + 1;
      }
    }

    /** The research node: `ResearchSpec.Rounds`, step by step. */
    method Research(st: AgentState) returns (r: NodeResult, iterations: nat, ghost p: Progress)
      requires st.gathered == NOTHING
      modifies this
      ensures Rounds(world, Begin(old(modelsInvoked), old(toolsInvoked), st)) == (p, r.Updated?)
      ensures p.models == modelsInvoked && p.tools == toolsInvoked && p.iterations == iterations
      ensures r.Updated? ==>
        r.st == Done(st, p.g, p.modelCalls, p.input, p.output)
    {
      var g, modelCalls: nat := NOTHING, st.modelCalls;
      var input: nat, output: nat := st.inputTokens, st.outputTokens;
      iterations := 0;
      p := Begin(modelsInvoked, toolsInvoked, st);
      ghost var whole := Rounds(world, p);
      while iterations < world.limits.maxIterations && modelCalls < world.limits.maxModelCalls
        invariant p.g == g && p.models == modelsInvoked && p.tools == toolsInvoked && p.iterations == iterations
        invariant p.modelCalls == modelCalls && p.input == input && p.output == output
        invariant Rounds(world, p) == whole
        decreases world.limits.maxIterations - iterations
      {
        ghost var (p1, _) := Ask(world, p);
        iterations := iterations + 1;
        var response;
        modelCalls, response := AskModels(modelCalls);
        if response.None? {
          p := p1;
          return NodeRaised, iterations, p;
        }
        if response.value.usage.Some? {
          input := input + response.value.usage.value.input;
          output := output + response.value.usage.value.output;
        }
        p := p1;
        if response.value.calls == [] {
          assert whole == (p, true);
          r := Updated(Done(st, g, modelCalls, input, output));
          return;
        }
        g := RunTools(response.value.calls, iterations, g, p);
        p := MakeCalls(world, p, response.value.calls);
      }
      r := Updated(Done(st, g, modelCalls, input, output));
    }

    /** The analyst node. Building the prompt may raise. */
    method Analyse(st: AgentState) returns (r: NodeResult)
      modifies this`modelsInvoked
      ensures r == if briefable(st) then Updated(Analysed(world, old(modelsInvoked), st)) else NodeRaised
      ensures modelsInvoked
              == old(modelsInvoked) + if briefable(st) then AnalystCalls(world, old(modelsInvoked), st) else 0
    {
      if !briefable(st) {
        return NodeRaised;
      }
      var modelCalls, response := AskModels(st.modelCalls);
      var after := st.(modelCalls := modelCalls);
      if response.None? {
        var error := if modelCalls >= world.limits.maxModelCalls then BUDGET_EXHAUSTED else GENERATION_FAILED;
        return Updated(after.(report := None, error := Some(error)));
      }
      if response.value.usage.Some? {
        after := after.(inputTokens := after.inputTokens + response.value.usage.value.input,
                        outputTokens := after.outputTokens + response.value.usage.value.output);
      }
      match Judge(st.gathered.sources, response.value.content)
      case Accepted(report) => return Updated(after.(report := Some(report), error := None));
      case Denied(error) => return Updated(after.(report := None, error := Some(error)));
    }

    /** A whole run. */
    method RunResearch(query: string, tickers: seq<string>, depth: string)
      returns (out: RunResult, ghost p: Progress)
      modifies this
      ensures Run(out, modelsInvoked, toolsInvoked, p)
              == RunOf(world, text, briefable, old(modelsInvoked), old(toolsInvoked), query, tickers, depth)
    {
      var st := AgentState(query, tickers, depth, NOTHING, 0, 0, 0, None, None);
      p := Begin(modelsInvoked, toolsInvoked, st);
      if depth !in DEPTHS {
        return InvalidDepth, p;
      }
      st := ValidateInput(text, st);
      if HasError(st) {
        p := Begin(modelsInvoked, toolsInvoked, st);
        return Finished(st), p;
      }
      var r, iterations;
      r, iterations, p := Research(st);
      if r.NodeRaised? {
        return RunRaised, p;
      }
      if !RouteToAnalyst(r.st) {
        return Finished(r.st), p;
      }
      r := Analyse(r.st);
      if r.NodeRaised? {
        return RunRaised, p;
      }
      return Finished(r.st), p;
    }
  }
}
