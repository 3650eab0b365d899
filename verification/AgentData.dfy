/** The research workflow's data: what models and tools answer, what the nodes record, and which sources
    the record yields. */
module AgentData {
  import opened Basics
  import opened Sanitizer

  /** The tool that a call names: one of the four in the tool map, or none of them. */
  datatype Tool = MarketData | FinancialNews | MacroIndicators | SecFiling | Unknown(name: string)

  datatype ToolCall = ToolCall(tool: Tool, args: Json)

  datatype Usage = Usage(input: nat, output: nat)

  datatype Citation = Citation(sourceId: string, claim: string)

  /** A report as the model wrote it; `rest` stands for its other fields. */
  datatype Report = Report(citations: seq<Citation>, rest: Json)

  /** What a model's text turns out to be; `restOk` says whether the other fields pass their schema. */
  datatype Content = NotText | NotJson | NotAMapping | Draft(report: Report, restOk: bool)

  datatype Reply = Reply(calls: seq<ToolCall>, usage: Option<Usage>, content: Content)

  datatype Answer = Answered(reply: Reply) | ProviderFailed

  datatype ToolOutcome = Returned(value: Json) | ToolRaised(message: string)

  /** What a call leaves behind: a sanitized value, or an error dictionary made by the node itself. */
  datatype Result = Data(value: Json) | Problem(why: Why)

  datatype Why = NoSuchTool(name: string) | Raised(message: string) | Unsafe

  /** A log entry keeps the call's result; the program's log keeps the result's type name. */
  datatype LogEntry = LogEntry(tool: Tool, args: Json, result: Result, iteration: nat)

  /** A source record, with the content it was made from in place of the content's digest. */
  datatype Source = Source(sourceId: string, provider: Tool, content: Json)

  type Naming = (Tool, Json, Json) -> string

  /** The sanitizer with its settings, see `Screens`. */
  type Screen = Json -> Option<Json>

  ghost predicate Screens(screen: Screen, p: Policy) {
    forall v :: screen(v) == Sanitize(p, v)
  }

  predicate HasKey(entries: seq<Entry>, k: string) {
    exists e <- entries :: e.key == k
  }

  /** Tools may also return error dictionaries. */
  predicate IsError(r: Result) {
    r.Problem? || (r.value.Obj? && HasKey(r.value.entries, "error"))
  }

  /** Python's truth value. */
  predicate Truthy(v: Json) {
    match v
    case Lit(text) => text !in {"null", "false", "0", "0.0", "-0.0"}
    case Str(s) => s != ""
    case Arr(items) => items != []
    case Obj(entries) => entries != []
  }

  /** One source record for each element of a list result, one for any other result. */
  function SourceRecords(naming: Naming, tool: Tool, args: Json, result: Json): seq<Source> {
    var records := if result.Arr? then result.items else [result];
    seq(|records|, i requires 0 <= i < |records| => Source(naming(tool, args, records[i]), tool, records[i]))
  }

  predicate Usable(e: LogEntry) {
    !e.tool.Unknown? && !IsError(e.result) && Truthy(e.result.value)
  }

  // What one log entry contributes to each collection.

  function AnalysesOf(e: LogEntry): seq<Json> {
    if e.tool.MarketData? && !IsError(e.result) && e.result.value.Obj? then [e.result.value] else []
  }

  function NewsOf(e: LogEntry): seq<Json> {
    if e.tool.FinancialNews? && e.result.Data? && e.result.value.Arr? then e.result.value.items else []
  }

  function MacroOf(e: LogEntry): seq<Json> {
    if e.tool.MacroIndicators? && e.result.Data? && e.result.value.Arr? then e.result.value.items else []
  }

  function SourcesOf(naming: Naming, e: LogEntry): seq<Source> {
    if Usable(e) then SourceRecords(naming, e.tool, e.args, e.result.value) else []
  }

  datatype Gathered = Gathered(
    analyses: seq<Json>, news: seq<Json>, macro: seq<Json>, sources: seq<Source>, log: seq<LogEntry>)

  const NOTHING: Gathered := Gathered([], [], [], [], [])

  function File(naming: Naming, g: Gathered, e: LogEntry): Gathered {
    Gathered(g.analyses + AnalysesOf(e), g.news + NewsOf(e), g.macro + MacroOf(e),
             g.sources + SourcesOf(naming, e), g.log + [e])
  }

  function FileAll(naming: Naming, log: seq<LogEntry>): (g: Gathered)
    ensures g.log == log
  {
    if log == [] then NOTHING else File(naming, FileAll(naming, log[..|log| - 1]), log[|log| - 1])
  }

  /** The collections hold exactly what the logged calls contributed, in order. */
  predicate Filed(naming: Naming, g: Gathered) {
    g == FileAll(naming, g.log)
  }

  lemma FileKeeps(naming: Naming, g: Gathered, e: LogEntry)
    requires Filed(naming, g)
    ensures Filed(naming, File(naming, g, e))
  {
    assert (g.log + [e])[..|g.log|] == g.log;
  }

  /** Unknown tools, failures and unsafe content become errors. */
  function ToolResult(screen: Screen, tool: Tool, outcome: ToolOutcome): Result {
    if tool.Unknown? then Problem(NoSuchTool(tool.name))
    else match outcome
      case ToolRaised(message) => Problem(Raised(message))
      case Returned(value) => (match screen(value) case Some(v) => Data(v) case None => Problem(Unsafe))
  }

  /** A source stems from a logged, successful, non-empty call of a known tool. */
  predicate Grounded(naming: Naming, log: seq<LogEntry>, s: Source) {
    exists e <- log :: FromEntry(naming, e, s)
  }

  predicate FromEntry(naming: Naming, e: LogEntry, s: Source) {
    Usable(e) && s in SourceRecords(naming, e.tool, e.args, e.result.value)
  }

  lemma {:induction false} SourcesFromLog(naming: Naming, log: seq<LogEntry>, s: Source)
    ensures s in FileAll(naming, log).sources <==> Grounded(naming, log, s)
    decreases |log|
  {
    if log != [] {
      SourcesFromLog(naming, log[..|log| - 1], s);
      LastEntry(naming, log, s);
    }
  }

  lemma LastEntry(naming: Naming, log: seq<LogEntry>, s: Source)
    requires log != []
    requires var front := log[..|log| - 1]; s in FileAll(naming, front).sources <==> Grounded(naming, front, s)
    ensures s in FileAll(naming, log).sources <==> Grounded(naming, log, s)
  {
    var front, last := log[..|log| - 1], log[|log| - 1];
    GroundedLast(naming, log, s);
    FiledLast(naming, FileAll(naming, front), last, s);
  }

  lemma FiledLast(naming: Naming, g: Gathered, last: LogEntry, s: Source)
    ensures s in File(naming, g, last).sources <==> s in g.sources || FromEntry(naming, last, s)
  {
  }

  lemma GroundedLast(naming: Naming, log: seq<LogEntry>, s: Source)
    requires log != []
    ensures Grounded(naming, log, s) <==>
            Grounded(naming, log[..|log| - 1], s) || FromEntry(naming, log[|log| - 1], s)
  {
    var front, last := log[..|log| - 1], log[|log| - 1];
    if Grounded(naming, log, s) {
      var e :| e in log && FromEntry(naming, e, s);
      assert e in front || e == last;
    }
    if Grounded(naming, front, s) {
      var e :| e in front && FromEntry(naming, e, s);
      assert e in log;
    }
    if FromEntry(naming, last, s) { assert last in log; }
  }

  /** The same for the other three collections, entry by entry. */
  predicate GivesAnalysis(e: LogEntry, v: Json) {
    && e.tool == MarketData && e.result == Data(v)
    && v.Obj? && forall x <- v.entries :: x.key != "error"
  }

  predicate GivesItem(e: LogEntry, tool: Tool, v: Json) {
    e.tool == tool && e.result.Data? && e.result.value.Arr? && v in e.result.value.items
  }

  lemma {:induction false} AnyLast(log: seq<LogEntry>, gives: LogEntry -> bool)
    requires log != []
    ensures (exists e <- log :: gives(e)) <==> (exists e <- log[..|log| - 1] :: gives(e)) || gives(log[|log| - 1])
  {
    var front, last := log[..|log| - 1], log[|log| - 1];
    if e :| e in log && gives(e) { assert e in front || e == last; }
    if e :| e in front && gives(e) { assert e in log; }
    assert last in log;
  }

  lemma FileGives(naming: Naming, g: Gathered, e: LogEntry, v: Json)
    ensures var h := File(naming, g, e);
      && (v in h.analyses <==> v in g.analyses || GivesAnalysis(e, v))
      && (v in h.news <==> v in g.news || GivesItem(e, FinancialNews, v))
      && (v in h.macro <==> v in g.macro || GivesItem(e, MacroIndicators, v))
  {
  }

  /** An analysis is the error-free dictionary of a logged market-data call, a news item an element of the list
      of a logged news call, a macro indicator an element of the list of a logged macro call. */
  lemma {:induction false} CollectedFromLog(naming: Naming, log: seq<LogEntry>, v: Json)
    ensures var g := FileAll(naming, log);
      && (v in g.analyses <==> exists e <- log :: GivesAnalysis(e, v))
      && (v in g.news <==> exists e <- log :: GivesItem(e, FinancialNews, v))
      && (v in g.macro <==> exists e <- log :: GivesItem(e, MacroIndicators, v))
    decreases |log|
  {
    if log != [] {
      var front, last := log[..|log| - 1], log[|log| - 1];
      CollectedFromLog(naming, front, v);
      FileGives(naming, FileAll(naming, front), last, v);
      AnyLast(log, e => GivesAnalysis(e, v));
      AnyLast(log, e => GivesItem(e, FinancialNews, v));
      AnyLast(log, e => GivesItem(e, MacroIndicators, v));
      assert FileAll(naming, log) == File(naming, FileAll(naming, front), last);
    }
  }

  lemma {:induction false} FiledPrefix(naming: Naming, log: seq<LogEntry>, k: nat)
    requires k <= |log|
    ensures var part, all := FileAll(naming, log[..k]), FileAll(naming, log);
      part.analyses <= all.analyses && part.news <= all.news && part.macro <= all.macro && part.sources <= all.sources
    decreases |log|
  {
    if k == |log| {
      assert log[..k] == log;
    } else {
      FiledPrefix(naming, log[..|log| - 1], k);
      assert log[..|log| - 1][..k] == log[..k];
    }
  }

  lemma FiledStep(naming: Naming, log: seq<LogEntry>, k: nat)
    requires k < |log|
    ensures FileAll(naming, log[..k + 1]) == File(naming, FileAll(naming, log[..k]), log[k])
  {
    var part := log[..k + 1];
    assert part[..|part| - 1] == log[..k] && part[|part| - 1] == log[k];
  }

  lemma FileAdds(naming: Naming, g: Gathered, e: LogEntry)
    ensures var h := File(naming, g, e);
      && h.analyses == g.analyses + (match e
           case LogEntry(MarketData, _, Data(Obj(entries)), _) =>
             if exists x <- entries :: x.key == "error" then [] else [Obj(entries)]
           case _ => [])
      && h.news == g.news + (match e
           case LogEntry(FinancialNews, _, Data(Arr(items)), _) => items
           case _ => [])
      && h.macro == g.macro + (match e
           case LogEntry(MacroIndicators, _, Data(Arr(items)), _) => items
           case _ => [])
  {
  }

  /** The collections are in the order of the log: each entry adds what it gives, and no more, behind what the
      entries before it gave. */
  lemma FiledInOrder(naming: Naming, log: seq<LogEntry>, k: nat)
    requires k < |log|
    ensures var e, was, now := log[k], FileAll(naming, log[..k]), FileAll(naming, log[..k + 1]);
      && now.analyses == was.analyses + (match e
           case LogEntry(MarketData, _, Data(Obj(entries)), _) =>
             if exists x <- entries :: x.key == "error" then [] else [Obj(entries)]
           case _ => [])
      && now.news == was.news + (match e
           case LogEntry(FinancialNews, _, Data(Arr(items)), _) => items
           case _ => [])
      && now.macro == was.macro + (match e
           case LogEntry(MacroIndicators, _, Data(Arr(items)), _) => items
           case _ => [])
    ensures var now, all := FileAll(naming, log[..k + 1]), FileAll(naming, log);
      now.analyses <= all.analyses && now.news <= all.news && now.macro <= all.macro
    ensures var empty := FileAll(naming, []); empty.analyses == empty.news == empty.macro == []
  {
    FiledStep(naming, log, k);
    FileAdds(naming, FileAll(naming, log[..k]), log[k]);
    FiledPrefix(naming, log, k + 1);
  }

  /** What Python takes for false. */
  predicate Empty(v: Json) {
    v in {Str(""), Arr([]), Obj([]), Lit("null"), Lit("false"), Lit("0"), Lit("0.0"), Lit("-0.0")}
  }

  lemma SourcesAdded(naming: Naming, g: Gathered, e: LogEntry)
    ensures SourcesGiven(naming, e, g.sources, File(naming, g, e).sources)
  {
    if e.result.Data? && !e.tool.Unknown? {
      EmptyIffFalse(e.result.value);
      RecordsOf(naming, e.tool, e.args, e.result.value);
      assert Usable(e) <==> !(Empty(e.result.value)
                              || (e.result.value.Obj? && exists x <- e.result.value.entries :: x.key == "error"));
    }
  }

  lemma RecordsOf(naming: Naming, tool: Tool, args: Json, v: Json)
    ensures var r := SourceRecords(naming, tool, args, v);
      if v.Arr? then
        |r| == |v.items| && forall i :: 0 <= i < |r| ==> r[i] == Source(naming(tool, args, v.items[i]), tool, v.items[i])
      else r == [Source(naming(tool, args, v), tool, v)]
  {
  }

  /** A known tool's result that is neither an error nor empty adds one source for each element of a list, or
      one for the whole result. */
  predicate SourcesGiven(naming: Naming, e: LogEntry, was: seq<Source>, now: seq<Source>) {
    match e
    case LogEntry(Unknown(_), _, _, _) => now == was
    case LogEntry(_, _, Problem(_), _) => now == was
    case LogEntry(tool, args, Data(v), _) =>
      if Empty(v) || (v.Obj? && exists x <- v.entries :: x.key == "error") then now == was
      else if v.Arr? then
        && was <= now && |now| == |was| + |v.items|
        && forall i :: 0 <= i < |v.items| ==> now[|was| + i] == Source(naming(tool, args, v.items[i]), tool, v.items[i])
      else now == was + [Source(naming(tool, args, v), tool, v)]
  }

  /** The registry is in the order of the log, too. */
  lemma SourcesInOrder(naming: Naming, log: seq<LogEntry>, k: nat)
    requires k < |log|
    ensures var was, now := FileAll(naming, log[..k]).sources, FileAll(naming, log[..k + 1]).sources;
      SourcesGiven(naming, log[k], was, now) && now <= FileAll(naming, log).sources
    ensures FileAll(naming, []).sources == []
  {
    FiledStep(naming, log, k);
    SourcesAdded(naming, FileAll(naming, log[..k]), log[k]);
    FiledPrefix(naming, log, k + 1);
  }

  lemma EmptyIffFalse(v: Json)
    ensures Empty(v) <==> !Truthy(v)
  {
  }

  /** A call's result is data if and only if its tool is known and answered, and the screened answer passed;
      then it is that screened answer. Otherwise the result says why not. */
  lemma ResultMeans(screen: Screen, tool: Tool, outcome: ToolOutcome)
    ensures var r := ToolResult(screen, tool, outcome);
      && (forall v :: r == Data(v) <==> !tool.Unknown? && outcome.Returned? && screen(outcome.value) == Some(v))
      && (r.Problem? ==>
            && (r.why.NoSuchTool? <==> tool.Unknown?) && (r.why.NoSuchTool? ==> r.why.name == tool.name)
            && (r.why.Raised? <==> !tool.Unknown? && outcome.ToolRaised?)
            && (r.why.Raised? ==> r.why.message == outcome.message))
  {
  }

  // Model calls: each provider in turn, until one answers or the budget is spent.

  /** The number of invocations and the answer, when `providers` remain and `left` calls may still be made;
      `answers(n)` is the outcome of the n-th invocation overall. */
  function Fallback(answers: nat -> Answer, next: nat, providers: nat, left: nat): (nat, Option<Reply>)
    decreases providers
  {
    if providers == 0 || left == 0 then (0, None)
    else match answers(next)
      case Answered(reply) => (1, Some(reply))
      case ProviderFailed =>
        var (used, got) := Fallback(answers, next + 1, providers - 1, left - 1);
        (used + 1, got)
  }

  function Least(a: nat, b: nat): nat {
    if a <= b then a else b
  }

  function Most(a: nat, b: nat): nat {
    if a >= b then a else b
  }

  /** All invocations but the last failed; the last answered, or there was no provider or budget left. */
  lemma {:induction false} FallbackMeans(answers: nat -> Answer, next: nat, providers: nat, left: nat)
    ensures var (used, got) := Fallback(answers, next, providers, left);
      && used <= Least(providers, left)
      && (match got
          case Some(reply) =>
            && used >= 1 && answers(next + used - 1) == Answered(reply)
            && forall k :: next <= k < next + used - 1 ==> answers(k).ProviderFailed?
          case None =>
            used == Least(providers, left) && forall k :: next <= k < next + used ==> answers(k).ProviderFailed?)
    decreases providers
  {
    if providers > 0 && left > 0 && answers(next).ProviderFailed? {
      FallbackMeans(answers, next + 1, providers - 1, left - 1);
    }
  }

  /** Nobody answers if and only if the first invocations fail, as many as providers and budget allow; and then
      every provider was tried if and only if the budget covers them all. */
  lemma {:induction false} NobodyAnswers(answers: nat -> Answer, next: nat, providers: nat, left: nat)
    ensures var (used, got) := Fallback(answers, next, providers, left);
      && (got.None? <==> forall k :: next <= k < next + Least(providers, left) ==> answers(k).ProviderFailed?)
      && (got.None? ==> (used == providers <==> providers <= left))
    decreases providers
  {
    if providers > 0 && left > 0 {
      if answers(next).ProviderFailed? {
        NobodyAnswers(answers, next + 1, providers - 1, left - 1);
      } else {
        assert next < next + Least(providers, left);
      }
    }
  }

  /** A tool call with the iteration in which it was asked for. */
  datatype Asked = Asked(call: ToolCall, iteration: nat)

  function Tagged(calls: seq<ToolCall>, iteration: nat): seq<Asked> {
    seq(|calls|, i requires 0 <= i < |calls| => Asked(calls[i], iteration))
  }

  /** How many of the invocations from `first` up to `next` were answered. */
  function AnswersIn(answers: nat -> Answer, first: nat, next: nat): nat
    decreases next
  {
    if next <= first then 0 else AnswersIn(answers, first, next - 1) + if answers(next - 1).Answered? then 1 else 0
  }

  /** The tool calls asked for by the model invocations from `first` up to `next`; each answer makes an
      iteration. */
  function CallsAsked(answers: nat -> Answer, first: nat, next: nat): seq<Asked>
    decreases next
  {
    if next <= first then []
    else CallsAsked(answers, first, next - 1)
         + match answers(next - 1)
           case Answered(reply) => Tagged(reply.calls, AnswersIn(answers, first, next))
           case ProviderFailed => []
  }

  lemma {:induction false} FailuresAskNothing(answers: nat -> Answer, first: nat, from: nat, next: nat)
    requires first <= from <= next && forall k :: from <= k < next ==> answers(k).ProviderFailed?
    ensures CallsAsked(answers, first, next) == CallsAsked(answers, first, from)
    ensures UsageOf(answers, first, next) == UsageOf(answers, first, from)
    ensures AnswersIn(answers, first, next) == AnswersIn(answers, first, from)
    decreases next
  {
    if next > from {
      FailuresAskNothing(answers, first, from, next - 1);
    }
  }

  /** A round asks for what its answer asks for. */
  lemma RoundAsks(answers: nat -> Answer, first: nat, from: nat, providers: nat, left: nat)
    requires first <= from
    ensures var (used, got) := Fallback(answers, from, providers, left);
      CallsAsked(answers, first, from + used) == CallsAsked(answers, first, from)
        + if got.Some? then Tagged(got.value.calls, AnswersIn(answers, first, from) + 1) else []
  {
    var (used, got) := Fallback(answers, from, providers, left);
    FallbackMeans(answers, from, providers, left);
    FailuresAskNothing(answers, first, from, from + used - if got.Some? then 1 else 0);
  }

  /** The usage reported by the model invocations from `first` up to `next`. */
  function UsageOf(answers: nat -> Answer, first: nat, next: nat): Usage
    decreases next
  {
    if next <= first then Usage(0, 0) else
      var u := UsageOf(answers, first, next - 1);
      match answers(next - 1)
      case Answered(Reply(_, Some(v), _)) => Usage(u.input + v.input, u.output + v.output)
      case _ => u
  }

  /** A round has one answer, the last of its invocations, or none; only that one costs tokens. */
  lemma RoundCosts(answers: nat -> Answer, first: nat, from: nat, providers: nat, left: nat)
    requires first <= from
    ensures var (used, got) := Fallback(answers, from, providers, left);
      var u, usage := UsageOf(answers, first, from), if got.Some? && got.value.usage.Some? then got.value.usage.value else Usage(0, 0);
      && UsageOf(answers, first, from + used) == Usage(u.input + usage.input, u.output + usage.output)
      && AnswersIn(answers, first, from + used) == AnswersIn(answers, first, from) + if got.Some? then 1 else 0
  {
    var (used, got) := Fallback(answers, from, providers, left);
    FallbackMeans(answers, from, providers, left);
    FailuresAskNothing(answers, first, from, from + used - if got.Some? then 1 else 0);
  }

  // The analyst's verdict on an answer.

  predicate IsHex(c: char) {
    '0' <= c <= '9' || 'a' <= c <= 'f'
  }

  predicate CitationOk(c: Citation) {
    && |c.sourceId| == 16 && c.sourceId[..4] == "src_" && (forall d <- c.sourceId[4..] :: IsHex(d))
    && 1 <= |c.claim| <= 500
  }

  predicate Validates(r: Report, restOk: bool) {
    restOk && 1 <= |r.citations| <= 50 && forall c <- r.citations :: CitationOk(c)
  }

  predicate Registered(r: Report, sources: seq<Source>) {
    forall c <- r.citations :: exists s <- sources :: s.sourceId == c.sourceId
  }

  datatype Verdict = Accepted(report: Report) | Denied(error: string)

  const BUDGET_EXHAUSTED: string := "Per-job model-call budget exhausted"
  const GENERATION_FAILED: string := "Report generation failed."

  function Judge(sources: seq<Source>, content: Content): Verdict {
    match content
    case NotText => Denied("Analyst response must be plain JSON text")
    case NotJson => Denied("Model returned invalid report JSON.")
    case NotAMapping => Denied(GENERATION_FAILED)
    case Draft(report, restOk) =>
      if !Validates(report, restOk) then Denied("Model report failed schema validation.")
      else if !Registered(report, sources) then Denied("Report cited a source outside the supplied registry")
      else Accepted(report)
  }

  datatype AgentState = AgentState(
    query: string, tickers: seq<string>, depth: string, gathered: Gathered,
    modelCalls: nat, inputTokens: nat, outputTokens: nat, report: Option<Report>, error: Option<string>)

  predicate HasError(st: AgentState) {
    st.error.Some? && st.error.value != ""
  }

  function ResearchError(g: Gathered): Option<string> {
    if g.analyses == [] && g.news == [] then Some("No research data was available from the configured providers.")
    else if g.sources == [] then Some("Research data lacked verifiable source provenance.")
    else None
  }
}
