/** The research node as a function of what models and tools answer: its budgets, its log, and the sources
    that it registers. */
module ResearchSpec {
  import opened Basics
  import opened Sanitizer
  import opened AgentData

  datatype Limits = Limits(maxIterations: nat, maxModelCalls: nat, maxToolCalls: nat)

  /** The surroundings of a run: `answers(n)` and `outcomes(n)` are what the n-th model and the n-th tool
      invocation yield. */
  datatype World = World(
    limits: Limits, providers: nat, answers: nat -> Answer, outcomes: nat -> ToolOutcome,
    naming: Naming, screen: Screen)

  /** The node's variables, with the invocations that have taken place so far. */
  datatype Progress = Progress(
    g: Gathered, models: nat, tools: nat, iterations: nat, modelCalls: nat, input: nat, output: nat)

  function CallsLeft(w: World, modelCalls: nat): nat {
    if modelCalls <= w.limits.maxModelCalls then w.limits.maxModelCalls - modelCalls else 0
  }

  function MakeCall(w: World, p: Progress, c: ToolCall): Progress {
    p.(g := File(w.naming, p.g, LogEntry(c.tool, c.args, ToolResult(w.screen, c.tool, w.outcomes(p.tools)), p.iterations)),
       tools := p.tools + if c.tool.Unknown? then 0 else 1)
  }

  /** The calls are made in order until the budget is spent. */
  function MakeCalls(w: World, p: Progress, calls: seq<ToolCall>): (p': Progress)
    ensures p' == p.(g := p'.g, tools := p'.tools)
    decreases |calls|
  {
    if calls == [] || |p.g.log| >= w.limits.maxToolCalls then p
    else MakeCalls(w, MakeCall(w, p, calls[0]), calls[1..])
  }

  /** One more iteration: ask the models. */
  function Ask(w: World, p: Progress): (Progress, Option<Reply>) {
    var (used, got) := Fallback(w.answers, p.models, w.providers, CallsLeft(w, p.modelCalls));
    var usage := if got.Some? && got.value.usage.Some? then got.value.usage.value else Usage(0, 0);
    (p.(iterations := p.iterations + 1, models := p.models + used, modelCalls := p.modelCalls + used,
        input := p.input + usage.input, output := p.output + usage.output), got)
  }

  /** The rest of the node; false if it raises. */
  function Rounds(w: World, p: Progress): (Progress, bool)
    decreases w.limits.maxIterations - p.iterations
  {
    if p.iterations >= w.limits.maxIterations || p.modelCalls >= w.limits.maxModelCalls then (p, true) else
      var (p1, got) := Ask(w, p);
      if got.None? then (p1, false)
      else if got.value.calls == [] then (p1, true)
      else Rounds(w, MakeCalls(w, p1, got.value.calls))
  }

  function Begin(models: nat, tools: nat, st: AgentState): Progress {
    Progress(NOTHING, models, tools, 0, st.modelCalls, st.inputTokens, st.outputTokens)
  }

  /** Data results are sanitized values; errors are not. */
  ghost predicate EntryOk(w: World, iterations: nat, e: LogEntry) {
    && 1 <= e.iteration <= iterations
    && (e.result.Data? ==> !e.tool.Unknown? && exists raw :: w.screen(raw) == Some(e.result.value))
  }

  /** The accounts and the collections of a node that began at `p0`. */
  ghost predicate Kept(w: World, p0: Progress, p: Progress) {
    && p.models >= p0.models && p.modelCalls == p0.modelCalls + p.models - p0.models
    && p.modelCalls <= Most(p0.modelCalls, w.limits.maxModelCalls)
    && p.iterations <= w.limits.maxIterations
    && |p.g.log| <= w.limits.maxToolCalls
    && p0.tools <= p.tools <= p0.tools + |p.g.log|
    && Filed(w.naming, p.g)
    && forall e <- p.g.log :: EntryOk(w, p.iterations, e)
  }

  lemma CallKeeps(w: World, p0: Progress, p: Progress, c: ToolCall)
    requires Kept(w, p0, p) && |p.g.log| < w.limits.maxToolCalls && p.iterations >= 1
    ensures Kept(w, p0, MakeCall(w, p, c))
  {
    var p' := MakeCall(w, p, c);
    var e := p'.g.log[|p.g.log|];
    FileKeeps(w.naming, p.g, e);
    CallEntryOk(w, p, c);
    assert p'.g.log == p.g.log + [e];
  }

  lemma CallEntryOk(w: World, p: Progress, c: ToolCall)
    requires p.iterations >= 1
    ensures var log := MakeCall(w, p, c).g.log; EntryOk(w, p.iterations, log[|p.g.log|])
  {
    var outcome := w.outcomes(p.tools);
    if outcome.Returned? && w.screen(outcome.value).Some? {
      assert w.screen(outcome.value) == Some(w.screen(outcome.value).value);
    }
  }

  lemma {:induction false} CallsKeep(w: World, p0: Progress, p: Progress, calls: seq<ToolCall>)
    requires Kept(w, p0, p) && p.iterations >= 1
    ensures Kept(w, p0, MakeCalls(w, p, calls))
    decreases |calls|
  {
    if calls != [] && |p.g.log| < w.limits.maxToolCalls {
      CallKeeps(w, p0, p, calls[0]);
      CallsKeep(w, p0, MakeCall(w, p, calls[0]), calls[1..]);
    }
  }

  lemma AskKeeps(w: World, p0: Progress, p: Progress)
    requires Kept(w, p0, p) && p.iterations < w.limits.maxIterations && p.modelCalls < w.limits.maxModelCalls
    ensures Kept(w, p0, Ask(w, p).0)
  {
    FallbackMeans(w.answers, p.models, w.providers, CallsLeft(w, p.modelCalls));
  }

  /** The whole node keeps the accounts: every model invocation is counted and within the budget, so are the
      tool calls, and the collections are exactly what the logged calls contributed. */
  lemma {:induction false} RoundsKeep(w: World, p0: Progress, p: Progress)
    requires Kept(w, p0, p)
    ensures Kept(w, p0, Rounds(w, p).0)
    decreases w.limits.maxIterations - p.iterations
  {
    if p.iterations < w.limits.maxIterations && p.modelCalls < w.limits.maxModelCalls {
      AskKeeps(w, p0, p);
      var (p1, got) := Ask(w, p);
      if got.Some? && got.value.calls != [] {
        CallsKeep(w, p0, p1, got.value.calls);
        RoundsKeep(w, p0, MakeCalls(w, p1, got.value.calls));
      }
    }
  }

  lemma BeginKept(w: World, models: nat, tools: nat, st: AgentState)
    ensures var p := Begin(models, tools, st); Kept(w, p, p)
  {
  }

  /** The node raises only right after an invocation that failed. */
  lemma {:induction false} RaisesAfterFailure(w: World, p: Progress)
    requires w.providers >= 1 && !Rounds(w, p).1
    ensures var m := Rounds(w, p).0.models; m > p.models && w.answers(m - 1).ProviderFailed?
    decreases w.limits.maxIterations - p.iterations
  {
    var (p1, got) := Ask(w, p);
    AskUses(w, p);
    if got.Some? {
      RaisesAfterFailure(w, MakeCalls(w, p1, got.value.calls));
    }
  }

  lemma AskUses(w: World, p: Progress)
    requires w.providers >= 1 && p.modelCalls < w.limits.maxModelCalls
    ensures var (p1, got) := Ask(w, p);
      p1.models > p.models && (got.None? ==> w.answers(p1.models - 1).ProviderFailed?)
  {
    FallbackMeans(w.answers, p.models, w.providers, CallsLeft(w, p.modelCalls));
  }

  // What it means that the node raises: "all configured providers failed".

  /** A round raises. */
  predicate RaisesAt(w: World, p: Progress) {
    p.iterations < w.limits.maxIterations && p.modelCalls < w.limits.maxModelCalls && Ask(w, p).1.None?
  }

  /** The node's variables at the start of the round that raises. */
  function LastRound(w: World, p: Progress): (q: Progress)
    requires !Rounds(w, p).1
    ensures RaisesAt(w, q) && Rounds(w, p).0 == Ask(w, q).0
    decreases w.limits.maxIterations - p.iterations
  {
    var (p1, got) := Ask(w, p);
    if got.None? then p else LastRound(w, MakeCalls(w, p1, got.value.calls))
  }

  /** A round that may ask raises if and only if the invocations that its budget allows all fail. */
  lemma RaisesExactly(w: World, p: Progress)
    requires p.iterations < w.limits.maxIterations && p.modelCalls < w.limits.maxModelCalls
    ensures RaisesAt(w, p) <==>
            forall k :: p.models <= k < p.models + Least(w.providers, w.limits.maxModelCalls - p.modelCalls) ==>
              w.answers(k).ProviderFailed?
  {
    NobodyAnswers(w.answers, p.models, w.providers, CallsLeft(w, p.modelCalls));
  }

  /** The node says that all providers failed. Those that it tried in its last round did; and it tried all of
      them if and only if the budget left at the start of that round covers them. */
  lemma AllFailedExactly(w: World, p: Progress)
    requires !Rounds(w, p).1
    ensures var q, m := LastRound(w, p), Rounds(w, p).0.models;
      && q.models <= m <= q.models + w.providers
      && (forall k :: q.models <= k < m ==> w.answers(k).ProviderFailed?)
      && (m == q.models + w.providers <==> q.modelCalls + w.providers <= w.limits.maxModelCalls)
  {
    var q := LastRound(w, p);
    FallbackMeans(w.answers, q.models, w.providers, CallsLeft(w, q.modelCalls));
    NobodyAnswers(w.answers, q.models, w.providers, CallsLeft(w, q.modelCalls));
  }

  const NEW_JOB: AgentState := AgentState("q", ["T"], "quick", NOTHING, 0, 0, 0, None, None)

  /** Two providers, a budget of one model call, and only the first provider down. */
  function OneCallForTwo(outcomes: nat -> ToolOutcome, naming: Naming, screen: Screen): World {
    World(Limits(5, 1, 10), 2,
          n => if n == 0 then ProviderFailed else Answered(Reply([], None, NotText)), outcomes, naming, screen)
  }

  /** The node raises after one invocation, although the second provider would have answered. */
  lemma RaisesTooSoon(outcomes: nat -> ToolOutcome, naming: Naming, screen: Screen)
    ensures var w, p := OneCallForTwo(outcomes, naming, screen), Begin(0, 0, NEW_JOB);
      && !Rounds(w, p).1 && Rounds(w, p).0.models == 1 < w.providers
      && w.answers(1).Answered?
  {
    var w, p := OneCallForTwo(outcomes, naming, screen), Begin(0, 0, NEW_JOB);
    assert Fallback(w.answers, 1, 1, 0) == (0, None);
    assert Fallback(w.answers, 0, 2, 1) == (1, None);
    assert Ask(w, p).1 == None;
  }

  // The log follows the calls that the models asked for.

  predicate SameCall(e: LogEntry, c: Asked) {
    e.tool == c.call.tool && e.args == c.call.args && e.iteration == c.iteration
  }

  /** The first calls asked for, as many as the limit allows, in order. */
  predicate Follows(log: seq<LogEntry>, asked: seq<Asked>, limit: nat) {
    |log| == Least(|asked|, limit) && forall i :: 0 <= i < |log| ==> SameCall(log[i], asked[i])
  }

  lemma CallFollows(w: World, p: Progress, asked: seq<Asked>, c: ToolCall)
    requires Follows(p.g.log, asked, w.limits.maxToolCalls) && |p.g.log| < w.limits.maxToolCalls
    ensures Follows(MakeCall(w, p, c).g.log, asked + [Asked(c, p.iterations)], w.limits.maxToolCalls)
  {
    var log := MakeCall(w, p, c).g.log;
    forall i | 0 <= i < |log| ensures SameCall(log[i], (asked + [Asked(c, p.iterations)])[i]) {
      if i < |p.g.log| { assert SameCall(p.g.log[i], asked[i]); }
    }
  }

  lemma AskedInVain(log: seq<LogEntry>, asked: seq<Asked>, more: seq<Asked>, limit: nat)
    requires Follows(log, asked, limit) && |log| >= limit
    ensures Follows(log, asked + more, limit)
  {
    forall i | 0 <= i < |log| ensures SameCall(log[i], (asked + more)[i]) {
      assert SameCall(log[i], asked[i]);
    }
  }

  lemma {:induction false} CallsFollow(w: World, p: Progress, asked: seq<Asked>, calls: seq<ToolCall>)
    requires Follows(p.g.log, asked, w.limits.maxToolCalls)
    ensures Follows(MakeCalls(w, p, calls).g.log, asked + Tagged(calls, p.iterations), w.limits.maxToolCalls)
    decreases |calls|
  {
    var tagged := Tagged(calls, p.iterations);
    if calls == [] {
      assert asked + tagged == asked;
    } else if |p.g.log| >= w.limits.maxToolCalls {
      AskedInVain(p.g.log, asked, tagged, w.limits.maxToolCalls);
    } else {
      CallFollows(w, p, asked, calls[0]);
      CallsFollow(w, MakeCall(w, p, calls[0]), asked + [tagged[0]], calls[1..]);
      Regroup(asked, [tagged[0]], tagged[1..]);
      assert [tagged[0]] + tagged[1..] == tagged && Tagged(calls[1..], p.iterations) == tagged[1..];
    }
  }

  lemma AskFollows(w: World, first: nat, p: Progress)
    requires first <= p.models && p.iterations == AnswersIn(w.answers, first, p.models)
    ensures var (p1, got) := Ask(w, p);
      && CallsAsked(w.answers, first, p1.models)
         == CallsAsked(w.answers, first, p.models) + (if got.Some? then Tagged(got.value.calls, p1.iterations) else [])
      && (got.Some? ==> p1.iterations == AnswersIn(w.answers, first, p1.models))
  {
    RoundAsks(w.answers, first, p.models, w.providers, CallsLeft(w, p.modelCalls));
    RoundCosts(w.answers, first, p.models, w.providers, CallsLeft(w, p.modelCalls));
  }

  /** The node's log is exactly the first calls that its answering models asked for, each with the
      iteration in which it was asked for. */
  lemma {:induction false} LogFollowsModels(w: World, first: nat, p: Progress)
    requires first <= p.models && p.iterations == AnswersIn(w.answers, first, p.models)
    requires Follows(p.g.log, CallsAsked(w.answers, first, p.models), w.limits.maxToolCalls)
    ensures var p' := Rounds(w, p).0; Follows(p'.g.log, CallsAsked(w.answers, first, p'.models), w.limits.maxToolCalls)
    decreases w.limits.maxIterations - p.iterations
  {
    if p.iterations < w.limits.maxIterations && p.modelCalls < w.limits.maxModelCalls {
      AskFollows(w, first, p);
      var (p1, got) := Ask(w, p);
      var asked := CallsAsked(w.answers, first, p.models);
      if got.None? {
        assert asked + [] == asked;
      } else if got.value.calls == [] {
        assert asked + Tagged([], p1.iterations) == asked;
      } else {
        CallsFollow(w, p1, asked, got.value.calls);
        LogFollowsModels(w, first, MakeCalls(w, p1, got.value.calls));
      }
    }
  }

  // When the node ends, and what it has counted by then.

  /** The accounts of a node whose first invocation had number `first`. */
  predicate Costs(w: World, first: nat, st: AgentState, p: Progress, raised: nat) {
    && first <= p.models
    && p.input == st.inputTokens + UsageOf(w.answers, first, p.models).input
    && p.output == st.outputTokens + UsageOf(w.answers, first, p.models).output
    && p.iterations == AnswersIn(w.answers, first, p.models) + raised
  }

  lemma AskCosts(w: World, first: nat, st: AgentState, p: Progress)
    requires Costs(w, first, st, p, 0)
    ensures var (p1, got) := Ask(w, p); Costs(w, first, st, p1, if got.Some? then 0 else 1)
  {
    RoundCosts(w.answers, first, p.models, w.providers, CallsLeft(w, p.modelCalls));
  }

  /** The tokens are those that the answering models reported, and there is one iteration for each answer, and
      one more if the node raises. */
  lemma {:induction false} RoundsCost(w: World, first: nat, st: AgentState, p: Progress)
    requires Costs(w, first, st, p, 0)
    ensures var (p', ok) := Rounds(w, p); Costs(w, first, st, p', if ok then 0 else 1)
    decreases w.limits.maxIterations - p.iterations
  {
    if p.iterations < w.limits.maxIterations && p.modelCalls < w.limits.maxModelCalls {
      AskCosts(w, first, st, p);
      var (p1, got) := Ask(w, p);
      if got.Some? && got.value.calls != [] {
        RoundsCost(w, first, st, MakeCalls(w, p1, got.value.calls));
      }
    }
  }

  /** An answer that asks for no tool. */
  predicate Satisfied(a: Answer) {
    a.Answered? && a.reply.calls == []
  }

  /** No answer but the last is satisfied. */
  predicate GoesOn(answers: nat -> Answer, from: nat, to: nat) {
    forall k :: from <= k < to - 1 ==> !Satisfied(answers(k))
  }

  lemma GoesFurther(answers: nat -> Answer, a: nat, b: nat, c: nat)
    requires a < b <= c && GoesOn(answers, a, b) && !Satisfied(answers(b - 1)) && GoesOn(answers, b, c)
    ensures GoesOn(answers, a, c)
  {
  }

  lemma AskEnds(w: World, p: Progress)
    ensures var (p1, got) := Ask(w, p);
      && p1.models >= p.models && GoesOn(w.answers, p.models, p1.models)
      && (got.Some? ==> p1.models > p.models && w.answers(p1.models - 1) == Answered(got.value))
  {
    FallbackMeans(w.answers, p.models, w.providers, CallsLeft(w, p.modelCalls));
  }

  /** The node goes on as long as answers ask for tools and the limits allow it: no answer but the last is
      satisfied; and a node that ends without one has used up its iterations or its model budget, or raises. */
  lemma {:induction false} RoundsEnd(w: World, p: Progress)
    ensures var (p', ok) := Rounds(w, p);
      && p'.models >= p.models
      && GoesOn(w.answers, p.models, p'.models)
      && (ok ==>
            || p'.iterations >= w.limits.maxIterations || p'.modelCalls >= w.limits.maxModelCalls
            || (p'.models > p.models && Satisfied(w.answers(p'.models - 1))))
    decreases w.limits.maxIterations - p.iterations
  {
    if p.iterations < w.limits.maxIterations && p.modelCalls < w.limits.maxModelCalls {
      AskEnds(w, p);
      var (p1, got) := Ask(w, p);
      if got.Some? && got.value.calls != [] {
        RoundsEnd(w, MakeCalls(w, p1, got.value.calls));
        GoesFurther(w.answers, p.models, p1.models, Rounds(w, p).0.models);
      }
    }
  }

  // Which tool answered which call.

  function Invoked(log: seq<LogEntry>): nat {
    if log == [] then 0 else Invoked(log[..|log| - 1]) + if log[|log| - 1].tool.Unknown? then 0 else 1
  }

  predicate ResultAt(w: World, first: nat, log: seq<LogEntry>, i: nat)
    requires i < |log|
  {
    log[i].result == ToolResult(w.screen, log[i].tool, w.outcomes(first + Invoked(log[..i])))
  }

  /** Each logged result is what the next tool invocation yielded; unknown tools cost none. */
  predicate Matched(w: World, first: nat, p: Progress) {
    p.tools == first + Invoked(p.g.log) && forall i :: 0 <= i < |p.g.log| ==> ResultAt(w, first, p.g.log, i)
  }

  lemma CallMatches(w: World, first: nat, p: Progress, c: ToolCall)
    requires Matched(w, first, p)
    ensures Matched(w, first, MakeCall(w, p, c))
  {
    var p' := MakeCall(w, p, c);
    var log, log' := p.g.log, p'.g.log;
    assert log'[..|log|] == log;
    forall i | 0 <= i < |log'| ensures ResultAt(w, first, log', i) {
      if i < |log| {
        assert ResultAt(w, first, log, i) && log'[..i] == log[..i];
      }
    }
  }

  lemma {:induction false} CallsMatch(w: World, first: nat, p: Progress, calls: seq<ToolCall>)
    requires Matched(w, first, p)
    ensures Matched(w, first, MakeCalls(w, p, calls))
    decreases |calls|
  {
    if calls != [] && |p.g.log| < w.limits.maxToolCalls {
      CallMatches(w, first, p, calls[0]);
      CallsMatch(w, first, MakeCall(w, p, calls[0]), calls[1..]);
    }
  }

  lemma {:induction false} RoundsMatch(w: World, first: nat, p: Progress)
    requires Matched(w, first, p)
    ensures Matched(w, first, Rounds(w, p).0)
    decreases w.limits.maxIterations - p.iterations
  {
    if p.iterations < w.limits.maxIterations && p.modelCalls < w.limits.maxModelCalls {
      var (p1, got) := Ask(w, p);
      if got.Some? && got.value.calls != [] {
        CallsMatch(w, first, p1, got.value.calls);
        RoundsMatch(w, first, MakeCalls(w, p1, got.value.calls));
      }
    }
  }

  /** Only sanitized content of known tools becomes a source. */
  lemma SourcesAreClean(policy: Policy, w: World, p0: Progress, p: Progress, s: Source)
    requires (policy.block || MarkerFits(policy)) && Screens(w.screen, policy)
    requires Kept(w, p0, p) && s in p.g.sources
    ensures Clean(policy, s.content) && !s.provider.Unknown?
  {
    SourcesFromLog(w.naming, p.g.log, s);
    var e :| e in p.g.log && FromEntry(w.naming, e, s);
    EntryClean(policy, w, p.iterations, e);
    RecordClean(policy, w.naming, e.tool, e.args, e.result.value, s);
  }

  /** The content of a source record is the result itself, or one of its elements. */
  lemma RecordClean(policy: Policy, naming: Naming, tool: Tool, args: Json, result: Json, s: Source)
    requires Clean(policy, result) && s in SourceRecords(naming, tool, args, result)
    ensures Clean(policy, s.content) && s.provider == tool
  {
    if result.Arr? {
      assert s.content in result.items;
    }
  }

  lemma EntryClean(policy: Policy, w: World, iterations: nat, e: LogEntry)
    requires (policy.block || MarkerFits(policy)) && Screens(w.screen, policy)
    requires EntryOk(w, iterations, e) && e.result.Data?
    ensures Clean(policy, e.result.value) && !e.tool.Unknown?
  {
    var raw :| w.screen(raw) == Some(e.result.value);
    ResultIsClean(policy, raw);
  }
}
