/**
 * The two orchestrators of the client router and the routes that drive
 * them. Every agent run is an input: the events its stream delivers and
 * how it ends (a result, or the point at which it raises).
 *
 * Text flow (`ShinanTextIntelligence.run_query`): generate search ideas,
 * search every idea (one worker per idea, merged through the queue of
 * `Merge`), add the user's query to the transcript, stream the report.
 * The workers are run one after another, in launch order.
 *
 * Material flow (`ShinanMaterialIntelligence.run_upload`): analyse the
 * material, search every idea, write the report.
 */
module Client {
  import opened Wrappers
  import opened Text
  import opened Session
  import opened Merge
  import opened ClientFormat

  // ---------------------------------------------------------------------
  // Idea phase of the text flow
  // ---------------------------------------------------------------------

  /** The stream events of the idea agent the phase reacts to. */
  datatype IdeaEvent =
    | ToolCallItem
      /** The context tool's output: company, role and interests. */
    | ToolCallOutputItem(company: string, role: string, interests: seq<string>)
      /** Text deltas, messages and everything else the phase skips. */
    | OtherIdeaEvent

  /** How the idea agent's run ends. */
  datatype IdeaOutcome =
    | RunnerInitFailed
      /** The stream raises, a mistyped final output included: the SDK checks `output_type`. */
    | StreamFailed
    | Generated(ideas: seq<Idea>, inputList: seq<InputItem>)

  datatype IdeaRun = IdeaRun(events: seq<IdeaEvent>, outcome: IdeaOutcome)

  const ContextCheckMessage := "UPDATE 背景を確認させていただきます。"
  const IdeasReadyMessage := "ご利用ありがとうございます。いくつかの検索アプローチを洗い出しました。"

  function IdeaEventYields(ev: IdeaEvent): seq<string> {
    match ev
    case ToolCallItem => [ContextCheckMessage]
    case ToolCallOutputItem(company, role, interests) => [ContextMessage(company, role, interests)]
    case OtherIdeaEvent => []
  }

  /** What the phase yields while the idea stream runs. */
  function IdeaStreamYields(events: seq<IdeaEvent>): seq<string> {
    if events == [] then []
    else IdeaStreamYields(events[..|events| - 1]) + IdeaEventYields(events[|events| - 1])
  }

  lemma IdeaStreamStep(events: seq<IdeaEvent>, j: nat)
    requires j < |events|
    ensures IdeaStreamYields(events[..j + 1]) == IdeaStreamYields(events[..j]) + IdeaEventYields(events[j])
  {
    assert events[..j + 1][..j] == events[..j];
  }

  /** What `_generate_search_ideas` yields before it returns or raises. */
  function IdeaPhaseYields(run: IdeaRun): seq<string> {
    match run.outcome
    case RunnerInitFailed => []
    case StreamFailed => IdeaStreamYields(run.events)
    case Generated(ideas, _) => IdeaStreamYields(run.events) + [IdeasReadyMessage, IdeasMessage(ideas)]
  }

  /** Everything the idea stream yields is a progress (`UPDATE `) chunk. */
  lemma {:induction false} IdeaStreamYieldsAreUpdates(events: seq<IdeaEvent>)
    ensures forall i | 0 <= i < |IdeaStreamYields(events)| :: StartsWith(IdeaStreamYields(events)[i], "UPDATE ")
  {
    if events != [] {
      var init := events[..|events| - 1];
      IdeaStreamYieldsAreUpdates(init);
      var ys := IdeaStreamYields(events);
      assert ys == IdeaStreamYields(init) + IdeaEventYields(events[|events| - 1]);
      forall i | 0 <= i < |ys| ensures StartsWith(ys[i], "UPDATE ") {
        if i >= |IdeaStreamYields(init)| {
          assert ys[i] == IdeaEventYields(events[|events| - 1])[i - |IdeaStreamYields(init)|];
        }
      }
    }
  }

  // ---------------------------------------------------------------------
  // Search workers of the text flow
  // ---------------------------------------------------------------------

  /** The run-item events of the search agent the worker reacts to. */
  datatype SearchEvent =
      /** A web search call; `isSearch` when its action is a `search`. */
    | WebSearchCall(isSearch: bool)
      /** A function (MCP tool) call. */
    | FunctionCall
      /** Every other event: raw responses, messages, other tool calls. */
    | OtherSearchEvent

  /** A search agent's run: its events and its result, or `None` when anything in it raised. */
  datatype SearchRun = SearchRun(events: seq<SearchEvent>, result: Option<string>)

  function WebSearchMessage(query: string): string {
    "UPDATE " + query + "をWEBで検索中..."
  }

  /** What one event yields when the rotation counter stands at `k`. */
  function SearchEventYields(query: string, ev: SearchEvent, k: nat): seq<string> {
    match ev
    case WebSearchCall(isSearch) => if isSearch then [WebSearchMessage(query)] else []
    case FunctionCall => [McpUpdate(k)]
    case OtherSearchEvent => []
  }

  /** How many function calls, that is how far the rotation counter moves. */
  function McpCalls(events: seq<SearchEvent>): nat {
    if events == [] then 0
    else McpCalls(events[..|events| - 1]) + (if events[|events| - 1].FunctionCall? then 1 else 0)
  }

  /** What a worker yields for its idea, the counter starting at `k`. */
  function SearchUpdates(query: string, events: seq<SearchEvent>, k: nat): seq<string> {
    if events == [] then []
    else
      var init := events[..|events| - 1];
      SearchUpdates(query, init, k) + SearchEventYields(query, events[|events| - 1], k + McpCalls(init))
  }

  lemma SearchUpdatesStep(query: string, events: seq<SearchEvent>, k: nat, j: nat)
    requires j < |events|
    ensures SearchUpdates(query, events[..j + 1], k) ==
      SearchUpdates(query, events[..j], k) + SearchEventYields(query, events[j], k + McpCalls(events[..j]))
    ensures McpCalls(events[..j + 1]) == McpCalls(events[..j]) + (if events[j].FunctionCall? then 1 else 0)
  {
    assert events[..j + 1][..j] == events[..j];
  }

  /** The transcript entry a search adds: one assistant item on success, none on failure. */
  function ResultItems(result: Option<string>): (items: seq<InputItem>)
    ensures result.Some? ==> items == [AssistantItem(result.value)]
    ensures result.None? <==> items == []
  {
    if result.Some? then [AssistantItem(result.value)] else []
  }

  /** Everything a worker yields is a progress chunk. */
  /** What one event yields is all `UPDATE ` chunks. */
  lemma EventYieldsAreUpdates(query: string, ev: SearchEvent, k: nat)
    ensures forall y | y in SearchEventYields(query, ev, k) :: StartsWith(y, "UPDATE ")
  {
    match ev {
      case WebSearchCall(isSearch) =>
        assert WebSearchMessage(query)[..7] == "UPDATE ";
      case FunctionCall =>
        McpUpdateIsUpdate(k);
      case OtherSearchEvent =>
    }
  }

  lemma {:induction false} SearchUpdatesAreUpdates(query: string, events: seq<SearchEvent>, k: nat)
    ensures forall i | 0 <= i < |SearchUpdates(query, events, k)| :: StartsWith(SearchUpdates(query, events, k)[i], "UPDATE ")
  {
    if events != [] {
      var init := events[..|events| - 1];
      SearchUpdatesAreUpdates(query, init, k);
      var last := SearchEventYields(query, events[|events| - 1], k + McpCalls(init));
      var pre := SearchUpdates(query, init, k);
      var ys := SearchUpdates(query, events, k);
      assert ys == pre + last;
      EventYieldsAreUpdates(query, events[|events| - 1], k + McpCalls(init));
      forall i | 0 <= i < |ys| ensures StartsWith(ys[i], "UPDATE ") {
        if i >= |pre| {
          assert ys[i] == last[i - |pre|];
          assert last[i - |pre|] in last;
        } else {
          assert ys[i] == pre[i];
        }
      }
    }
  }

  /** A run of MCP calls shows the rotation's messages one after another. */
  lemma {:induction false} SearchUpdatesRotate(query: string, events: seq<SearchEvent>, k: nat)
    requires forall i | 0 <= i < |events| :: events[i] == FunctionCall
    ensures McpCalls(events) == |events|
    ensures |SearchUpdates(query, events, k)| == |events|
    ensures forall j | 0 <= j < |events| :: SearchUpdates(query, events, k)[j] == McpUpdate(k + j)
  {
    AllMcpCalls(events);
    if events != [] {
      var n := |events|;
      var init := events[..n - 1];
      SearchUpdatesRotate(query, init, k);
      var pre := SearchUpdates(query, init, k);
      var ys := SearchUpdates(query, events, k);
      assert ys == pre + [McpUpdate(k + (n - 1))] by {
        assert events[n - 1] == FunctionCall;
        assert ys == pre + SearchEventYields(query, events[n - 1], k + McpCalls(init));
      }
      forall j | 0 <= j < n ensures ys[j] == McpUpdate(k + j) {
        if j < n - 1 {
          assert ys[j] == pre[j];
        }
      }
    }
  }

  lemma {:induction false} AllMcpCalls(events: seq<SearchEvent>)
    requires forall i | 0 <= i < |events| :: events[i] == FunctionCall
    ensures McpCalls(events) == |events|
  {
    if events != [] {
      AllMcpCalls(events[..|events| - 1]);
    }
  }

  /**
   * What `run_query` yields after its idea phase, with the workers run
   * in launch order and the rotation counter at `k`: every worker's
   * updates, the search completion message, then the report phase's
   * chunks, whose MCP updates continue the rotation where the search
   * phase left it.
   */
  function AfterIdeasYields(ideas: seq<Idea>, searchRuns: seq<SearchRun>, reportEvents: seq<ReportEvent>, k: nat): seq<string>
    requires |ideas| == |searchRuns|
  {
    Flatten(SearchPhaseWorkers(ideas, searchRuns, k)) + [SearchCompleteMessage]
      + ReportYields(reportEvents, k + McpCallsOfRuns(searchRuns))
  }

  /** What the workers of the ordered search phase yield, worker by worker. */
  function SearchPhaseWorkers(ideas: seq<Idea>, runs: seq<SearchRun>, k: nat): (ws: seq<seq<string>>)
    requires |ideas| == |runs|
    ensures |ws| == |runs|
  {
    if runs == [] then []
    else
      var n := |runs|;
      SearchPhaseWorkers(ideas[..n - 1], runs[..n - 1], k)
        + [SearchUpdates(ideas[n - 1].query, runs[n - 1].events, k + McpCallsOfRuns(runs[..n - 1]))]
  }

  function McpCallsOfRuns(runs: seq<SearchRun>): nat {
    if runs == [] then 0 else McpCallsOfRuns(runs[..|runs| - 1]) + McpCalls(runs[|runs| - 1].events)
  }

  /** The results of the runs, in launch order. */
  function Results(runs: seq<SearchRun>): (rs: seq<Option<string>>)
    ensures |rs| == |runs|
  {
    seq(|runs|, i requires 0 <= i < |runs| => runs[i].result)
  }

  function SuccessItems(runs: seq<SearchRun>): seq<InputItem> {
    if runs == [] then [] else SuccessItems(runs[..|runs| - 1]) + ResultItems(runs[|runs| - 1].result)
  }

  function AssistantItems(contents: seq<string>): (items: seq<InputItem>)
    ensures |items| == |contents|
  {
    seq(|contents|, i requires 0 <= i < |contents| => AssistantItem(contents[i]))
  }

  lemma AssistantItemsAppend(a: seq<string>, b: seq<string>)
    ensures AssistantItems(a + b) == AssistantItems(a) + AssistantItems(b)
  {
  }

  lemma {:induction false} SuccessItemsArePayloads(runs: seq<SearchRun>)
    ensures SuccessItems(runs) == AssistantItems(Payloads(Results(runs)))
  {
    if runs != [] {
      var n := |runs|;
      var init, r := runs[..n - 1], runs[n - 1].result;
      SuccessItemsArePayloads(init);
      assert Results(runs) == Results(init) + [r];
      PayloadsAppend(Results(init), [r]);
      PayloadsSingle(r);
      AssistantItemsAppend(Payloads(Results(init)), Payloads([r]));
      assert AssistantItems(Payloads([r])) == ResultItems(r);
    }
  }

  /**
   * The search phase adds one assistant item per successful run, holding
   * its result, in launch order, and nothing for a failed one.
   */
  lemma SuccessItemsAreResults(runs: seq<SearchRun>)
    ensures SuccessItems(runs) == AssistantItems(Payloads(Results(runs)))
    ensures |SuccessItems(runs)| + CountNone(Results(runs)) == |runs|
  {
    SuccessItemsArePayloads(runs);
    PayloadsFilter(Results(runs));
  }

  /** One more worker in launch order: what each ordered-phase function gains. */
  lemma SearchPhaseStep(ideas: seq<Idea>, runs: seq<SearchRun>, k: nat, i: nat, base: seq<InputItem>,
                        ws: seq<seq<string>>, c: nat)
    requires |ideas| == |runs| && i < |runs|
    requires ws == SearchPhaseWorkers(ideas[..i], runs[..i], k) && c == k + McpCallsOfRuns(runs[..i])
    ensures ws + [SearchUpdates(ideas[i].query, runs[i].events, c)] == SearchPhaseWorkers(ideas[..i + 1], runs[..i + 1], k)
    ensures McpCallsOfRuns(runs[..i + 1]) == McpCallsOfRuns(runs[..i]) + McpCalls(runs[i].events)
    ensures base + SuccessItems(runs[..i + 1]) == (base + SuccessItems(runs[..i])) + ResultItems(runs[i].result)
  {
    SearchPhaseWorkersSnoc(ideas, runs, k, i);
    var w := SearchUpdates(ideas[i].query, runs[i].events, c);
    assert SearchPhaseWorkers(ideas[..i + 1], runs[..i + 1], k) == ws + [w];
    RunsSnoc(runs, i);
    AppendAssoc(base, SuccessItems(runs[..i]), ResultItems(runs[i].result));
  }

  lemma SearchPhaseWorkersSnoc(ideas: seq<Idea>, runs: seq<SearchRun>, k: nat, i: nat)
    requires |ideas| == |runs| && i < |runs|
    ensures SearchPhaseWorkers(ideas[..i + 1], runs[..i + 1], k) == SearchPhaseWorkers(ideas[..i], runs[..i], k)
      + [SearchUpdates(ideas[i].query, runs[i].events, k + McpCallsOfRuns(runs[..i]))]
  {
    var ideas', runs' := ideas[..i + 1], runs[..i + 1];
    assert ideas'[..i] == ideas[..i] && runs'[..i] == runs[..i];
    assert ideas'[i] == ideas[i] && runs'[i] == runs[i];
  }

  lemma RunsSnoc(runs: seq<SearchRun>, i: nat)
    requires i < |runs|
    ensures McpCallsOfRuns(runs[..i + 1]) == McpCallsOfRuns(runs[..i]) + McpCalls(runs[i].events)
    ensures SuccessItems(runs[..i + 1]) == SuccessItems(runs[..i]) + ResultItems(runs[i].result)
  {
    var runs' := runs[..i + 1];
    assert runs'[..i] == runs[..i] && runs'[i] == runs[i];
  }

  /** The queue filled by workers run in turn: each one's puts after the previous ones'. */
  ghost function InTurnQueue(ws: seq<seq<string>>): seq<Option<string>> {
    if ws == [] then [] else InTurnQueue(ws[..|ws| - 1]) + WorkerQueue(ws[|ws| - 1])
  }

  /** Running the workers in turn puts exactly their queues, concatenated in order. */
  lemma {:induction false} InTurnQueueFlattens(ws: seq<seq<string>>)
    ensures InTurnQueue(ws) == Flatten(WorkerQueues(ws))
  {
    if ws != [] {
      var init := ws[..|ws| - 1];
      InTurnQueueFlattens(init);
      assert ws == init + [ws[|ws| - 1]];
      WorkerQueuesSnoc(init, ws[|ws| - 1]);
      FlattenSnoc(WorkerQueues(init), WorkerQueue(ws[|ws| - 1]));
    }
  }

  lemma AppendAssoc<T>(a: seq<T>, b: seq<T>, c: seq<T>)
    ensures a + (b + c) == (a + b) + c
  {
  }

  lemma WorkerQueuesSnoc<T>(items: seq<seq<T>>, x: seq<T>)
    ensures WorkerQueues(items + [x]) == WorkerQueues(items) + [WorkerQueue(x)]
  {
  }

  // ---------------------------------------------------------------------
  // Report phase of the text flow
  // ---------------------------------------------------------------------

  datatype ReportEvent =
      /** A web search call; `isSearch` when its action is a `search` for `query`. */
    | ReportWebSearch(isSearch: bool, query: string)
    | ReportFunctionCall
      /** A message output item: the report's text. */
    | ReportMessage(text: string)
    | OtherReportEvent

  /**
   * How the writer's run goes: the events its stream delivers, and
   * whether it then raises. `_generate_report` has no `try`, so a failed
   * MCP connection (no events at all), an error from the stream, or a web
   * search call without an action (its `action.type` is read unguarded)
   * raises out of the run after the events before it.
   */
  datatype ReportRun = ReportRun(events: seq<ReportEvent>, raises: bool)

  const ReportDoneText := "リポートを完成しました！"
  const ReportDoneMessage := "UPDATE " + ReportDoneText

  function ReportEventYields(ev: ReportEvent, k: nat): seq<string> {
    match ev
    case ReportWebSearch(isSearch, query) => if isSearch then [WebSearchMessage(query)] else []
    case ReportFunctionCall => [McpUpdate(k)]
    case ReportMessage(text) => [ReportDoneMessage, text]
    case OtherReportEvent => []
  }

  function ReportMcpCalls(events: seq<ReportEvent>): nat {
    if events == [] then 0
    else ReportMcpCalls(events[..|events| - 1]) + (if events[|events| - 1].ReportFunctionCall? then 1 else 0)
  }

  /** What `_generate_report` yields, the counter starting at `k`. */
  function ReportYields(events: seq<ReportEvent>, k: nat): seq<string> {
    if events == [] then []
    else
      var init := events[..|events| - 1];
      ReportYields(init, k) + ReportEventYields(events[|events| - 1], k + ReportMcpCalls(init))
  }

  lemma ReportYieldsStep(events: seq<ReportEvent>, k: nat, j: nat)
    requires j < |events|
    ensures ReportYields(events[..j + 1], k) ==
      ReportYields(events[..j], k) + ReportEventYields(events[j], k + ReportMcpCalls(events[..j]))
    ensures ReportMcpCalls(events[..j + 1]) == ReportMcpCalls(events[..j]) + (if events[j].ReportFunctionCall? then 1 else 0)
  {
    assert events[..j + 1][..j] == events[..j];
  }

  /** Every report message is announced by the completion update right before it. */
  lemma {:induction false} ReportTextAnnounced(events: seq<ReportEvent>, k: nat, j: nat)
    requires j < |events| && events[j].ReportMessage?
    ensures exists i | 0 <= i < |ReportYields(events, k)| - 1 ::
      ReportYields(events, k)[i] == ReportDoneMessage && ReportYields(events, k)[i + 1] == events[j].text
  {
    var n := |events|;
    var init := events[..n - 1];
    var pre := ReportYields(init, k);
    var ys := ReportYields(events, k);
    assert ys == pre + ReportEventYields(events[n - 1], k + ReportMcpCalls(init));
    if j == n - 1 {
      assert ys[|pre|] == ReportDoneMessage && ys[|pre| + 1] == events[j].text;
    } else {
      ReportTextAnnounced(init, k, j);
      var i :| 0 <= i < |pre| - 1 && pre[i] == ReportDoneMessage && pre[i + 1] == init[j].text;
      assert ys[i] == pre[i] && ys[i + 1] == pre[i + 1];
    }
  }

  // ---------------------------------------------------------------------
  // ShinanTextIntelligence
  // ---------------------------------------------------------------------

  class TextIntelligence {
    const session: SessionManager
    /** `_mcp_update_idx`: the position in the MCP message rotation. */
    var mcpUpdateIdx: nat

    constructor (session: SessionManager)
      ensures this.session == session && mcpUpdateIdx == 0
    {
      this.session := session;
      mcpUpdateIdx := 0;
    }

    /**
     * `_generate_search_ideas`: progress messages while the idea stream
     * runs, then the thanks and the ideas message; stores the ideas and
     * replaces the transcript with the run's input list. A failure raises
     * at the point it happens.
     */
    method GenerateSearchIdeas(run: IdeaRun) returns (yielded: seq<string>, ok: bool)
      modifies session
      ensures ok <==> run.outcome.Generated?
      ensures yielded == IdeaPhaseYields(run)
      ensures ok ==> session.textIdeas == run.outcome.ideas && session.inputItems == run.outcome.inputList
      ensures !ok ==> session.textIdeas == old(session.textIdeas) && session.inputItems == old(session.inputItems)
      ensures session.context == old(session.context)
      ensures session.analysis == old(session.analysis) && session.report == old(session.report)
    {
      yielded := [];
      ok := false;
      if run.outcome.RunnerInitFailed? {
        return;
      }
      for j := 0 to |run.events|
        invariant yielded == IdeaStreamYields(run.events[..j])
        invariant unchanged(session)
      {
        IdeaStreamStep(run.events, j);
        ghost var before := yielded;
        match run.events[j] {
          case ToolCallItem =>
            yielded := yielded + [ContextCheckMessage];
          case ToolCallOutputItem(company, role, interests) =>
            var contextMessage := ContextMessage(company, role, interests);
            yielded := yielded + [contextMessage];
          case OtherIdeaEvent =>
        }
        assert yielded == before + IdeaEventYields(run.events[j]);
      }
      assert run.events[..|run.events|] == run.events;
      if run.outcome.StreamFailed? {
        return;
      }
      yielded := yielded + [IdeasReadyMessage];
      session.SetTextIdeas(run.outcome.ideas);
      var message := BuildIdeasMessage(run.outcome.ideas);
      yielded := yielded + [message];
      session.SetInputItems(run.outcome.inputList);
      ok := true;
    }

    /**
     * The event loop of `_search`: a message for each web search call
     * that searches, and one from the rotation, moving it on, for each
     * MCP call.
     */
    method SearchProgress(query: string, events: seq<SearchEvent>) returns (yielded: seq<string>)
      modifies this
      ensures yielded == SearchUpdates(query, events, old(mcpUpdateIdx))
      ensures mcpUpdateIdx == old(mcpUpdateIdx) + McpCalls(events)
    {
      ghost var k := mcpUpdateIdx;
      yielded := [];
      for j := 0 to |events|
        invariant yielded == SearchUpdates(query, events[..j], k)
        invariant mcpUpdateIdx == k + McpCalls(events[..j])
      {
        SearchUpdatesStep(query, events, k, j);
        var ys := HandleSearchEvent(query, events[j]);
        yielded := yielded + ys;
      }
      assert events[..|events|] == events;
    }

    /** One stream event of `_search`: its progress message, if any. */
    method HandleSearchEvent(query: string, ev: SearchEvent) returns (ys: seq<string>)
      modifies this
      ensures ys == SearchEventYields(query, ev, old(mcpUpdateIdx))
      ensures mcpUpdateIdx == old(mcpUpdateIdx) + (if ev.FunctionCall? then 1 else 0)
    {
      ys := [];
      match ev {
        case WebSearchCall(isSearch) =>
          if isSearch {
            ys := [WebSearchMessage(query)];
          }
        case FunctionCall =>
          ys := [McpUpdate(mcpUpdateIdx)];
          mcpUpdateIdx := mcpUpdateIdx + 1;
        case OtherSearchEvent =>
      }
    }

    /**
     * `_search`: progress messages for web searches and MCP calls (the
     * counter moving once per MCP call), then one assistant item holding
     * the result; a failure anywhere is swallowed and adds nothing.
     */
    method Search(idea: Idea, run: SearchRun) returns (yielded: seq<string>)
      modifies this, session
      ensures yielded == SearchUpdates(idea.query, run.events, old(mcpUpdateIdx))
      ensures mcpUpdateIdx == old(mcpUpdateIdx) + McpCalls(run.events)
      ensures session.inputItems == old(session.inputItems) + ResultItems(run.result)
      ensures session.context == old(session.context) && session.textIdeas == old(session.textIdeas)
      ensures session.analysis == old(session.analysis) && session.report == old(session.report)
    {
      yielded := SearchProgress(idea.query, run.events);
      if run.result.Some? {
        session.AddInputItem(AssistantItem(run.result.value));
      }
    }

    /**
     * `_generate_report`: progress messages for web searches and MCP
     * calls, and for each message output the completion update followed
     * by the report text; `ok` is false when the run raises after its
     * events.
     */
    method GenerateReport(run: ReportRun) returns (yielded: seq<string>, ok: bool)
      modifies this
      ensures ok <==> !run.raises
      ensures yielded == ReportYields(run.events, old(mcpUpdateIdx))
      ensures mcpUpdateIdx == old(mcpUpdateIdx) + ReportMcpCalls(run.events)
    {
      ghost var k := mcpUpdateIdx;
      var events := run.events;
      yielded := [];
      for j := 0 to |events|
        invariant yielded == ReportYields(events[..j], k)
        invariant mcpUpdateIdx == k + ReportMcpCalls(events[..j])
      {
        ReportYieldsStep(events, k, j);
        var ys := HandleReportEvent(events[j]);
        yielded := yielded + ys;
      }
      assert events[..|events|] == events;
      ok := !run.raises;
    }

    /** One stream event of `_generate_report`: its progress message, or the completion update and the report text. */
    method HandleReportEvent(ev: ReportEvent) returns (ys: seq<string>)
      modifies this
      ensures ys == ReportEventYields(ev, old(mcpUpdateIdx))
      ensures mcpUpdateIdx == old(mcpUpdateIdx) + (if ev.ReportFunctionCall? then 1 else 0)
    {
      ys := [];
      match ev {
        case ReportWebSearch(isSearch, query) =>
          if isSearch {
            ys := [WebSearchMessage(query)];
          }
        case ReportFunctionCall =>
          ys := [McpUpdate(mcpUpdateIdx)];
          mcpUpdateIdx := mcpUpdateIdx + 1;
        case ReportMessage(text) =>
          ys := [ReportDoneMessage, text];
        case OtherReportEvent =>
      }
    }

    /** One search worker: its search's yields, then its sentinel, as queue puts. */
    method LaunchWorker(idea: Idea, run: SearchRun) returns (puts: seq<Option<string>>)
      modifies this, session
      ensures puts == WorkerQueue(SearchUpdates(idea.query, run.events, old(mcpUpdateIdx)))
      ensures mcpUpdateIdx == old(mcpUpdateIdx) + McpCalls(run.events)
      ensures session.inputItems == old(session.inputItems) + ResultItems(run.result)
      ensures session.context == old(session.context) && session.textIdeas == old(session.textIdeas)
      ensures session.analysis == old(session.analysis) && session.report == old(session.report)
    {
      var workerItems := Search(idea, run);
      puts := ConsumeGenerator(GeneratorRun(workerItems, false));
    }

    /**
     * The search workers run one after another in launch order: each
     * runs its search and puts what it yields, then its sentinel, on the
     * queue.
     */
    method LaunchWorkersInOrder(ideas: seq<Idea>, runs: seq<SearchRun>) returns (queue: seq<Option<string>>)
      requires |runs| == |ideas|
      modifies this, session
      ensures queue == Flatten(WorkerQueues(SearchPhaseWorkers(ideas, runs, old(mcpUpdateIdx))))
      ensures mcpUpdateIdx == old(mcpUpdateIdx) + McpCallsOfRuns(runs)
      ensures session.inputItems == old(session.inputItems) + SuccessItems(runs)
      ensures session.context == old(session.context) && session.textIdeas == old(session.textIdeas)
      ensures session.analysis == old(session.analysis) && session.report == old(session.report)
    {
      ghost var k := mcpUpdateIdx;
      ghost var base := session.inputItems;
      ghost var ws: seq<seq<string>> := [];
      queue := [];
      for i := 0 to |ideas|
        invariant ws == SearchPhaseWorkers(ideas[..i], runs[..i], k)
        invariant queue == InTurnQueue(ws)
        invariant mcpUpdateIdx == k + McpCallsOfRuns(runs[..i])
        invariant session.inputItems == base + SuccessItems(runs[..i])
        invariant session.context == old(session.context) && session.textIdeas == old(session.textIdeas)
        invariant session.analysis == old(session.analysis) && session.report == old(session.report)
      {
        SearchPhaseStep(ideas, runs, k, i, base, ws, mcpUpdateIdx);
        ghost var w := SearchUpdates(ideas[i].query, runs[i].events, mcpUpdateIdx);
        ghost var ws' := ws + [w];
        var puts := LaunchWorker(ideas[i], runs[i]);
        assert (ws + [w])[..|ws|] == ws;
        queue := queue + puts;
        ws := ws';
      }
      assert ideas[..|ideas|] == ideas && runs[..|runs|] == runs;
      InTurnQueueFlattens(ws);
    }

    /**
     * The search phase in launch order: the workers fill the queue, then
     * the merge loop forwards the items and the completion message.
     */
    method OverallSearchInOrder(ideas: seq<Idea>, runs: seq<SearchRun>) returns (out: seq<string>)
      requires |runs| == |ideas|
      modifies this, session
      ensures out == Flatten(SearchPhaseWorkers(ideas, runs, old(mcpUpdateIdx))) + [SearchCompleteMessage]
      ensures mcpUpdateIdx == old(mcpUpdateIdx) + McpCallsOfRuns(runs)
      ensures session.inputItems == old(session.inputItems) + SuccessItems(runs)
      ensures session.context == old(session.context) && session.textIdeas == old(session.textIdeas)
      ensures session.analysis == old(session.analysis) && session.report == old(session.report)
    {
      ghost var workers := SearchPhaseWorkers(ideas, runs, mcpUpdateIdx);
      var queue := LaunchWorkersInOrder(ideas, runs);
      InOrderQueueSentinels(workers);
      var taken;
      out, taken := OverallSearch(queue, |ideas|);
      InOrderQueueConsumed(workers, taken);
    }

    /**
     * `run_query`: the idea phase; when it succeeds, the search phase
     * over the stored ideas, the user's query appended to the transcript,
     * then the report phase. The report is not added to the transcript.
     * `completed` is false when the idea phase or the report phase raises;
     * `out` is then what was yielded before the stream broke off.
     */
    method RunQuery(query: string, ideaRun: IdeaRun, searchRuns: seq<SearchRun>, reportRun: ReportRun)
      returns (out: seq<string>, completed: bool)
      requires ideaRun.outcome.Generated? ==> |searchRuns| == |ideaRun.outcome.ideas|
      modifies this, session
      ensures completed <==> ideaRun.outcome.Generated? && !reportRun.raises
      ensures !ideaRun.outcome.Generated? ==> out == IdeaPhaseYields(ideaRun)
      ensures !ideaRun.outcome.Generated? ==>
        session.inputItems == old(session.inputItems) && session.textIdeas == old(session.textIdeas)
        && mcpUpdateIdx == old(mcpUpdateIdx)
      ensures ideaRun.outcome.Generated? ==> session.textIdeas == ideaRun.outcome.ideas
      ensures ideaRun.outcome.Generated? ==>
        session.inputItems == ideaRun.outcome.inputList + SuccessItems(searchRuns) + [UserItem(query)]
      ensures ideaRun.outcome.Generated? ==>
        out == IdeaPhaseYields(ideaRun) + AfterIdeasYields(ideaRun.outcome.ideas, searchRuns, reportRun.events, old(mcpUpdateIdx))
      ensures ideaRun.outcome.Generated? ==>
        mcpUpdateIdx == old(mcpUpdateIdx) + McpCallsOfRuns(searchRuns) + ReportMcpCalls(reportRun.events)
      ensures session.context == old(session.context)
      ensures session.analysis == old(session.analysis) && session.report == old(session.report)
    {
      ghost var k := mcpUpdateIdx;
      var ideaYields, ok := GenerateSearchIdeas(ideaRun);
      out := ideaYields;
      completed := false;
      if !ok {
        assert !ideaRun.outcome.Generated? && mcpUpdateIdx == k;
        return;
      }
      var ideas := session.textIdeas;
      assert ideaRun.outcome.Generated? && ideas == ideaRun.outcome.ideas && mcpUpdateIdx == k;
      assert session.inputItems == ideaRun.outcome.inputList;
      var rest, reportOk := SearchThenReport(query, ideas, searchRuns, reportRun);
      assert rest == AfterIdeasYields(ideaRun.outcome.ideas, searchRuns, reportRun.events, k);
      out := out + rest;
      completed := reportOk;
    }

    /** The part of `run_query` after the idea phase. */
    method SearchThenReport(query: string, ideas: seq<Idea>, searchRuns: seq<SearchRun>, reportRun: ReportRun)
      returns (out: seq<string>, ok: bool)
      requires |searchRuns| == |ideas|
      modifies this, session
      ensures ok <==> !reportRun.raises
      ensures session.inputItems == old(session.inputItems) + SuccessItems(searchRuns) + [UserItem(query)]
      ensures out == AfterIdeasYields(ideas, searchRuns, reportRun.events, old(mcpUpdateIdx))
      ensures mcpUpdateIdx == old(mcpUpdateIdx) + McpCallsOfRuns(searchRuns) + ReportMcpCalls(reportRun.events)
      ensures session.context == old(session.context) && session.textIdeas == old(session.textIdeas)
      ensures session.analysis == old(session.analysis) && session.report == old(session.report)
    {
      ghost var k := mcpUpdateIdx;
      var searchOut := OverallSearchInOrder(ideas, searchRuns);
      ghost var searched := session.inputItems;
      ghost var k' := mcpUpdateIdx;
      session.AddInputItem(UserItem(query));
      assert session.inputItems == searched + [UserItem(query)];
      var reportOut;
      reportOut, ok := GenerateReport(reportRun);
      assert reportOut == ReportYields(reportRun.events, k');
      out := searchOut + reportOut;
      assert out == AfterIdeasYields(ideas, searchRuns, reportRun.events, k);
    }
  }

  /**
   * The `/query` route: a fresh orchestrator per request, so the MCP
   * rotation starts at its first message for every query. The stream
   * breaks off (`completed` false) when the idea or the report phase
   * raises.
   */
  method QueryRoute(session: SessionManager, query: string, ideaRun: IdeaRun, searchRuns: seq<SearchRun>,
                    reportRun: ReportRun)
    returns (out: seq<string>, completed: bool)
    requires ideaRun.outcome.Generated? ==> |searchRuns| == |ideaRun.outcome.ideas|
    modifies session
    ensures completed <==> ideaRun.outcome.Generated? && !reportRun.raises
    ensures !ideaRun.outcome.Generated? ==>
      out == IdeaPhaseYields(ideaRun) && session.inputItems == old(session.inputItems)
      && session.textIdeas == old(session.textIdeas)
    ensures ideaRun.outcome.Generated? ==> session.textIdeas == ideaRun.outcome.ideas
    ensures ideaRun.outcome.Generated? ==>
      session.inputItems == ideaRun.outcome.inputList + SuccessItems(searchRuns) + [UserItem(query)]
    ensures ideaRun.outcome.Generated? ==>
      out == IdeaPhaseYields(ideaRun) + AfterIdeasYields(ideaRun.outcome.ideas, searchRuns, reportRun.events, 0)
    ensures session.context == old(session.context)
    ensures session.analysis == old(session.analysis) && session.report == old(session.report)
  {
    var manager := new TextIntelligence(session);
    assert manager.session == session && manager.mcpUpdateIdx == 0;
    assert session.inputItems == old(session.inputItems) && session.textIdeas == old(session.textIdeas);
    assert session.context == old(session.context);
    assert session.analysis == old(session.analysis) && session.report == old(session.report);
    out, completed := manager.RunQuery(query, ideaRun, searchRuns, reportRun);
  }

  /**
   * The `/context` route: stores the context when it passes validation
   * and leaves the session alone otherwise.
   */
  method SetContextRoute(session: SessionManager, body: Context) returns (r: Result<(), RouteError>)
    modifies session
    ensures r.Failure? <==> body.company == "" || body.role == ""
    ensures r.Failure? ==> r.error == HttpError(400, ContextRequiredDetail) && session.context == old(session.context)
    ensures r.Success? ==> session.context == body
    ensures session.inputItems == old(session.inputItems) && session.textIdeas == old(session.textIdeas)
    ensures session.analysis == old(session.analysis) && session.report == old(session.report)
  {
    var v := ValidateContext(body);
    if v.Failure? {
      return Failure(v.error);
    }
    session.SetContext(v.value);
    return Success(());
  }

  // ---------------------------------------------------------------------
  // ShinanMaterialIntelligence
  // ---------------------------------------------------------------------

  const SensitiveMaterialDetail :=
    "The provided material contains sensitive content that cannot be processed. Please review and remove any sensitive information before resubmitting."

  /** How the material agent's run ends. */
  datatype MaterialIdeaOutcome =
    | GuardrailTripped
    | MaterialAgentFailed
    | Analysed(analysis: Analysis, inputList: seq<InputItem>)

  /**
   * The material report step as intended: the `report` field of the
   * writer's `Report` output, or the writer's failure (`writer` is that
   * field, `None` when the writer's run raises).
   */
  function MaterialReport(writer: Option<string>): (r: Result<string, RouteError>)
    ensures r.Success? <==> writer.Some?
    ensures writer.Some? ==> r.value == writer.value
    ensures writer.None? ==> r == Failure(Unhandled)
  {
    if writer.Some? then Success(writer.value) else Failure(Unhandled)
  }

  /** One research task more: its payload, if any, joins the results and the transcript. */
  lemma ResearchStep(outcomes: seq<Option<string>>, j: nat, results: seq<string>, base: seq<InputItem>)
    requires j < |outcomes| && results == Payloads(outcomes[..j])
    ensures Payloads(outcomes[..j + 1]) == results + (if outcomes[j].Some? then [outcomes[j].value] else [])
    ensures outcomes[j].Some? ==>
      base + AssistantItems(results + [outcomes[j].value]) == base + AssistantItems(results) + ResultItems(outcomes[j])
    ensures outcomes[j].None? ==> base + AssistantItems(results) + ResultItems(outcomes[j]) == base + AssistantItems(results)
  {
    assert outcomes[..j + 1] == outcomes[..j] + [outcomes[j]];
    PayloadsAppend(outcomes[..j], [outcomes[j]]);
    PayloadsSingle(outcomes[j]);
    if outcomes[j].Some? {
      AssistantItemsAppend(results, [outcomes[j].value]);
    }
  }

  class MaterialIntelligence {
    const session: SessionManager

    constructor (session: SessionManager)
      ensures this.session == session
    {
      this.session := session;
    }

    /**
     * `_generate_search_ideas_material`: stores the analysis and replaces
     * the transcript; a tripped guardrail becomes a 400, any other failure
     * propagates.
     */
    method GenerateSearchIdeasMaterial(outcome: MaterialIdeaOutcome) returns (r: Result<Analysis, RouteError>)
      modifies session
      ensures outcome.GuardrailTripped? ==> r == Failure(HttpError(400, SensitiveMaterialDetail))
      ensures outcome.MaterialAgentFailed? ==> r == Failure(Unhandled)
      ensures outcome.Analysed? ==> r == Success(outcome.analysis)
      ensures outcome.Analysed? ==> session.analysis == outcome.analysis && session.inputItems == outcome.inputList
      ensures !outcome.Analysed? ==> session.analysis == old(session.analysis) && session.inputItems == old(session.inputItems)
      ensures session.context == old(session.context) && session.textIdeas == old(session.textIdeas)
      ensures session.report == old(session.report)
    {
      match outcome
      case GuardrailTripped =>
        r := Failure(HttpError(400, SensitiveMaterialDetail));
      case MaterialAgentFailed =>
        r := Failure(Unhandled);
      case Analysed(analysis, inputList) =>
        session.SetAnalysis(analysis);
        session.SetInputItems(inputList);
        r := Success(analysis);
    }

    /** `_search`: on success one assistant item with the result, which is returned; on failure nothing. */
    method Search(outcome: Option<string>) returns (r: Option<string>)
      modifies session
      ensures r == outcome
      ensures session.inputItems == old(session.inputItems) + ResultItems(outcome)
      ensures session.context == old(session.context) && session.textIdeas == old(session.textIdeas)
      ensures session.analysis == old(session.analysis) && session.report == old(session.report)
    {
      if outcome.Some? {
        session.AddInputItem(AssistantItem(outcome.value));
      }
      r := outcome;
    }

    /**
     * `_research_web`: one search per idea, taken in the order they
     * complete (`outcomes`); the results are the successful ones, in that
     * order, and the transcript gains one assistant item for each.
     */
    method ResearchWeb(ideas: seq<Idea>, outcomes: seq<Option<string>>) returns (results: seq<string>)
      requires |outcomes| == |ideas|
      modifies session
      ensures results == Payloads(outcomes)
      ensures |results| + CountNone(outcomes) == |ideas|
      ensures session.inputItems == old(session.inputItems) + AssistantItems(results)
      ensures session.context == old(session.context) && session.textIdeas == old(session.textIdeas)
      ensures session.analysis == old(session.analysis) && session.report == old(session.report)
    {
      results := [];
      var numCompleted := 0;
      for j := 0 to |outcomes|
        invariant results == Payloads(outcomes[..j])
        invariant numCompleted == j
        invariant session.inputItems == old(session.inputItems) + AssistantItems(results)
        invariant session.context == old(session.context) && session.textIdeas == old(session.textIdeas)
        invariant session.analysis == old(session.analysis) && session.report == old(session.report)
      {
        ResearchStep(outcomes, j, results, old(session.inputItems));
        var result := Search(outcomes[j]);
        if result.Some? {
          results := results + [result.value];
        }
        numCompleted := numCompleted + 1;
      }
      assert outcomes[..|outcomes|] == outcomes;
      PayloadsFilter(outcomes);
    }

    /** The analysis and research steps of `run_upload`, before its report step. */
    method AnalyseAndResearch(ideaOutcome: MaterialIdeaOutcome, searchOutcomes: seq<Option<string>>)
      returns (r: Result<seq<string>, RouteError>)
      requires ideaOutcome.Analysed? ==> |searchOutcomes| == |ideaOutcome.analysis.ideas|
      modifies session
      ensures ideaOutcome.GuardrailTripped? ==> r == Failure(HttpError(400, SensitiveMaterialDetail))
      ensures ideaOutcome.MaterialAgentFailed? ==> r == Failure(Unhandled)
      ensures ideaOutcome.Analysed? ==> r == Success(Payloads(searchOutcomes))
      ensures !ideaOutcome.Analysed? ==>
        session.inputItems == old(session.inputItems) && session.analysis == old(session.analysis)
      ensures ideaOutcome.Analysed? ==> session.analysis == ideaOutcome.analysis
      ensures ideaOutcome.Analysed? ==>
        session.inputItems == ideaOutcome.inputList + AssistantItems(Payloads(searchOutcomes))
      ensures session.context == old(session.context) && session.textIdeas == old(session.textIdeas)
      ensures session.report == old(session.report)
    {
      var analysis := GenerateSearchIdeasMaterial(ideaOutcome);
      if analysis.Failure? {
        return Failure(analysis.error);
      }
      var articles := ResearchWeb(analysis.value.ideas, searchOutcomes);
      r := Success(articles);
    }

    /**
     * `run_upload` as written: analysis, research, then `_generate_report`,
     * which returns `result.final_output()`. The writer's output is a
     * `Report` object, and calling it raises `TypeError`; a writer run
     * that fails raises too. So no upload succeeds, although the analysis
     * is stored and the searches have extended the transcript.
     */
    method RunUpload(ideaOutcome: MaterialIdeaOutcome, searchOutcomes: seq<Option<string>>, writer: Option<string>)
      returns (r: Result<string, RouteError>)
      requires ideaOutcome.Analysed? ==> |searchOutcomes| == |ideaOutcome.analysis.ideas|
      modifies session
      ensures r.Failure?
      ensures ideaOutcome.GuardrailTripped? ==> r == Failure(HttpError(400, SensitiveMaterialDetail))
      ensures !ideaOutcome.GuardrailTripped? ==> r == Failure(Unhandled)
      ensures !ideaOutcome.Analysed? ==>
        session.inputItems == old(session.inputItems) && session.analysis == old(session.analysis)
      ensures ideaOutcome.Analysed? ==> session.analysis == ideaOutcome.analysis
      ensures ideaOutcome.Analysed? ==>
        session.inputItems == ideaOutcome.inputList + AssistantItems(Payloads(searchOutcomes))
      ensures session.context == old(session.context) && session.textIdeas == old(session.textIdeas)
      ensures session.report == old(session.report)
    {
      var articles := AnalyseAndResearch(ideaOutcome, searchOutcomes);
      if articles.Failure? {
        return Failure(articles.error);
      }
      if writer.None? {
        // the writer's run raises
        r := Failure(Unhandled);
      } else {
        // `final_output()` calls the `Report`, which is not callable
        r := Failure(Unhandled);
      }
    }

    /**
     * `run_upload` with the report step as intended (`final_output.report`):
     * the same analysis and research, then the writer's report.
     */
    method RunUploadIntended(ideaOutcome: MaterialIdeaOutcome, searchOutcomes: seq<Option<string>>, writer: Option<string>)
      returns (r: Result<string, RouteError>)
      requires ideaOutcome.Analysed? ==> |searchOutcomes| == |ideaOutcome.analysis.ideas|
      modifies session
      ensures ideaOutcome.GuardrailTripped? ==> r == Failure(HttpError(400, SensitiveMaterialDetail))
      ensures ideaOutcome.MaterialAgentFailed? ==> r == Failure(Unhandled)
      ensures ideaOutcome.Analysed? ==> r == MaterialReport(writer)
      ensures ideaOutcome.Analysed? && writer.Some? ==> r == Success(writer.value)
      ensures !ideaOutcome.Analysed? ==>
        session.inputItems == old(session.inputItems) && session.analysis == old(session.analysis)
      ensures ideaOutcome.Analysed? ==> session.analysis == ideaOutcome.analysis
      ensures ideaOutcome.Analysed? ==>
        session.inputItems == ideaOutcome.inputList + AssistantItems(Payloads(searchOutcomes))
      ensures session.context == old(session.context) && session.textIdeas == old(session.textIdeas)
      ensures session.report == old(session.report)
    {
      var articles := AnalyseAndResearch(ideaOutcome, searchOutcomes);
      if articles.Failure? {
        return Failure(articles.error);
      }
      r := MaterialReport(writer);
    }
  }
}
