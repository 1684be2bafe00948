/**
 * The agent graph of graph.py: the `agent` node (chatbot_node), the `tools`
 * node, the `should_continue` router between them, and the checkpointer that
 * keeps each thread's message history across turns. The model and the tools
 * are oracles passed in as functions.
 */
module Graph {
  import opened Messages
  import opened Persona
  import AgentAnswer

  /** Where `should_continue` sends the run: `"tools"` or `"__end__"`. */
  datatype Route = ToTools | ToEnd

  function Last(h: seq<Message>): Message
    requires |h| > 0
  {
    h[|h| - 1]
  }

  /** `should_continue`: to the tools exactly when the last message asks for tool calls. */
  function ShouldContinue(history: seq<Message>): (r: Route)
    requires |history| > 0 && Last(history).AI?
    ensures r == ToTools <==> Last(history).toolCalls != []
  {
    if Last(history).toolCalls != [] then ToTools else ToEnd
  }

  /** The node that runs next; `Finished` is the graph's END. */
  datatype Node = AgentNode | ToolsNode | Finished

  /** A thread's messages, the node to run next, and how many steps ran in this invocation. */
  datatype RunState = RunState(history: seq<Message>, next: Node, steps: nat)

  /** The tools node: one tool message per requested call, in order, answering that call's id. */
  function ToolResults(calls: seq<ToolCall>, tools: ToolCall -> string): (r: seq<Message>)
    ensures |r| == |calls|
    ensures forall k :: 0 <= k < |r| ==> r[k] == Tool(tools(calls[k]), calls[k].id)
  {
    if calls == [] then [] else [Tool(tools(calls[0]), calls[0].id)] + ToolResults(calls[1..], tools)
  }

  /**
   * The states a run can be in: a non-empty history with no system message,
   * about to run the tools only after a reply that requested some, and
   * finished only after a reply that requested none.
   */
  predicate Reachable(s: RunState)
  {
    && |s.history| > 0
    && NoSystem(s.history)
    && (s.next == ToolsNode ==> Last(s.history).AI? && Last(s.history).toolCalls != [])
    && (s.next == Finished ==> Last(s.history).AI? && Last(s.history).toolCalls == [])
  }

  /** A turn starts with the thread's stored history plus the user's message, at the agent node. */
  function Start(history: seq<Message>, userText: string): (s: RunState)
    requires NoSystem(history)
    ensures Reachable(s) && s.next == AgentNode
  {
    RunState(history + [Human(userText)], AgentNode, 0)
  }

  /**
   * The model, the tools and the clock a run consults, with the persona
   * configuration: `clock(k)` is the formatted time the agent node reads at
   * step `k`.
   */
  datatype Oracles = Oracles(cfg: Config, clock: nat -> string,
                             llm: seq<Message> -> Reply, tools: ToolCall -> string)

  /** One step of the compiled graph: the node `s.next` runs and the router picks the next one. */
  function Step(s: RunState, o: Oracles): (t: RunState)
    requires Reachable(s) && s.next != Finished
    ensures Reachable(t) && t.steps == s.steps + 1
  {
    if s.next == AgentNode then
      var h := s.history + [o.llm(ModelInput(s.history, Directive(o.cfg, o.clock(s.steps)))).AsMessage()];
      RunState(h, if ShouldContinue(h) == ToTools then ToolsNode else Finished, s.steps + 1)
    else
      RunState(s.history + ToolResults(Last(s.history).toolCalls, o.tools), AgentNode, s.steps + 1)
  }

  /** `h` extends `h0` and adds no user message. */
  predicate ExtendsWithoutHuman(h: seq<Message>, h0: seq<Message>)
  {
    |h| >= |h0| && h[..|h0|] == h0 && NoHuman(h[|h0|..])
  }

  /**
   * What a step appends: the agent exactly the model's reply to the history
   * with the directive in front of it, the tools one answer per requested
   * call; the run ends only right after a reply that asks for no tools.
   */
  lemma StepAppends(s: RunState, o: Oracles)
    requires Reachable(s) && s.next != Finished
    ensures var t := Step(s, o);
            && ExtendsWithoutHuman(t.history, s.history)
            && (s.next == AgentNode ==>
                  && t.history == s.history + [o.llm([Directive(o.cfg, o.clock(s.steps))] + s.history).AsMessage()]
                  && (t.next == ToolsNode <==> Last(t.history).toolCalls != []))
            && (s.next == ToolsNode ==>
                  t.next == AgentNode && t.history == s.history + ToolResults(Last(s.history).toolCalls, o.tools))
            && (t.next == Finished ==> s.next == AgentNode && Last(t.history).AI? && Last(t.history).toolCalls == [])
  {
  }

  lemma ExtendsTransitive(h2: seq<Message>, h1: seq<Message>, h0: seq<Message>)
    requires ExtendsWithoutHuman(h1, h0) && ExtendsWithoutHuman(h2, h1)
    ensures ExtendsWithoutHuman(h2, h0)
  {
    assert h2[..|h0|] == h2[..|h1|][..|h0|];
    forall i | |h0| <= i < |h2| ensures !h2[i].Human? {
      if i < |h1| {
        assert h2[i] == h1[i] == h1[|h0|..][i - |h0|];
      } else {
        assert h2[i] == h2[|h1|..][i - |h1|];
      }
    }
  }

  /**
   * The state after `n` further steps, or the finished state if the run
   * ends first. The graph itself bounds nothing: a run is observed for any `n`.
   */
  function Run(s: RunState, n: nat, o: Oracles): (r: RunState)
    requires Reachable(s)
    ensures Reachable(r)
    decreases n
  {
    if n == 0 || s.next == Finished then s else Run(Step(s, o), n - 1, o)
  }

  /** A run only appends to the thread, never a user message, and counts its steps until it ends. */
  lemma {:induction false} RunExtends(s: RunState, n: nat, o: Oracles)
    requires Reachable(s)
    ensures var r := Run(s, n, o);
            && ExtendsWithoutHuman(r.history, s.history)
            && (r.next != Finished ==> r.steps == s.steps + n)
    decreases n
  {
    if n > 0 && s.next != Finished {
      var t := Step(s, o);
      StepAppends(s, o);
      RunExtends(t, n - 1, o);
      ExtendsTransitive(Run(t, n - 1, o).history, t.history, s.history);
    }
  }

  /** Once a run has ended, observing it for longer changes nothing. */
  lemma {:induction false} RunFinishedStable(s: RunState, n: nat, m: nat, o: Oracles)
    requires Reachable(s) && n <= m && Run(s, n, o).next == Finished
    ensures Run(s, m, o) == Run(s, n, o)
    decreases n
  {
    if s.next != Finished {
      RunFinishedStable(Step(s, o), n - 1, m - 1, o);
    }
  }

  /** Observing a run for `n + m` steps is observing it for `n` steps and then for `m` more. */
  lemma {:induction false} RunCompose(s: RunState, n: nat, m: nat, o: Oracles)
    requires Reachable(s)
    ensures Run(s, n + m, o) == Run(Run(s, n, o), m, o)
    decreases n
  {
    if n > 0 && s.next != Finished {
      RunCompose(Step(s, o), n - 1, m, o);
    }
  }

  /** A message of the latest turn that is not the user's comes after every user message. */
  lemma LatestTurnIsAfter(h: seq<Message>, j: nat, i: int)
    requires j < |h| && h[j].Human?
    requires AgentAnswer.InLatestTurn(h, i) && !h[i].Human?
    ensures j < i
  {
  }

  /**
   * A finished turn on thread history `h0`: the stored history is kept, the
   * user's message follows it, the answer selection never falls into its
   * "failed to respond" branch, and the corrected selection answers with a
   * message produced by this turn.
   */
  lemma FinishedTurn(h0: seq<Message>, userText: string, n: nat, o: Oracles)
    requires NoSystem(h0)
    requires Run(Start(h0, userText), n, o).next == Finished
    ensures var h := Run(Start(h0, userText), n, o).history;
            && |h| > |h0| && h[..|h0|] == h0 && h[|h0|] == Human(userText)
            && !AgentAnswer.Failed(h)
            && (exists i :: 0 <= i < |h| && !h[i].Human? && AgentAnswer.Answer(h) == h[i].content)
            && (exists i :: |h0| < i < |h| && AgentAnswer.TurnAnswer(h) == h[i].content)
  {
    var s := Start(h0, userText);
    var h1 := s.history;
    var r := Run(s, n, o);
    var h := r.history;
    RunExtends(s, n, o);
    assert h[..|h1|] == h1;
    assert h[..|h0|] == h1[..|h0|] == h0;
    assert h[|h0|] == h1[|h0|] == Human(userText);
    var i :| AgentAnswer.InLatestTurn(h, i) && !h[i].Human? && AgentAnswer.TurnAnswer(h) == h[i].content;
    LatestTurnIsAfter(h, |h0|, i);
  }

  /** The agent node run on a fresh graph state holding `s.history`. */
  method AgentStep(s: RunState, o: Oracles) returns (t: RunState)
    requires Reachable(s) && s.next == AgentNode
    ensures t == Step(s, o)
  {
    var node := new AgentState(s.history);
    var update := node.ChatbotNode(o.cfg, o.clock(s.steps), o.llm);
    var h := s.history + update;
    t := RunState(h, if ShouldContinue(h) == ToTools then ToolsNode else Finished, s.steps + 1);
  }

  /** The tools node: every call of the last reply is answered with a tool message, in call order. */
  method ToolsStep(s: RunState, o: Oracles) returns (t: RunState)
    requires Reachable(s) && s.next == ToolsNode
    ensures t == Step(s, o)
  {
    var calls := Last(s.history).toolCalls;
    var results: seq<Message> := [];
    var k := 0;
    while k < |calls|
      invariant 0 <= k <= |calls| && |results| == k
      invariant forall j :: 0 <= j < k ==> results[j] == Tool(o.tools(calls[j]), calls[j].id)
    {
      results := results + [Tool(o.tools(calls[k]), calls[k].id)];
      k := k + 1;
    }
    assert results == ToolResults(calls, o.tools);
    t := RunState(s.history + results, AgentNode, s.steps + 1);
  }

  /** The checkpointer: every thread's message history, keyed by chat id. */
  class Checkpointer {
    var threads: map<int, seq<Message>>

    ghost predicate Valid()
      reads this
    {
      forall id :: id in threads ==> NoSystem(threads[id])
    }

    constructor ()
      ensures Valid() && threads == map[]
    {
      threads := map[];
    }

    /** The stored history of a thread; an unknown thread starts empty. */
    function History(threadId: int): (h: seq<Message>)
      reads this
      ensures threadId in threads ==> h == threads[threadId]
      ensures threadId !in threads ==> h == []
    {
      if threadId in threads then threads[threadId] else []
    }

    /**
     * `app.ainvoke` of one user message on thread `threadId`, observed for
     * `steps` graph steps: the run starts from the thread's checkpoint, its
     * history becomes the thread's new checkpoint, and no other thread changes.
     */
    method Invoke(threadId: int, userText: string, o: Oracles, steps: nat) returns (final: RunState)
      requires Valid()
      modifies this
      ensures Valid()
      ensures final == Run(Start(old(History(threadId)), userText), steps, o)
      ensures threads == old(threads)[threadId := final.history]
    {
      final := Run(Start(History(threadId), userText), steps, o);
      threads := threads[threadId := final.history];
    }
  }
}
