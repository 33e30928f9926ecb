/** The two-node agent graph of javascript/app_current_date_time.js: an agent
  * node that asks the chat model for one response and routes on its tool
  * calls, a tools node that runs the requested registered tools in order, a
  * messages channel merged by concatenation, and the edges start -> agent,
  * agent -> tools | end, tools -> agent. */
module AgentGraph {
  import opened Messages

  /** The instruction prepended to every model input (and never stored). */
  const SYSTEM_PROMPT: string :=
    "Você é um Assistente farmacêutico especializado em medicamentos e dosagens.\n\n"
    + "FERRAMENTAS DISPONÍVEIS:\n"
    + "- get_current_time: Use para informar a data e hora atual quando o usuário perguntar\n"
    + "- tavily_search: Use para buscar informações sobre medicamentos, dosagens, interações medicamentosas\n\n"
    + "Seja claro e conciso nas respostas. Use as ferramentas quando necessário."

  /** A registered tool, identified by its name. */
  datatype Tool = Tool(name: string)

  /** The registered tools, in registration order: web search, then the clock. */
  const REGISTRY: seq<Tool> := [Tool("tavily_search"), Tool("get_current_time")]

  /** One call of a tool's `invoke`: its output, or a thrown error. */
  datatype Invocation = Returned(output: string) | InvokeThrew

  /** The graph's collaborators: the chat model, the tools' `invoke`, and the
    * tool list searched by name. */
  datatype Env = Env(model: ChatModel, invoke: (Tool, Args) -> Invocation, tools: seq<Tool>)

  /** The values of the `next` channel; `End` stands for the "end" label. */
  datatype Route = ToTools | ToAgent | End

  /** The graph state: the messages channel and the last-value `next` channel. */
  datatype State = State(messages: seq<Message>, next: Option<Route>)

  /** What a node returns. */
  datatype Update = Update(messages: seq<Message>, next: Route)

  datatype Error = ModelError | ToolError

  datatype Result<T> = Ok(value: T) | Err(error: Error)

  /** The reducer of the messages channel. */
  function Concat(x: seq<Message>, y: seq<Message>): (r: seq<Message>)
    ensures IsPrefix(x, r) && r[|x|..] == y
  {
    x + y
  }

  /** Folding a node's update into the state. */
  function Apply(s: State, u: Update): State {
    State(Concat(s.messages, u.messages), Some(u.next))
  }

  /** The initial state for an input `{ messages }`: the channel default `[]`
    * reduced with the input. */
  function Start(input: seq<Message>): State {
    State(Concat([], input), None)
  }

  /** What the agent node sends to the model: the system prompt, then the state. */
  function ModelInput(messages: seq<Message>): seq<Message> {
    [System(SYSTEM_PROMPT)] + messages
  }

  function RouteOf(r: Response): (next: Route)
    ensures next == ToTools <==> |r.toolCalls| > 0
    ensures next != ToTools ==> next == End
  {
    if |r.toolCalls| > 0 then ToTools else End
  }

  /** The agent node: one model call; the update holds the response alone and
    * routes to the tools exactly when the response requests any. */
  function AgentNode(s: State, env: Env): (r: Result<Update>)
    ensures env.model(ModelInput(s.messages)).ModelThrew? ==> r == Err(ModelError)
    ensures env.model(ModelInput(s.messages)).Reply? ==>
      var resp := env.model(ModelInput(s.messages)).response;
      r.Ok? && r.value.messages == [Ai(resp.content, resp.toolCalls)] &&
      (r.value.next == ToTools <==> |resp.toolCalls| > 0) &&
      (r.value.next != ToTools ==> r.value.next == End)
  {
    match env.model(ModelInput(s.messages))
    case ModelThrew => Err(ModelError)
    case Reply(resp) => Ok(Update([Ai(resp.content, resp.toolCalls)], RouteOf(resp)))
  }

  /** `tools.find(t => t.name === name)`. */
  function Find(tools: seq<Tool>, name: string): (r: Option<Tool>)
    ensures r.Some? <==> exists i :: 0 <= i < |tools| && tools[i].name == name
    ensures r.Some? ==> r.value in tools && r.value.name == name
  {
    if tools == [] then None
    else if tools[0].name == name then Some(tools[0])
    else Find(tools[1..], name)
  }

  predicate Registered(tools: seq<Tool>, c: ToolCall) {
    Find(tools, c.name).Some?
  }

  function InvokeCall(c: ToolCall, env: Env): Invocation
    requires Registered(env.tools, c)
  {
    env.invoke(Find(env.tools, c.name).value, c.args)
  }

  /** The calls whose name resolves, in their original order. */
  function Known(calls: seq<ToolCall>, tools: seq<Tool>): (ks: seq<ToolCall>)
    ensures |ks| <= |calls|
    ensures forall j :: 0 <= j < |ks| ==> ks[j] in calls && Registered(tools, ks[j])
    ensures forall c :: c in calls && Registered(tools, c) ==> c in ks
  {
    if calls == [] then []
    else (if Registered(tools, calls[0]) then [calls[0]] else []) + Known(calls[1..], tools)
  }

  /** Filtering distributes over concatenation, so the kept calls stay in
    * their original order. */
  lemma {:induction false} KnownAppend(a: seq<ToolCall>, b: seq<ToolCall>, tools: seq<Tool>)
    ensures Known(a + b, tools) == Known(a, tools) + Known(b, tools)
    decreases |a|
  {
    if a != [] {
      assert (a + b)[0] == a[0] && (a + b)[1..] == a[1..] + b;
      KnownAppend(a[1..], b, tools);
    } else {
      assert a + b == b;
    }
  }

  /** With the registered tools of the program, exactly the calls named
    * "tavily_search" or "get_current_time" are kept. */
  lemma KnownInRegistry(calls: seq<ToolCall>)
    ensures forall c :: c in Known(calls, REGISTRY) <==>
      c in calls && (c.name == "tavily_search" || c.name == "get_current_time")
  {
    forall name: string
      ensures Find(REGISTRY, name).Some? <==> name == "tavily_search" || name == "get_current_time"
    {
      assert REGISTRY[0].name == "tavily_search" && REGISTRY[1].name == "get_current_time";
      assert REGISTRY[1..][1..] == [];
    }
  }

  /** The results list the tools node builds, or the error a tool threw. */
  function Dispatch(calls: seq<ToolCall>, env: Env): Result<seq<ToolResult>> {
    if calls == [] then Ok([])
    else
      var c := calls[0];
      match Find(env.tools, c.name)
      case None => Dispatch(calls[1..], env)
      case Some(tool) =>
        match env.invoke(tool, c.args)
        case InvokeThrew => Err(ToolError)
        case Returned(out) =>
          match Dispatch(calls[1..], env)
          case Err(e) => Err(e)
          case Ok(rest) => Ok([ToolResult(c.id, c.name, c.args, out)] + rest)
  }

  /** Sequencing two dispatches: the first error wins, else results concatenate. */
  function Then(a: Result<seq<ToolResult>>, b: Result<seq<ToolResult>>): Result<seq<ToolResult>> {
    if a.Err? then a else if b.Err? then b else Ok(a.value + b.value)
  }

  lemma {:induction false} DispatchAppend(a: seq<ToolCall>, b: seq<ToolCall>, env: Env)
    ensures Dispatch(a + b, env) == Then(Dispatch(a, env), Dispatch(b, env))
  {
    if a == [] {
      assert a + b == b;
      if Dispatch(b, env).Ok? {
        assert [] + Dispatch(b, env).value == Dispatch(b, env).value;
      }
    } else {
      var c := a[0];
      assert (a + b)[0] == c;
      assert (a + b)[1..] == a[1..] + b;
      DispatchAppend(a[1..], b, env);
      var ra, rb := Dispatch(a[1..], env), Dispatch(b, env);
      match Find(env.tools, c.name)
      case None =>
      case Some(tool) =>
        match env.invoke(tool, c.args)
        case InvokeThrew =>
        case Returned(out) =>
          if ra.Ok? && rb.Ok? {
            var entry := ToolResult(c.id, c.name, c.args, out);
            assert [entry] + (ra.value + rb.value) == ([entry] + ra.value) + rb.value;
          }
    }
  }

  /** Every call in `ks` is registered and its tool returns. */
  predicate AllReturn(ks: seq<ToolCall>, env: Env) {
    forall j :: 0 <= j < |ks| ==> Registered(env.tools, ks[j]) && InvokeCall(ks[j], env).Returned?
  }

  /** `{ ...toolCall, result }` for a call whose tool returned. */
  function Entry(c: ToolCall, env: Env): ToolResult
    requires Registered(env.tools, c) && InvokeCall(c, env).Returned?
  {
    ToolResult(c.id, c.name, c.args, InvokeCall(c, env).output)
  }

  function Entries(ks: seq<ToolCall>, env: Env): seq<ToolResult>
    requires AllReturn(ks, env)
  {
    if ks == [] then [] else [Entry(ks[0], env)] + Entries(ks[1..], env)
  }

  /** Entries by position: one per call, in call order. */
  lemma {:induction false} EntriesAt(ks: seq<ToolCall>, env: Env)
    requires AllReturn(ks, env)
    ensures |Entries(ks, env)| == |ks|
    ensures forall j :: 0 <= j < |ks| ==> Entries(ks, env)[j] == Entry(ks[j], env)
  {
    if ks != [] {
      EntriesAt(ks[1..], env);
      forall j | 1 <= j < |ks|
        ensures Entries(ks, env)[j] == Entry(ks[j], env)
      {
        assert ks[j] == ks[1..][j - 1];
      }
    }
  }

  /** Dispatch against an independent description: it succeeds exactly when
    * every registered call's tool returns, and then its results are the
    * entries of the registered calls, in call order. */
  lemma {:induction false} DispatchMatchesKnown(calls: seq<ToolCall>, env: Env)
    ensures Dispatch(calls, env) ==
      if AllReturn(Known(calls, env.tools), env) then Ok(Entries(Known(calls, env.tools), env))
      else Err(ToolError)
  {
    if calls != [] {
      var c, tail := calls[0], calls[1..];
      DispatchMatchesKnown(tail, env);
      var ks, rest := Known(calls, env.tools), Known(tail, env.tools);
      if Registered(env.tools, c) {
        assert ks == [c] + rest;
        assert ks[0] == c && ks[1..] == rest;
        var tool := Find(env.tools, c.name).value;
        assert InvokeCall(c, env) == env.invoke(tool, c.args);
        if InvokeCall(c, env).Returned? {
          assert AllReturn(ks, env) <==> AllReturn(rest, env) by {
            if AllReturn(rest, env) {
              forall j | 0 <= j < |ks|
                ensures Registered(env.tools, ks[j]) && InvokeCall(ks[j], env).Returned?
              {
                if j > 0 { assert ks[j] == rest[j - 1]; }
              }
            }
            if AllReturn(ks, env) {
              forall j | 0 <= j < |rest|
                ensures Registered(env.tools, rest[j]) && InvokeCall(rest[j], env).Returned?
              {
                assert rest[j] == ks[j + 1];
              }
            }
          }
        } else {
          assert !AllReturn(ks, env) by {
            assert !(Registered(env.tools, ks[0]) && InvokeCall(ks[0], env).Returned?);
          }
        }
      } else {
        assert ks == rest;
      }
    }
  }

  /** An unregistered call in a batch is dropped without affecting the others. */
  lemma DispatchSkipsUnregistered(a: seq<ToolCall>, c: ToolCall, b: seq<ToolCall>, env: Env)
    requires !Registered(env.tools, c)
    ensures Dispatch(a + [c] + b, env) == Dispatch(a + b, env)
  {
    DispatchAppend(a + [c], b, env);
    DispatchAppend(a, [c], env);
    DispatchAppend(a, b, env);
    assert Dispatch([c], env) == Ok([]) by {
      assert [c][1..] == [];
    }
    if Dispatch(a, env).Ok? {
      assert Dispatch(a, env).value + [] == Dispatch(a, env).value;
    }
  }

  /** The state in which the tools node runs: the last message requests tools. */
  predicate AwaitingTools(s: State) {
    |s.messages| > 0 && Last(s.messages).Ai? && |Last(s.messages).toolCalls| > 0
  }

  /** The tools node's update, as a function of the state. */
  function ToolsOutput(s: State, env: Env): Result<Update>
    requires AwaitingTools(s)
  {
    var calls := Last(s.messages).toolCalls;
    match Dispatch(calls, env)
    case Err(e) => Err(e)
    case Ok(results) => Ok(Update([ToolMessage(results, calls[0].id)], ToAgent))
  }

  /** The tools node: runs the registered calls in order, skips unknown names,
    * and emits one tool message answering the first call, then routes back
    * to the agent. */
  method ToolsNode(s: State, env: Env) returns (r: Result<Update>)
    requires AwaitingTools(s)
    ensures r == ToolsOutput(s, env)
    ensures r.Ok? ==>
      var calls := Last(s.messages).toolCalls;
      r.value.next == ToAgent &&
      r.value.messages == [ToolMessage(Dispatch(calls, env).value, calls[0].id)]
    ensures r.Err? <==> Dispatch(Last(s.messages).toolCalls, env).Err?
  {
    var toolCalls := Last(s.messages).toolCalls;
    var results: seq<ToolResult> := [];
    for i := 0 to |toolCalls|
      invariant Dispatch(toolCalls[..i], env) == Ok(results)
    {
      var toolCall := toolCalls[i];
      assert toolCalls[..i + 1] == toolCalls[..i] + [toolCall];
      DispatchAppend(toolCalls[..i], [toolCall], env);
      assert [toolCall][0] == toolCall && [toolCall][1..] == [];
      var tool := Find(env.tools, toolCall.name);
      if tool.Some? {
        var result := env.invoke(tool.value, toolCall.args);
        if result.InvokeThrew? {
          assert toolCalls == toolCalls[..i + 1] + toolCalls[i + 1..];
          DispatchAppend(toolCalls[..i + 1], toolCalls[i + 1..], env);
          return Err(ToolError);
        }
        var entry := ToolResult(toolCall.id, toolCall.name, toolCall.args, result.output);
        assert Dispatch([toolCall], env) == Ok([entry] + []);
        assert results + ([entry] + []) == results + [entry];
        results := results + [entry];
      } else {
        assert Dispatch([toolCall], env) == Ok([]);
        assert results + [] == results;
      }
    }
    assert toolCalls[..|toolCalls|] == toolCalls;
    r := Ok(Update([ToolMessage(results, toolCalls[0].id)], ToAgent));
  }

  /** A model response that requests no tools: the run ends on it. */
  predicate IsFinal(m: Message) {
    m.Ai? && m.toolCalls == []
  }

  /** A response that requests tools, followed by the tool message answering
    * its first call. */
  predicate Answers(request: Message, reply: Message) {
    request.Ai? && |request.toolCalls| > 0 && reply.ToolMessage? && reply.toolCallId == request.toolCalls[0].id
  }

  datatype CycleResult = Finished(state: State) | Continue(state: State) | Stopped(error: Error)

  /** One pass through the graph from the agent node: the agent step, then the
    * tools step when the agent routes there. It adds either one final
    * response, or a tool-requesting response and the tool message answering it. */
  function Cycle(s: State, env: Env): (c: CycleResult)
    ensures c.Finished? ==>
      |c.state.messages| == |s.messages| + 1 && IsPrefix(s.messages, c.state.messages) &&
      IsFinal(Last(c.state.messages)) && c.state.next == Some(End)
    ensures c.Continue? ==>
      |c.state.messages| == |s.messages| + 2 && IsPrefix(s.messages, c.state.messages) &&
      Answers(c.state.messages[|s.messages|], c.state.messages[|s.messages| + 1])
  {
    match AgentNode(s, env)
    case Err(e) => Stopped(e)
    case Ok(u) =>
      var s1 := Apply(s, u);
      if s1.next != Some(ToTools) then Finished(s1)
      else
        match ToolsOutput(s1, env)
        case Err(e) => Stopped(e)
        case Ok(u2) => Continue(Apply(s1, u2))
  }

  /** The transitions of one cycle, in terms of the model's reply and the
    * tools' dispatch: a model error stops it; a reply without tool calls
    * finishes with that reply appended; otherwise a tool error stops it, or
    * the reply and one tool message with the dispatched results are appended
    * and control returns to the agent. */
  lemma CycleSteps(s: State, env: Env)
    ensures env.model(ModelInput(s.messages)).ModelThrew? ==> Cycle(s, env) == Stopped(ModelError)
    ensures env.model(ModelInput(s.messages)).Reply? ==>
      var resp := env.model(ModelInput(s.messages)).response;
      var m1 := s.messages + [Ai(resp.content, resp.toolCalls)];
      Cycle(s, env) ==
        if resp.toolCalls == [] then Finished(State(m1, Some(End)))
        else if Dispatch(resp.toolCalls, env).Err? then Stopped(ToolError)
        else Continue(State(m1 + [ToolMessage(Dispatch(resp.toolCalls, env).value, resp.toolCalls[0].id)], Some(ToAgent)))
  {
    if env.model(ModelInput(s.messages)).Reply? {
      var resp := env.model(ModelInput(s.messages)).response;
      DispatchMatchesKnown(resp.toolCalls, env);
    }
  }

  datatype RunResult = Done(state: State) | Failed(error: Error) | OutOfFuel

  /** Running the graph from the agent node, with at most `fuel` agent steps. */
  function RunFrom(s: State, env: Env, fuel: nat): (r: RunResult)
    ensures r.Done? ==> IsPrefix(s.messages, r.state.messages) && |r.state.messages| > |s.messages|
    ensures r.Done? ==> IsFinal(Last(r.state.messages)) && r.state.next == Some(End)
    decreases fuel
  {
    if fuel == 0 then OutOfFuel
    else
      match Cycle(s, env)
      case Stopped(e) => Failed(e)
      case Finished(s1) => Done(s1)
      case Continue(s2) => RunFrom(s2, env, fuel - 1)
  }

  /** `app.invoke({ messages: input })`: start -> agent. */
  function Invoke(input: seq<Message>, env: Env, fuel: nat): RunResult {
    RunFrom(Start(input), env, fuel)
  }

  /** A run's own messages: one agent response, then zero or more (tool message,
    * agent response) pairs; every response but the last requests tools, each
    * tool message answers the first call of the response before it, and the
    * last response requests none. */
  predicate Trace(t: seq<Message>)
    decreases |t|
  {
    if |t| == 1 then IsFinal(t[0])
    else |t| >= 3 && Answers(t[0], t[1]) && Trace(t[2..])
  }

  lemma SuffixCons(p: seq<Message>, a: Message, b: Message, m: seq<Message>)
    requires IsPrefix(p, m) && |m| >= |p| + 2 && m[|p|] == a && m[|p| + 1] == b
    ensures m[|p|..] == [a, b] + m[|p| + 2..]
  {
  }

  /** Every finished run appends a trace to the input, with at most `fuel - 1`
    * tool cycles. */
  lemma {:induction false} RunProducesTrace(s: State, env: Env, fuel: nat)
    requires RunFrom(s, env, fuel).Done?
    ensures var m := RunFrom(s, env, fuel).state.messages;
      IsPrefix(s.messages, m) && Trace(m[|s.messages|..]) && |m| <= |s.messages| + 2 * fuel - 1
    decreases fuel
  {
    var c := Cycle(s, env);
    var n := |s.messages|;
    if c.Finished? {
      assert c.state.messages[n..] == [Last(c.state.messages)];
    } else {
      var s2 := c.state;
      RunProducesTrace(s2, env, fuel - 1);
      var m := RunFrom(s2, env, fuel - 1).state.messages;
      var a, b := s2.messages[n], s2.messages[n + 1];
      assert m[..n] == s2.messages[..n];
      SuffixCons(s.messages, a, b, m);
      assert m[n..][2..] == m[n + 2..];
    }
  }

  /** The trace by position: odd length, responses at even positions, each
    * tool message at an odd position answering the response before it, and
    * a final response at the end. */
  lemma {:induction false} TraceShape(t: seq<Message>)
    requires Trace(t)
    ensures |t| % 2 == 1 && IsFinal(Last(t))
    ensures forall i :: 0 <= i < |t| && i % 2 == 0 ==> t[i].Ai?
    ensures forall i :: 0 < i < |t| && i % 2 == 1 ==> Answers(t[i - 1], t[i])
    decreases |t|
  {
    if |t| > 1 {
      var tail := t[2..];
      TraceShape(tail);
      forall i | 2 <= i < |t|
        ensures t[i] == tail[i - 2]
      { }
    }
  }

  /** Positional shape implies the inductive trace: the two descriptions agree. */
  lemma {:induction false} ShapeIsTrace(t: seq<Message>)
    requires |t| % 2 == 1 && IsFinal(Last(t))
    requires forall i :: 0 < i < |t| && i % 2 == 1 ==> Answers(t[i - 1], t[i])
    ensures Trace(t)
    decreases |t|
  {
    if |t| > 1 {
      var tail := t[2..];
      assert Answers(t[0], t[1]);
      forall i | 0 < i < |tail| && i % 2 == 1
        ensures Answers(tail[i - 1], tail[i])
      {
        assert tail[i - 1] == t[i + 1] && tail[i] == t[i + 2];
      }
      ShapeIsTrace(tail);
    }
  }

  /** More fuel never changes a run that finished or failed. */
  lemma {:induction false} RunFuelMonotone(s: State, env: Env, fuel: nat, more: nat)
    requires fuel <= more
    requires !RunFrom(s, env, fuel).OutOfFuel?
    ensures RunFrom(s, env, more) == RunFrom(s, env, fuel)
    decreases fuel
  {
    var c := Cycle(s, env);
    if c.Continue? {
      RunFuelMonotone(c.state, env, fuel - 1, more - 1);
    }
  }

  predicate NoSystem(m: seq<Message>) {
    forall i :: 0 <= i < |m| ==> !m[i].System?
  }

  /** The system prompt reaches the model only: a run adds no system message. */
  lemma RunKeepsSystemOut(s: State, env: Env, fuel: nat)
    requires NoSystem(s.messages)
    requires RunFrom(s, env, fuel).Done?
    ensures NoSystem(RunFrom(s, env, fuel).state.messages)
  {
    RunProducesTrace(s, env, fuel);
    var m := RunFrom(s, env, fuel).state.messages;
    var n := |s.messages|;
    var t := m[n..];
    TraceShape(t);
    assert NoSystem(t) by {
      forall j | 0 <= j < |t|
        ensures !t[j].System?
      {
        if j % 2 == 1 {
          assert Answers(t[j - 1], t[j]);
        }
      }
    }
    NoSystemAppend(s.messages, t, m);
  }

  lemma NoSystemAppend(a: seq<Message>, b: seq<Message>, m: seq<Message>)
    requires NoSystem(a) && NoSystem(b) && IsPrefix(a, m) && b == m[|a|..]
    ensures NoSystem(m)
  {
    assert m == a + b;
  }

  /** A model error on the first call fails the run. */
  lemma FirstCallThrows(input: seq<Message>, env: Env, fuel: nat)
    requires fuel > 0
    requires env.model(ModelInput(input)).ModelThrew?
    ensures Invoke(input, env, fuel) == Failed(ModelError)
  {
    assert Start(input).messages == input;
    CycleSteps(Start(input), env);
  }

  /** A first response with no tool calls ends the run at once. */
  lemma DirectAnswer(input: seq<Message>, env: Env, fuel: nat)
    requires fuel > 0
    requires env.model(ModelInput(input)).Reply?
    requires env.model(ModelInput(input)).response.toolCalls == []
    ensures Invoke(input, env, fuel) ==
      Done(State(input + [Ai(env.model(ModelInput(input)).response.content, [])], Some(End)))
  {
    assert Start(input).messages == input;
  }
}
