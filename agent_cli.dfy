/** The command-line loop of javascript/app_current_date_time.js: each turn
  * pushes the user's message, runs the graph on the whole history, and on
  * success replaces the history with the graph's messages; on an error the
  * pushed message stays and the loop goes on. Only "sair", in any case, quits. */
module AgentCli {
  import opened Messages
  import opened AgentGraph

  /** What a turn shows the user: the last message's content, or an error. */
  datatype Outcome = Answered(answer: string) | Errored

  datatype TurnResult = TurnResult(history: seq<Message>, outcome: Outcome)

  /** The history and the outcomes after a sequence of turns. */
  datatype Log = Log(history: seq<Message>, outcomes: seq<Outcome>)

  predicate IsQuit(input: string)
    ensures IsQuit(input) <==> SameIgnoringCase(input, "sair")
  {
    LowerEqualsWord(input, "sair");
    Lower(input) == "sair"
  }

  /** One turn. The human message is appended first and never rolled back; on
    * success the history becomes the run's messages, whose last entry is a
    * final response and holds the answer. */
  function Turn(history: seq<Message>, input: string, env: Env, fuel: nat): (t: TurnResult)
    ensures IsPrefix(history + [Human(input)], t.history)
    ensures t.outcome.Errored? <==> !Invoke(history + [Human(input)], env, fuel).Done?
    ensures t.outcome.Errored? ==> t.history == history + [Human(input)]
    ensures t.outcome.Answered? ==>
      Last(t.history).Ai? && Last(t.history).toolCalls == [] && t.outcome.answer == Last(t.history).content
    ensures t.outcome.Answered? ==> t.history == Invoke(history + [Human(input)], env, fuel).state.messages
  {
    var pushed := history + [Human(input)];
    match Invoke(pushed, env, fuel)
    case Done(s) => TurnResult(s.messages, Answered(Last(s.messages).content))
    case Failed(_) => TurnResult(pushed, Errored)
    case OutOfFuel => TurnResult(pushed, Errored)
  }

  /** The turns on `inputs`, in order, starting from `history`. */
  function Session(history: seq<Message>, inputs: seq<string>, env: Env, fuel: nat): Log
    decreases |inputs|
  {
    if inputs == [] then Log(history, [])
    else
      var prev := Session(history, inputs[..|inputs| - 1], env, fuel);
      var t := Turn(prev.history, Last(inputs), env, fuel);
      Log(t.history, prev.outcomes + [t.outcome])
  }

  /** The history only grows: each turn keeps everything before it and adds at
    * least the user's message; there is one outcome per turn. */
  lemma {:induction false} SessionAppendOnly(history: seq<Message>, inputs: seq<string>, env: Env, fuel: nat)
    ensures var l := Session(history, inputs, env, fuel);
      IsPrefix(history, l.history) && |l.history| >= |history| + |inputs| && |l.outcomes| == |inputs|
    decreases |inputs|
  {
    if inputs != [] {
      var prev := Session(history, inputs[..|inputs| - 1], env, fuel);
      SessionAppendOnly(history, inputs[..|inputs| - 1], env, fuel);
      var t := Turn(prev.history, Last(inputs), env, fuel);
      assert Session(history, inputs, env, fuel) == Log(t.history, prev.outcomes + [t.outcome]);
      PrefixOfAppendPrefix(history, prev.history, Human(Last(inputs)), t.history);
    }
  }

  lemma PrefixOfAppendPrefix(a: seq<Message>, b: seq<Message>, m: Message, c: seq<Message>)
    requires IsPrefix(a, b) && IsPrefix(b + [m], c)
    ensures IsPrefix(a, c) && |c| > |b|
  {
    assert c[..|a|] == (b + [m])[..|a|];
  }

  /** After a successful turn the history is the old history, the user's
    * message, and a graph trace ending in the answer. */
  lemma AnsweredTurnAppendsTrace(history: seq<Message>, input: string, env: Env, fuel: nat)
    requires Turn(history, input, env, fuel).outcome.Answered?
    ensures var h := Turn(history, input, env, fuel).history;
      h[|history|] == Human(input) && Trace(h[|history| + 1..])
  {
    var pushed := history + [Human(input)];
    var r := Invoke(pushed, env, fuel);
    assert r.Done? && Turn(history, input, env, fuel).history == r.state.messages;
    RunProducesTrace(Start(pushed), env, fuel);
    var h := r.state.messages;
    assert Start(pushed).messages == pushed;
    assert h[|history|] == pushed[|history|];
    assert h[|history| + 1..] == h[|pushed|..];
  }

  /** The body of one turn: push the user's message, run the graph on the
    * whole history, and on success take the graph's messages as the history. */
  method RunTurn(history: seq<Message>, userInput: string, env: Env, fuel: nat)
    returns (chatHistory: seq<Message>, outcome: Outcome)
    ensures TurnResult(chatHistory, outcome) == Turn(history, userInput, env, fuel)
  {
    chatHistory := history + [Human(userInput)];
    var result := Invoke(chatHistory, env, fuel);
    if result.Done? {
      var finalMessages := result.state.messages;
      var assistantResponse := Last(finalMessages).content;
      chatHistory := finalMessages;
      outcome := Answered(assistantResponse);
    } else {
      outcome := Errored;
    }
  }

  /** `iniciarAssistente`: reads inputs until "sair" (or the inputs run out),
    * running one turn per input on the history it keeps. */
  method Assistant(inputs: seq<string>, env: Env, fuel: nat) returns (chatHistory: seq<Message>, outcomes: seq<Outcome>)
    ensures |outcomes| <= |inputs|
    ensures forall i :: 0 <= i < |outcomes| ==> !IsQuit(inputs[i])
    ensures |outcomes| < |inputs| ==> IsQuit(inputs[|outcomes|])
    ensures Session([], inputs[..|outcomes|], env, fuel) == Log(chatHistory, outcomes)
  {
    chatHistory := [];
    outcomes := [];
    var i := 0;
    while i < |inputs|
      invariant 0 <= i <= |inputs| && |outcomes| == i
      invariant forall j :: 0 <= j < i ==> !IsQuit(inputs[j])
      invariant Session([], inputs[..i], env, fuel) == Log(chatHistory, outcomes)
    {
      var userInput := inputs[i];
      if IsQuit(userInput) {
        break;
      }
      assert inputs[..i + 1][..i] == inputs[..i] && Last(inputs[..i + 1]) == userInput;
      var outcome;
      chatHistory, outcome := RunTurn(chatHistory, userInput, env, fuel);
      outcomes := outcomes + [outcome];
      i := i + 1;
    }
  }
}
