/** The single-shot chain of javascript/app.js: a module-level message history
  * that the prompt reads at call time and that grows by a human message and
  * an AI message after each successful model call. "sair" and "exit", in any
  * case, quit. */
module ChatChain {
  import opened Messages

  const SYSTEM_TEMPLATE: string :=
    "Você é um Assistente farmacêutico que ajuda os usuários a encontrar informações sobre medicamentos e suas dosagens.\n"
    + "Forneça respostas claras e concisas com base nas informações disponíveis."

  predicate IsQuit(input: string)
    ensures IsQuit(input) <==> SameIgnoringCase(input, "sair") || SameIgnoringCase(input, "exit")
  {
    LowerEqualsWord(input, "sair");
    LowerEqualsWord(input, "exit");
    Lower(input) == "sair" || Lower(input) == "exit"
  }

  /** The prompt template: system text, the history placeholder, then the new
    * input in the human slot. */
  function Prompt(history: seq<Message>, input: string): (p: seq<Message>)
    ensures |p| == |history| + 2 && p[0] == System(SYSTEM_TEMPLATE)
    ensures p[1..|p| - 1] == history && Last(p) == Human(input)
  {
    [System(SYSTEM_TEMPLATE)] + history + [Human(input)]
  }

  /** The history after one turn that reached the model: two more messages if
    * the model answered, unchanged if it threw. */
  function ChatTurn(history: seq<Message>, input: string, model: ChatModel): seq<Message> {
    match model(Prompt(history, input))
    case Reply(resp) => history + [Human(input), Ai(resp.content, [])]
    case ModelThrew => history
  }

  /** The history after the turns on `inputs`, in order. */
  function ChatHistory(history: seq<Message>, inputs: seq<string>, model: ChatModel): seq<Message>
    decreases |inputs|
  {
    if inputs == [] then history
    else ChatTurn(ChatHistory(history, inputs[..|inputs| - 1], model), Last(inputs), model)
  }

  /** How many of the turns on `inputs` got an answer. */
  function Successes(history: seq<Message>, inputs: seq<string>, model: ChatModel): nat
    decreases |inputs|
  {
    if inputs == [] then 0
    else
      var prev := ChatHistory(history, inputs[..|inputs| - 1], model);
      Successes(history, inputs[..|inputs| - 1], model)
        + (if model(Prompt(prev, Last(inputs))).Reply? then 1 else 0)
  }

  /** Human and AI messages alternate, starting with a human one, in pairs. */
  predicate Alternating(h: seq<Message>) {
    |h| % 2 == 0 &&
    forall i :: 0 <= i < |h| ==> if i % 2 == 0 then h[i].Human? else h[i].Ai? && h[i].toolCalls == []
  }

  /** A turn keeps the history as a prefix and adds either nothing (the call
    * failed) or the input and the answer. */
  lemma ChatTurnAppends(history: seq<Message>, input: string, model: ChatModel)
    ensures var h := ChatTurn(history, input, model);
      IsPrefix(history, h) &&
      (model(Prompt(history, input)).ModelThrew? ==> h == history) &&
      (model(Prompt(history, input)).Reply? ==>
        h[|history|..] == [Human(input), Ai(model(Prompt(history, input)).response.content, [])])
  {
  }

  /** The history grows by exactly two messages per answered turn and keeps
    * everything it held. */
  lemma {:induction false} ChatHistoryGrowth(history: seq<Message>, inputs: seq<string>, model: ChatModel)
    ensures IsPrefix(history, ChatHistory(history, inputs, model))
    ensures |ChatHistory(history, inputs, model)| == |history| + 2 * Successes(history, inputs, model)
    ensures Successes(history, inputs, model) <= |inputs|
    decreases |inputs|
  {
    if inputs != [] {
      var init := inputs[..|inputs| - 1];
      var prev := ChatHistory(history, init, model);
      ChatHistoryGrowth(history, init, model);
      ChatTurnAppends(prev, Last(inputs), model);
      var h := ChatHistory(history, inputs, model);
      assert h[..|history|] == prev[..|history|];
    }
  }

  /** Turns keep the history alternating. */
  lemma {:induction false} ChatHistoryAlternates(history: seq<Message>, inputs: seq<string>, model: ChatModel)
    requires Alternating(history)
    ensures Alternating(ChatHistory(history, inputs, model))
    decreases |inputs|
  {
    if inputs != [] {
      var prev := ChatHistory(history, inputs[..|inputs| - 1], model);
      ChatHistoryAlternates(history, inputs[..|inputs| - 1], model);
      ChatTurnAppends(prev, Last(inputs), model);
      var h := ChatHistory(history, inputs, model);
      if h != prev {
        forall i | 0 <= i < |h|
          ensures if i % 2 == 0 then h[i].Human? else h[i].Ai? && h[i].toolCalls == []
        {
          if i < |prev| {
            assert h[i] == prev[i];
          } else {
            assert h[i] == h[|prev|..][i - |prev|];
          }
        }
      }
    }
  }

  /** From an empty start, n answered turns leave 2n alternating messages. */
  lemma FromEmpty(inputs: seq<string>, model: ChatModel)
    ensures var h := ChatHistory([], inputs, model);
      |h| == 2 * Successes([], inputs, model) && Alternating(h)
  {
    ChatHistoryGrowth([], inputs, model);
    ChatHistoryAlternates([], inputs, model);
  }

  /** A JavaScript array of messages, shared by reference. */
  class MessageList {
    var items: seq<Message>

    constructor ()
      ensures items == []
    {
      items := [];
    }

    method Push(m: Message)
      modifies this
      ensures items == old(items) + [m]
    {
      items := items + [m];
    }
  }

  /** The module's state: the one history array every turn reads and extends. */
  class Assistant {
    const messageHistory: MessageList

    constructor ()
      ensures fresh(messageHistory) && messageHistory.items == []
    {
      messageHistory := new MessageList();
    }

    /** The live history array itself, not a copy. */
    function GetHistory(): (h: MessageList)
      ensures h == messageHistory
    {
      messageHistory
    }

    method UpdateHistory(input: string, output: string)
      modifies messageHistory
      ensures messageHistory.items == old(messageHistory.items) + [Human(input), Ai(output, [])]
    {
      messageHistory.Push(Human(input));
      messageHistory.Push(Ai(output, []));
    }

    /** The body of one turn: one model call on a prompt built from the
      * live history, then the history update if the call returned. */
    method Turn(userInput: string, model: ChatModel)
      modifies messageHistory
      ensures messageHistory.items == ChatTurn(old(messageHistory.items), userInput, model)
    {
      var resposta := model(Prompt(GetHistory().items, userInput));
      if resposta.Reply? {
        UpdateHistory(userInput, resposta.response.content);
      }
    }

    /** `iniciarAssistenteFarmaceutico`: reads inputs until a quit command (or
      * the inputs run out); each other input is one model call, and the
      * history is updated only after a call that returned. */
    method Run(inputs: seq<string>, model: ChatModel) returns (consumed: nat)
      modifies messageHistory
      ensures consumed <= |inputs|
      ensures forall i :: 0 <= i < consumed ==> !IsQuit(inputs[i])
      ensures consumed < |inputs| ==> IsQuit(inputs[consumed])
      ensures messageHistory.items == ChatHistory(old(messageHistory.items), inputs[..consumed], model)
    {
      ghost var start := messageHistory.items;
      consumed := 0;
      while consumed < |inputs|
        invariant consumed <= |inputs|
        invariant forall i :: 0 <= i < consumed ==> !IsQuit(inputs[i])
        invariant messageHistory.items == ChatHistory(start, inputs[..consumed], model)
      {
        var userInput := inputs[consumed];
        if IsQuit(userInput) {
          break;
        }
        ghost var done := inputs[..consumed + 1];
        assert done[..consumed] == inputs[..consumed] && Last(done) == userInput;
        assert ChatHistory(start, done, model) == ChatTurn(messageHistory.items, userInput, model);
        Turn(userInput, model);
        consumed := consumed + 1;
      }
    }
  }
}
