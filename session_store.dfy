/** The session store of app.py: a dictionary from session id to a chat
  * history, filled on demand by `get_history`, and the input loop that runs
  * every turn under one fixed session id. "sair" and "exit", in any case, quit;
  * an error from the model call is not caught and ends the loop. */
module SessionStore {
  import opened Messages

  const SESSION_ID: string := "sessao_unica"

  const TEMPLATE: string :=
    "Você é um Assistente farmacêutico que ajuda os usuários a encontrar informações sobre medicamentos e suas dosagens.\n"
    + "Forneça respostas claras e concisas com base nas informações disponíveis.\n\n"
    + "Histórico de conversa:\n{history}\n\nEntrada do usuário: \n{input}"

  predicate IsQuit(input: string) {
    Lower(input) in ["sair", "exit"]
  }

  /** The quit check accepts exactly "sair" and "exit" with each letter in
    * either case. */
  lemma QuitWords(input: string)
    ensures IsQuit(input) <==> SameIgnoringCase(input, "sair") || SameIgnoringCase(input, "exit")
  {
    LowerEqualsWord(input, "sair");
    LowerEqualsWord(input, "exit");
  }

  /** The chat prompt: the system template, the history placeholder, then the
    * human input. */
  function Prompt(history: seq<Message>, input: string): seq<Message> {
    [System(TEMPLATE)] + history + [Human(input)]
  }

  /** The prompt is the system text, then exactly the history, then the input
    * in the human slot. */
  lemma PromptShape(history: seq<Message>, input: string)
    ensures var p := Prompt(history, input);
      |p| == |history| + 2 && p[0] == System(TEMPLATE) && p[1..|p| - 1] == history && Last(p) == Human(input)
  {
  }

  /** The chain call: the model's outcome on the prompt for the history and
    * the input. */
  function ChainInvoke(history: seq<Message>, input: string, model: ChatModel): ModelOutcome {
    model(Prompt(history, input))
  }

  /** What the input loop shows: the answers printed, and whether a model
    * error ended it. */
  datatype Transcript = Transcript(answers: seq<string>, crashed: bool)

  function Prepend(answers: seq<string>, t: Transcript): Transcript {
    Transcript(answers + t.answers, t.crashed)
  }

  lemma PrependTwice(a: seq<string>, b: seq<string>, t: Transcript)
    ensures Prepend(a, Prepend(b, t)) == Prepend(a + b, t)
  {
    assert a + (b + t.answers) == (a + b) + t.answers;
  }

  /** The loop on `inputs` from position n, with every turn asked on the same
    * session history: stop at a quit input or at the end, stop with an error
    * when the model throws, otherwise print the answer and go on. */
  function LoopFrom(history: seq<Message>, inputs: seq<string>, n: nat, model: ChatModel): Transcript
    requires n <= |inputs|
    decreases |inputs| - n
  {
    if n == |inputs| || IsQuit(inputs[n]) then Transcript([], false)
    else match ChainInvoke(history, inputs[n], model)
      case ModelThrew => Transcript([], true)
      case Reply(resp) => Prepend([resp.content], LoopFrom(history, inputs, n + 1, model))
  }

  /** From position n the loop answers the inputs before the first quit one
    * by one, each with the model's reply on the session history; it stops
    * exactly at the first quit input, the end of the inputs, or the first
    * model error. */
  lemma {:induction false} LoopAt(history: seq<Message>, inputs: seq<string>, n: nat, model: ChatModel)
    requires n <= |inputs|
    ensures var t := LoopFrom(history, inputs, n, model);
      n + |t.answers| <= |inputs| &&
      (forall j :: n <= j < n + |t.answers| ==>
        !IsQuit(inputs[j]) && ChainInvoke(history, inputs[j], model).Reply? &&
        ChainInvoke(history, inputs[j], model).response.content == t.answers[j - n]) &&
      (t.crashed ==>
        n + |t.answers| < |inputs| && !IsQuit(inputs[n + |t.answers|]) &&
        ChainInvoke(history, inputs[n + |t.answers|], model).ModelThrew?) &&
      (!t.crashed && n + |t.answers| < |inputs| ==> IsQuit(inputs[n + |t.answers|]))
    decreases |inputs| - n
  {
    if n < |inputs| && !IsQuit(inputs[n]) && ChainInvoke(history, inputs[n], model).Reply? {
      LoopAt(history, inputs, n + 1, model);
      var t := LoopFrom(history, inputs, n, model);
      var r := LoopFrom(history, inputs, n + 1, model);
      assert t.answers == [ChainInvoke(history, inputs[n], model).response.content] + r.answers;
      forall j | n < j < n + |t.answers|
        ensures ChainInvoke(history, inputs[j], model).response.content == t.answers[j - n]
      {
        assert t.answers[j - n] == r.answers[j - (n + 1)];
      }
    }
  }

  /** An in-memory chat history object. */
  class ChatMessageHistory {
    var messages: seq<Message>

    constructor ()
      ensures messages == []
    {
      messages := [];
    }
  }

  /** The module-level `store` dictionary. */
  class Store {
    var entries: map<string, ChatMessageHistory>

    constructor ()
      ensures entries == map[]
    {
      entries := map[];
    }

    /** `get_history`: the stored history for the id, created empty only when
      * the id is absent; no other key changes. */
    method GetHistory(sessionId: string) returns (h: ChatMessageHistory)
      modifies this
      ensures sessionId in entries && entries[sessionId] == h
      ensures sessionId in old(entries) ==> h == old(entries[sessionId]) && entries == old(entries)
      ensures sessionId !in old(entries) ==>
        fresh(h) && h.messages == [] && entries == old(entries)[sessionId := h]
      ensures entries.Keys == old(entries.Keys) + {sessionId}
    {
      if sessionId !in entries {
        var created := new ChatMessageHistory();
        entries := entries[sessionId := created];
      }
      h := entries[sessionId];
    }

    /** Two lookups of one id give the same history object. */
    method GetHistoryTwice(sessionId: string) returns (first: ChatMessageHistory, second: ChatMessageHistory)
      modifies this
      ensures first == second && sessionId in entries && entries[sessionId] == first
      ensures entries.Keys == old(entries.Keys) + {sessionId}
    {
      first := GetHistory(sessionId);
      second := GetHistory(sessionId);
    }

    /** The body of one turn: `get_history` on the fixed id, then one model
      * call on that session's history and the input. */
    method Ask(userInput: string, model: ChatModel) returns (history: ChatMessageHistory, resposta: ModelOutcome)
      modifies this
      ensures entries == old(entries)[SESSION_ID := history]
      ensures SESSION_ID in old(entries) ==> history == old(entries)[SESSION_ID]
      ensures SESSION_ID !in old(entries) ==> fresh(history) && history.messages == []
      ensures resposta == ChainInvoke(history.messages, userInput, model)
    {
      history := GetHistory(SESSION_ID);
      resposta := ChainInvoke(history.messages, userInput, model);
    }

    /** `iniciar_assistente_farmaceutico`: reads inputs until a quit command (or
      * the inputs run out, or the model throws); each other input looks up the
      * fixed session and asks the model with that session's history. */
    method Run(inputs: seq<string>, model: ChatModel)
      returns (answers: seq<string>, crashed: bool, histories: seq<ChatMessageHistory>)
      modifies this
      ensures |histories| == |answers| + (if crashed then 1 else 0)
      ensures histories == [] ==>
        entries == old(entries) && !crashed && answers == [] && (inputs == [] || IsQuit(inputs[0]))
      ensures histories != [] ==>
        (forall i :: 0 <= i < |histories| ==> histories[i] == histories[0]) &&
        entries == old(entries)[SESSION_ID := histories[0]] &&
        (SESSION_ID in old(entries) ==> histories[0] == old(entries)[SESSION_ID]) &&
        (SESSION_ID !in old(entries) ==> fresh(histories[0]) && histories[0].messages == []) &&
        Transcript(answers, crashed) == LoopFrom(histories[0].messages, inputs, 0, model)
    {
      ghost var start := entries;
      ghost var session: seq<Message> := [];
      answers, crashed, histories := [], false, [];
      while |answers| < |inputs|
        invariant |answers| <= |inputs| && |histories| == |answers|
        invariant histories == [] ==> entries == start && answers == []
        invariant histories != [] ==>
          (forall i :: 0 <= i < |histories| ==> histories[i] == histories[0]) &&
          entries == start[SESSION_ID := histories[0]] &&
          (SESSION_ID in start ==> histories[0] == start[SESSION_ID]) &&
          (SESSION_ID !in start ==> fresh(histories[0]) && histories[0].messages == []) &&
          session == histories[0].messages &&
          LoopFrom(session, inputs, 0, model) == Prepend(answers, LoopFrom(session, inputs, |answers|, model))
      {
        var userInput := inputs[|answers|];
        if IsQuit(userInput) {
          break;
        }
        var history, resposta := Ask(userInput, model);
        session := history.messages;
        histories := histories + [history];
        if resposta.ModelThrew? {
          crashed := true;
          return;
        }
        PrependTwice(answers, [resposta.response.content], LoopFrom(session, inputs, |answers| + 1, model));
        answers := answers + [resposta.response.content];
      }
    }
  }
}
