# Pharmacist assistant: verified model of the agent loop and chat histories

This project models the deterministic core of a small command-line pharmacist
assistant built around a remote chat model. The model is written in Dafny, and
every property below is proved.

- `agent_graph.dfy` (module `AgentGraph`) covers the two-node agent graph of
  `javascript/app_current_date_time.js`:
  - the messages channel, merged by concatenation, and the last-value `next` channel;
  - the agent node, which makes one model call with the system prompt
    prepended and routes to the tools exactly when the response carries tool calls;
  - the tools node, a `for` loop that invokes each requested tool found by name
    in `tool_calls` order, silently skips unknown names, and emits a single tool
    message that answers the first call's id;
  - the edges start → agent, agent → tools | end, tools → agent.
- `agent_cli.dfy` (module `AgentCli`) covers that file's input loop. The user's
  message is pushed first. On success the history becomes the graph's messages.
  On an error the pushed message stays. Only `sair`, in any case, quits.
- `chat_chain.dfy` (module `ChatChain`) covers `javascript/app.js`:
  - a module-level history array that the prompt reads live;
  - the array grows by a human and an AI message after each successful call only;
  - `sair` / `exit` quit.
- `session_store.dfy` (module `SessionStore`) covers `app.py`:
  - the `store` dictionary and the get-or-create `get_history`;
  - the input loop, which uses the fixed id `sessao_unica` for every turn and
    does not catch a model error.
- `messages.dfy` (module `Messages`) holds the message shapes shared by the
  three programs and the ASCII lower-casing used by the quit checks.

The chat model is an oracle: a function from its input messages to a reply or
a thrown error. A tool's `invoke` is a function from the tool and its
arguments to an output or a thrown error. The agent graph has no cycle cap of
its own. The model bounds the number of agent steps with a `fuel` argument.
`RunFuelMonotone` proves that more fuel never changes a run that finished or
failed.

What the code does in the tools node and the input loop:
- A tool call with an unknown name yields no result entry and no error.
- One tool message per cycle carries the results of all calls.
- Tool calls run one after another. The first tool that throws aborts the turn.
- A failed turn keeps the pushed user message; nothing is rolled back.

## Model

| member | source | states |
|---|---|---|
| `AgentGraph.Apply` | javascript/app_current_date_time.js:51-57 | definition: a node's update is merged into the state, messages through `Concat` and `next` replaced by the update's route |
| `AgentGraph.Start` | javascript/app_current_date_time.js:173-175 | definition: the initial state is the channel default `[]` reduced with the input messages, with no route yet |
| `AgentGraph.ModelInput` | javascript/app_current_date_time.js:66-78 | definition: the model receives the system prompt, then the state's messages; the prompt is not stored in the state |
| `AgentGraph.Concat` | javascript/app_current_date_time.js:51-55 | the new messages keep the old ones as a prefix, in order and unchanged, followed by exactly the node's output |
| `AgentGraph.RouteOf` | javascript/app_current_date_time.js:85 | routes to the tools exactly when the response has a non-empty `tool_calls` list, and to the end otherwise |
| `AgentGraph.AgentNode` | javascript/app_current_date_time.js:62-86 | a model error fails the node; otherwise the update holds exactly one message, the response with its tool calls, and `next` is tools iff that response requests tools, else end |
| `AgentGraph.Find` | javascript/app_current_date_time.js:98 | finds a tool iff some registered tool has the requested name, and the tool found is registered under that name |
| `AgentGraph.Known` | javascript/app_current_date_time.js:96-99 | the calls kept for dispatch are calls of the batch whose names are registered, no more than the batch |
| `AgentGraph.KnownAppend` | javascript/app_current_date_time.js:97-99 | filtering a concatenated batch is filtering each part and concatenating, so the kept calls keep their order |
| `AgentGraph.KnownInRegistry` | javascript/app_current_date_time.js:46 | with the program's two tools, exactly the calls named "tavily_search" or "get_current_time" are kept |
| `AgentGraph.Dispatch` | javascript/app_current_date_time.js:96-107 | definition of the loop's outcome: for each call in order, an unknown name is skipped, a throwing tool ends with a tool error, and a returning tool adds the call's id, name and arguments with its output; its meaning is stated by `DispatchAppend` and `DispatchMatchesKnown` |
| `AgentGraph.DispatchAppend` | javascript/app_current_date_time.js:97-107 | dispatching a concatenated batch is dispatching each part in order: the first error wins, otherwise the results concatenate |
| `AgentGraph.EntriesAt` | javascript/app_current_date_time.js:101-105 | there is one result entry per kept call, and entry j is call j's id, name and arguments plus its tool's output |
| `AgentGraph.DispatchMatchesKnown` | javascript/app_current_date_time.js:96-107 | the results list equals the entries of the registered calls in `tool_calls` order when every registered tool returns, and is an error otherwise; unknown names contribute nothing |
| `AgentGraph.DispatchSkipsUnregistered` | javascript/app_current_date_time.js:98-99 | inserting a call with an unknown name anywhere in a batch leaves the outcome unchanged |
| `AgentGraph.ToolsOutput` | javascript/app_current_date_time.js:92-122 | definition of the tools node's update: the dispatch error, or one tool message with the results and the first call's id, routed to the agent; `ToolsNode` is proved to compute it |
| `AgentGraph.ToolsNode` | javascript/app_current_date_time.js:92-122 | the loop's update equals the tools node's specified output: one tool message holding the dispatched results and the first call's id, then back to the agent; it fails iff some registered tool throws |
| `AgentGraph.Cycle` | javascript/app_current_date_time.js:127-135 | one pass from the agent node either ends the run with exactly one more message, a response without tool calls, with `next` at end; or adds exactly a tool-requesting response and the tool message answering its first call; earlier messages are kept |
| `AgentGraph.CycleSteps` | javascript/app_current_date_time.js:62-135 | the transitions of one cycle: a model error stops it; a reply without tool calls finishes with exactly that reply appended; otherwise a tool error stops it, or exactly the reply and one tool message holding the dispatched results are appended and the agent runs again |
| `AgentGraph.RunFrom` | javascript/app_current_date_time.js:127-135 | a finished run keeps the input messages as a prefix, adds at least one message, ends on a response with no tool calls, and leaves `next` at end |
| `AgentGraph.Invoke` | javascript/app_current_date_time.js:173-175 | definition: `app.invoke` runs the graph from the start state of the input messages |
| `AgentGraph.FirstCallThrows` | javascript/app_current_date_time.js:81 | a model error on the first call fails the whole run with a model error |
| `AgentGraph.RunProducesTrace` | javascript/app_current_date_time.js:130-135 | a finished run appends one agent response, then zero or more (tool message, agent response) pairs, with at most fuel − 1 tool cycles |
| `AgentGraph.TraceShape` | javascript/app_current_date_time.js:83-86 | a run's own messages have odd length and hold responses at even positions and tool messages at odd ones; each tool message answers the first call of the response before it; only the last response has no tool calls |
| `AgentGraph.ShapeIsTrace` | javascript/app_current_date_time.js:110-121 | conversely, any sequence with that positional shape satisfies `Trace`: the positional and the inductive descriptions agree |
| `AgentGraph.RunFuelMonotone` | javascript/app_current_date_time.js:130-135 | a run that finished or failed within some fuel has the same result with any larger fuel |
| `AgentGraph.RunKeepsSystemOut` | javascript/app_current_date_time.js:66-78 | the system prompt is only prepended to the model input: a run adds no system message to the state |
| `AgentGraph.DirectAnswer` | javascript/app_current_date_time.js:81-86 | a first response without tool calls ends the run at once, with the input followed by that response |
| `AgentCli.IsQuit` | javascript/app_current_date_time.js:160 | quits exactly on "sair" spelled with any mix of letter case |
| `AgentCli.Turn` | javascript/app_current_date_time.js:166-188 | the human message is appended before the run and stays; the turn fails iff the run does not finish, and then the history is the old one plus that message; on success the history becomes exactly the run's final messages and the answer is the content of the last one, a response with no tool calls |
| `AgentCli.Session` | javascript/app_current_date_time.js:155-189 | definition: the turns on the inputs, in order, each on the history the previous one left, collecting one outcome per turn; its properties are stated by `SessionAppendOnly` |
| `AgentCli.SessionAppendOnly` | javascript/app_current_date_time.js:155-189 | across turns the history only grows, keeps its earlier messages, gains at least one message per turn, and there is one outcome per turn |
| `AgentCli.AnsweredTurnAppendsTrace` | javascript/app_current_date_time.js:168-184 | after a successful turn the history is the old history, the human message, then a run trace |
| `AgentCli.RunTurn` | javascript/app_current_date_time.js:166-188 | the loop body computes exactly the turn specified by `AgentCli.Turn`: the history and the outcome it shows |
| `AgentCli.Assistant` | javascript/app_current_date_time.js:155-189 | processes the inputs before the first "sair" and stops there; its history and outcomes are those of the turns on exactly those inputs |
| `Messages.LowerAt` | javascript/app.js:112 | lower-casing keeps the length and lowers each ASCII capital, leaving every other character as it is |
| `Messages.LowerEqualsWord` | app.py:88 | the lower-cased input equals a lower-case word iff the input spells that word with each letter in either case |
| `ChatChain.IsQuit` | javascript/app.js:112 | quits exactly on "sair" or "exit" in any mix of case |
| `ChatChain.Prompt` | javascript/app.js:38-42 | the prompt is the system text, then exactly the given history, then the current input in the human slot |
| `ChatChain.ChatTurn` | javascript/app.js:118-134 | definition of one turn on the history: a reply adds the input and the answer, an error leaves the history as it was; its properties are stated by `ChatTurnAppends` |
| `ChatChain.ChatHistory` | javascript/app.js:109-135 | definition: the turns on the inputs, in order; its properties are stated by `ChatHistoryGrowth` and `ChatHistoryAlternates` |
| `ChatChain.ChatTurnAppends` | javascript/app.js:118-134 | a turn keeps the history as a prefix; a failed call leaves it unchanged; a successful one adds exactly the human input and then the AI answer |
| `ChatChain.ChatHistoryGrowth` | javascript/app.js:120-134 | over a sequence of turns the history keeps its earlier messages and grows by exactly two per answered turn |
| `ChatChain.ChatHistoryAlternates` | javascript/app.js:76-79 | turns preserve the alternation human, AI, human, AI, … |
| `ChatChain.FromEmpty` | javascript/app.js:61 | starting from the empty array, n answered turns leave 2n messages alternating from human |
| `ChatChain.MessageList.constructor` | javascript/app.js:61 | a new array is empty |
| `ChatChain.MessageList.Push` | javascript/app.js:77-78 | `push` appends exactly the given message and keeps the earlier entries |
| `ChatChain.Assistant.constructor` | javascript/app.js:61 | the history starts as a fresh empty array |
| `ChatChain.Assistant.GetHistory` | javascript/app.js:67-69 | returns the live history object itself, so later pushes are visible through it |
| `ChatChain.Assistant.UpdateHistory` | javascript/app.js:76-79 | appends exactly a human message with the input and then an AI message with the output, leaving earlier entries unchanged |
| `ChatChain.Assistant.Turn` | javascript/app.js:118-134 | one turn calls the model on the live history and the input, and leaves the history as `ChatTurn` specifies: two more messages after a reply, unchanged after an error |
| `ChatChain.Assistant.Run` | javascript/app.js:101-136 | stops at the first quit input without calling the model; each earlier input is one call on a prompt of the history so far plus that input; the final history is that of those turns, updated only after calls that returned |
| `SessionStore.IsQuit` | app.py:88 | definition: the lower-cased input is "sair" or "exit"; its meaning is stated by `QuitWords` |
| `SessionStore.QuitWords` | app.py:88 | quits exactly on "sair" or "exit" in any mix of case |
| `SessionStore.Prompt` | app.py:33-40 | definition: the system template, the history, then the human input; its shape is stated by `PromptShape` |
| `SessionStore.ChainInvoke` | app.py:50 | definition: the chain is the prompt piped into the model, so a call is the model's outcome on the prompt |
| `SessionStore.LoopFrom` | app.py:86-99 | definition of the loop from a position: stop at a quit input or at the end, stop with an error when the model throws, else print the answer and go on; its meaning is stated by `LoopAt` |
| `SessionStore.PromptShape` | app.py:33-40 | the prompt is the system template, then exactly the session's history, then the human input |
| `SessionStore.LoopAt` | app.py:86-99 | the loop answers the inputs before the first quit input one by one, answer i being the model's reply to input i on the session history; it stops exactly at the first quit input, at the end of the inputs, or at the first model error, which it does not survive |
| `SessionStore.ChatMessageHistory.constructor` | app.py:62 | a new history is empty |
| `SessionStore.Store.constructor` | app.py:56 | the store starts empty |
| `SessionStore.Store.GetHistory` | app.py:59-64 | for a stored id, returns the stored object and changes nothing; otherwise creates a fresh empty history under that id only; the key set gains at most that id |
| `SessionStore.Store.GetHistoryTwice` | app.py:61-64 | two lookups with the same id return the same object |
| `SessionStore.Store.Ask` | app.py:92-95 | one chain call: looks up the fixed session id as `get_history` does, mapping only that id, and returns the model's outcome on that session's messages and the input |
| `SessionStore.Store.Run` | app.py:82-100 | every turn looks up the fixed session id, so all turns get the same history object, stored under that id only; the answers and the error stop are exactly those of `LoopFrom` from the first input on that history, which `LoopAt` characterises; a quit or empty first input makes no lookup and no call |

## Left out

- The chat model (`ChatGoogleGenerativeAI`, `llm.invoke`, `chain.invoke`) is a remote service. It is the oracle `ChatModel`, a deterministic function of its input. Its `tools` binding option is not modelled.
- The tools' own behaviour (Tavily search, and the São Paulo clock formatting with `Intl.DateTimeFormat`) is external. It is the oracle `invoke`. The registry holds only the tools' names.
- `JSON.stringify(results)` is not modelled as text: the tool message carries the results list itself.
- AgentGraph.RunFrom: the source has no cycle cap. The `fuel` bound stands in for it, and a run out of fuel is a failed turn in `AgentCli.Turn`. A run that needs more steps than the fuel allows is not described.
- The literal `"end"` label returned by the agent node is treated as termination of the graph. How the graph library resolves that label is not part of this model.
- LangChain and LangGraph internals are not modelled: prompt templating, runnables, and graph compilation. This includes substituting `{history}` and `{input}` into the app.py template, which appears as its raw text.
- SessionStore.Store.Run: `RunnableWithMessageHistory` writes the turn's messages into the session history. That write is not part of this model, so the stored history object keeps the messages it had.
- The chat model is a fixed function of its input, and so is each tool's `invoke`. Behaviour that changes from call to call is not modelled:
  - In `ChatChain`, a failed call leaves the history unchanged. Retyping the same input therefore rebuilds the same prompt, and the model fails again. javascript/app.js:130-134 goes on after an error so that such a retry can succeed; the model does not describe a retry that succeeds.
  - Likewise, `get_current_time` returns the same text for the same arguments on every call, although the real clock advances.
- Reading input and printing output (`readline`, `input`, `console`, `print`) are not modelled. The user's lines are a given sequence, and running out of lines ends a loop.
- Unicode case mapping is modelled for ASCII letters only.
- Loading `.env` and the async scheduling are not modelled; neither affects the control flow here.
