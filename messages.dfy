/** Message shapes shared by the three front ends of the pharmacist assistant,
  * and the ASCII case folding they use to recognise a quit command. */
module Messages {

  datatype Option<T> = None | Some(value: T)

  /** The arguments object of a tool call, kept opaque. */
  type Args = string

  /** A tool request emitted by the chat model. */
  datatype ToolCall = ToolCall(id: string, name: string, args: Args)

  /** A dispatched tool call: every field of the call, plus the tool's output. */
  datatype ToolResult = ToolResult(id: string, name: string, args: Args, result: string)

  /** One entry of a conversation: a system instruction, a user turn, a model
    * turn (possibly requesting tools) or the single tool message of a cycle. */
  datatype Message =
    | System(content: string)
    | Human(content: string)
    | Ai(content: string, toolCalls: seq<ToolCall>)
    | ToolMessage(results: seq<ToolResult>, toolCallId: string)

  /** What the chat model answers: text, and the tools it wants called. */
  datatype Response = Response(content: string, toolCalls: seq<ToolCall>)

  /** One call of the remote chat model: an answer, or a thrown error. */
  datatype ModelOutcome = Reply(response: Response) | ModelThrew

  /** The remote chat model, as an oracle from its input messages to its outcome. */
  type ChatModel = seq<Message> -> ModelOutcome

  function Last<T>(s: seq<T>): T
    requires |s| > 0
  {
    s[|s| - 1]
  }

  predicate IsPrefix<T(==)>(p: seq<T>, s: seq<T>) {
    |p| <= |s| && s[..|p|] == p
  }

  function LowerChar(c: char): char {
    if 'A' <= c <= 'Z' then (c as int + 32) as char else c
  }

  /** ASCII lower-casing, the part of `toLowerCase` / `lower` the quit checks depend on. */
  function Lower(s: string): string {
    if s == [] then [] else [LowerChar(s[0])] + Lower(s[1..])
  }

  /** Lower-casing keeps the length and maps each character on its own. */
  lemma {:induction false} LowerAt(s: string)
    ensures |Lower(s)| == |s|
    ensures forall i :: 0 <= i < |s| ==> Lower(s)[i] == LowerChar(s[i])
  {
    if s != [] {
      LowerAt(s[1..]);
    }
  }

  predicate IsLowerWord(w: string) {
    forall i :: 0 <= i < |w| ==> 'a' <= w[i] <= 'z'
  }

  /** `s` spells `w` with each letter in either case. */
  predicate SameIgnoringCase(s: string, w: string) {
    |s| == |w| && forall i :: 0 <= i < |s| ==> s[i] == w[i] || s[i] as int + 32 == w[i] as int
  }

  /** Comparing the lower-cased input with a lower-case word accepts exactly
    * the spellings of that word in mixed case. */
  lemma LowerEqualsWord(s: string, w: string)
    requires IsLowerWord(w)
    ensures Lower(s) == w <==> SameIgnoringCase(s, w)
  {
    LowerAt(s);
    if |s| == |w| {
      if Lower(s) == w {
        forall i | 0 <= i < |s|
          ensures s[i] == w[i] || s[i] as int + 32 == w[i] as int
        {
          assert LowerChar(s[i]) == w[i];
        }
      }
      if SameIgnoringCase(s, w) {
        forall i | 0 <= i < |s|
          ensures Lower(s)[i] == w[i]
        {
          assert 'a' <= w[i] <= 'z';
        }
        assert Lower(s) == w;
      }
    }
  }
}
