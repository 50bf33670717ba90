/** The message list the chat route sends to the language model: the system
    instructions, the earlier turns unchanged, and the last turn re-sent as a `user`
    message carrying the context block. */
module PromptAssembler {
  import opened Wrappers
  import opened ChatTypes
  import opened QueryExtractor

  /** A placeholder for the route's fixed behavioural instructions, not their text. Their
      wording is not part of the model and no property depends on it; only their position
      in the outgoing list is modelled. */
  const SystemPrompt: string := "RateMyProfessor assistant: rank the top 3 matching professors."

  const SystemMessage: Message := Message(SystemRole, SystemPrompt)

  /** The outgoing messages for a conversation and the context block. The route only
      reaches this step once the query read has succeeded, so `data` is not empty. */
  function Assemble(data: seq<Message>, context: string): (out: seq<Message>)
    requires |data| > 0
    ensures |out| == |data| + 1
    ensures out[0] == SystemMessage
    ensures out[1..|data|] == data[..|data| - 1]
    ensures out[|data|].role == UserRole
    ensures ExtractQuery(data).Success? && out[|data|].content == ExtractQuery(data).value + context
  {
    var last := data[|data| - 1];
    [SystemMessage] + data[..|data| - 1] + [Message(UserRole, last.content + context)]
  }

  /** Number of messages in `ms` whose role is `role`. */
  function CountRole(ms: seq<Message>, role: string): (n: nat)
    ensures n <= |ms|
  {
    if |ms| == 0 then 0
    else (if ms[0].role == role then 1 else 0) + CountRole(ms[1..], role)
  }

  lemma {:induction false} CountRoleAppend(a: seq<Message>, b: seq<Message>, role: string)
    ensures CountRole(a + b, role) == CountRole(a, role) + CountRole(b, role)
    decreases |a|
  {
    if |a| == 0 {
      assert a + b == b;
    } else {
      assert (a + b)[1..] == a[1..] + b;
      CountRoleAppend(a[1..], b, role);
    }
  }

  /** Exactly one system message is added: the output has one more system-role
      message than the earlier turns, and system-role turns already in the history are
      kept. */
  lemma OneSystemMessageAdded(data: seq<Message>, context: string)
    requires |data| > 0
    ensures CountRole(Assemble(data, context), SystemRole) == 1 + CountRole(data[..|data| - 1], SystemRole)
  {
    var out := Assemble(data, context);
    var history := data[..|data| - 1];
    var last := Message(UserRole, data[|data| - 1].content + context);
    assert out == [SystemMessage] + (history + [last]);
    CountRoleAppend([SystemMessage], history + [last], SystemRole);
    CountRoleAppend(history, [last], SystemRole);
  }

  /** When the earlier turns hold no system message, the instructions are the only
      system message and they come first. */
  lemma SystemMessageOnlyFirst(data: seq<Message>, context: string)
    requires |data| > 0
    requires forall i :: 0 <= i < |data| - 1 ==> data[i].role != SystemRole
    ensures var out := Assemble(data, context);
            forall i :: 0 <= i < |out| ==> (out[i].role == SystemRole <==> i == 0)
  {
    var out := Assemble(data, context);
    forall i | 0 <= i < |out| ensures out[i].role == SystemRole <==> i == 0 {
      if 0 < i < |data| {
        assert out[i] == out[1..|data|][i - 1] == data[i - 1];
      }
    }
  }

  /** Takes an outgoing list apart again: the earlier turns and the content of the
      final message, when the list has the shape `Assemble` produces. */
  function Disassemble(out: seq<Message>): (r: Option<(seq<Message>, string)>)
  {
    if |out| >= 2 && out[0] == SystemMessage && out[|out| - 1].role == UserRole
    then Some((out[1..|out| - 1], out[|out| - 1].content))
    else None
  }

  /** The outgoing list loses nothing: the earlier turns come back unchanged and in
      order, and the final content is the query followed by the context block. */
  lemma AssembleRoundTrip(data: seq<Message>, context: string)
    requires |data| > 0
    ensures Disassemble(Assemble(data, context)) ==
            Some((data[..|data| - 1], ExtractQuery(data).value + context))
  {
  }

  /** Re-reading the outgoing list, the language model's query is the user's query
      followed by the context block. */
  lemma AssembledQueryCarriesContext(data: seq<Message>, context: string)
    requires |data| > 0
    ensures ExtractQuery(Assemble(data, context)) == Success(ExtractQuery(data).value + context)
  {
  }
}
