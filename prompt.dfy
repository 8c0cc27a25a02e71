/**
 * The conversation sent by the client and the prompt built from it for the
 * generative model (app/api/chat/route.js, lines 12, 93-102 and 134-140).
 */
module Prompt {
  import opened Wrappers

  /** One element of the request body. The handler reads only `content`. */
  datatype Message = Message(role: string, content: string)

  /**
   * The fixed system instructions (app/api/chat/route.js:12-86). Their text
   * plays no part in any property, so the constant is left uninterpreted.
   */
  const SystemPrompt: string

  /** The request body once parsed as JSON. */
  datatype Body = Unparsable | NotArray | Array(items: seq<Message>)

  /** The input check: the body must be an array with at least one element. */
  function Validate(body: Body): (r: Option<seq<Message>>)
    ensures r.Some? <==> body.Array? && |body.items| > 0
    ensures r.Some? ==> r.value == body.items
  {
    match body
    case Array(items) => if |items| == 0 then None else Some(items)
    case _ => None
  }

  /** The text of the most recent message: the only text that is embedded. */
  function LastContent(data: seq<Message>): (r: string)
    requires |data| > 0
    ensures r == Contents(data)[|data| - 1]
  {
    data[|data| - 1].content
  }

  /** The `{ text: msg.content }` parts of the earlier messages, in order. */
  function Contents(msgs: seq<Message>): (r: seq<string>)
    ensures |r| == |msgs|
    ensures forall i :: 0 <= i < |msgs| ==> r[i] == msgs[i].content
  {
    if msgs == [] then [] else [msgs[0].content] + Contents(msgs[1..])
  }

  /**
   * The parts handed to the generator: the system prompt, then every earlier
   * message's content unchanged, then the last message's content with the
   * retrieval context appended after it.
   */
  function Compose(data: seq<Message>, context: string): (r: seq<string>)
    requires |data| > 0
    ensures |r| == |data| + 1
    ensures r[0] == SystemPrompt
    ensures forall i :: 1 <= i < |data| ==> r[i] == data[i - 1].content
    ensures LastContent(data) <= r[|data|]
    ensures r[|data|][|LastContent(data)|..] == context
  {
    [SystemPrompt] + Contents(data[..|data| - 1]) + [LastContent(data) + context]
  }

  /** Whatever came before, the text embedded is that of the message appended last. */
  lemma {:induction false} LastContentIgnoresHistory(history: seq<Message>, m: Message)
    ensures LastContent(history + [m]) == m.content
  {
    assert (history + [m])[|history|] == m;
  }

  /** With no retrieval context the final part is exactly the user's text. */
  lemma {:induction false} EmptyContextKeepsQuestion(data: seq<Message>)
    requires |data| > 0
    ensures Compose(data, "")[|data|] == LastContent(data)
  {
    var last := Compose(data, "")[|data|];
    assert last == last[..|LastContent(data)|];
  }

  /**
   * Earlier messages reach the generator unchanged: replacing the last
   * message or the context never alters the parts before it.
   */
  lemma {:induction false} HistoryIndependentOfQuery(data: seq<Message>, m: Message, c1: string, c2: string)
    requires |data| > 0
    ensures Compose(data, c1)[..|data|] == Compose(data[..|data| - 1] + [m], c2)[..|data|]
  {
    var other := data[..|data| - 1] + [m];
    assert other[..|other| - 1] == data[..|data| - 1];
  }
}
