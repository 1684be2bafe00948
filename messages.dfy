/**
 * The LangChain message kinds that flow through the agent graph
 * (SystemMessage, HumanMessage, AIMessage, ToolMessage), reduced to what the
 * decision logic reads: the text content, the tool calls an AI message
 * carries, and the call id a tool result answers.
 */
module Messages {

  /** A structured tool request made by the model; the arguments stay opaque. */
  datatype ToolCall = ToolCall(name: string, args: string, id: string)

  datatype Message =
    | System(content: string)
    | Human(content: string)
    | AI(content: string, toolCalls: seq<ToolCall>)
    | Tool(content: string, toolCallId: string)

  /** What the language model returns for one call: always an AI message. */
  datatype Reply = Reply(content: string, toolCalls: seq<ToolCall>) {
    function AsMessage(): (m: Message)
      ensures m.AI? && m.content == content && m.toolCalls == toolCalls
    {
      AI(content, toolCalls)
    }
  }

  /** No system directive anywhere in `h`. */
  predicate NoSystem(h: seq<Message>)
  {
    forall i :: 0 <= i < |h| ==> !h[i].System?
  }

  /** Nothing in `h` is a user message. */
  predicate NoHuman(h: seq<Message>)
  {
    forall i :: 0 <= i < |h| ==> !h[i].Human?
  }
}
