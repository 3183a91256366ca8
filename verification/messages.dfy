/** The conversation data shared by the chat page and the chat route. */
module Messages {

  datatype Role = User | Assistant | System

  /** One turn of the conversation; `isCodeSnippet` selects the code-preview rendering. */
  datatype Message = Message(role: Role, content: string, isCodeSnippet: bool)

  function UserMessage(content: string): Message
  {
    Message(User, content, false)
  }

  function AssistantMessage(content: string): Message
  {
    Message(Assistant, content, false)
  }

  function SystemMessage(content: string): Message
  {
    Message(System, content, false)
  }

  /** The number of assistant turns in a conversation. */
  function AssistantCount(msgs: seq<Message>): nat
  {
    if |msgs| == 0 then 0
    else AssistantCount(msgs[..|msgs| - 1]) + (if msgs[|msgs| - 1].role == Assistant then 1 else 0)
  }

  lemma {:induction false} AssistantCountAppend(a: seq<Message>, b: seq<Message>)
    ensures AssistantCount(a + b) == AssistantCount(a) + AssistantCount(b)
    decreases |b|
  {
    if |b| == 0 {
      assert a + b == a;
    } else {
      assert (a + b)[..|a + b| - 1] == a + b[..|b| - 1];
      AssistantCountAppend(a, b[..|b| - 1]);
    }
  }
}
