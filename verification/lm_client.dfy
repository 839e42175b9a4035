/** The payload the application hands to the inference client: a role-tagged history. */
module LmClient {
  import opened Conversations

  /** One `{role, content}` element of a chat-completion request. */
  datatype HistoryEntry = HistoryEntry(role: string, content: string)

  const UserRole: string := "user"
  const AssistantRole: string := "assistant"

  /** The role a transcript entry is sent under. */
  function RoleOf(m: ChatMessage): string {
    if m.isUser then UserRole else AssistantRole
  }

  /**
   * The history built by walking the transcript front to back and pushing
   * one entry per message.
   */
  function History(messages: seq<ChatMessage>): (h: seq<HistoryEntry>)
    ensures |h| == |messages|
    ensures forall i :: 0 <= i < |h| ==>
      && h[i].content == messages[i].content
      && (h[i].role == UserRole <==> messages[i].isUser)
      && (h[i].role == AssistantRole <==> !messages[i].isUser)
    decreases |messages|
  {
    if |messages| == 0 then []
    else
      var last := messages[|messages| - 1];
      History(messages[..|messages| - 1]) + [HistoryEntry(RoleOf(last), last.content)]
  }

  /** Building the history distributes over concatenation of transcripts. */
  lemma {:induction false} HistoryAppend(a: seq<ChatMessage>, b: seq<ChatMessage>)
    ensures History(a + b) == History(a) + History(b)
    decreases |b|
  {
    if |b| > 0 {
      var b' := b[..|b| - 1];
      assert (a + b)[..|a + b| - 1] == a + b';
      HistoryAppend(a, b');
    } else {
      assert a + b == a;
    }
  }
}
