/**
 * The stand-alone MSN chat window: its own conversation, opened on two
 * fixed messages. Its input and its `sendMessage` follow the same rule as
 * the chat page, so the window is a `Chat.Conversation`.
 */
module MsnChatWindow {
  import opened Chat

  /** The two messages the window opens with. */
  const Opening: seq<Message> := [
    Message("1", Them, "Olá! Como vai?", "14:30"),
    Message("2", Me, "Tudo bem, e você?", "14:31")
  ]

  /** Mounting the window: a new conversation holding the opening messages, with an empty input. */
  method Open() returns (w: Conversation)
    ensures fresh(w)
    ensures w.messages == Opening && w.input == []
  {
    w := new Conversation(Opening);
  }
}
