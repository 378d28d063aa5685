/** The chat window of the dashboard (`ChatBotWindow.sendMessage`): a
    question typed into the input is shown, sent to `/chat`, and the answer
    or an error is shown after it. The request is a parameter: what the
    server's reply amounted to. */
module ChatWindow {
  import opened Wrappers
  import opened Text

  datatype Author = User | Bot

  datatype Message = Message(author: Author, text: string, isError: bool)

  /** The window's state: the messages shown, the input and whether an
      answer is awaited. */
  datatype Chat = Chat(messages: seq<Message>, input: string, loading: bool)

  /** The outcome of the request: it failed (a status other than 2xx or a
      raised error), or it succeeded with the body's `answer`, `None` when
      the body has none. */
  datatype Reply = Failed | Answered(answer: Option<string>)

  const Apology := "Извините, не могу обработать запрос"

  const ConnectionError := "Ошибка соединения с сервером. Проверьте настройки API."

  /** The first half of `sendMessage`: a blank input does nothing;
      otherwise the question is shown, the input cleared, the answer
      awaited, and the question as typed is sent. */
  function Submit(c: Chat): (r: (Chat, Option<string>))
    ensures r.1.None? <==> AllSpace(c.input)
    ensures r.1.None? ==> r.0 == c
  {
    StripEmptyIff(c.input);
    if Strip(c.input) == "" then (c, None)
    else (Chat(c.messages + [Message(User, c.input, false)], "", true), Some(c.input))
  }

  /** The bot's message for a reply: the answer, the apology for a missing
      or empty answer, or the connection error marked as an error. */
  function BotMessage(reply: Reply): (m: Message)
    ensures m.author == Bot
    ensures m.isError <==> reply.Failed?
  {
    match reply
    case Failed => Message(Bot, ConnectionError, true)
    case Answered(answer) =>
      Message(Bot, if answer.Some? && answer.value != "" then answer.value else Apology, false)
  }

  /** The second half: the bot's message is shown and the wait ends. */
  function Receive(c: Chat, reply: Reply): (next: Chat)
    ensures next.messages == c.messages + [BotMessage(reply)]
    ensures !next.loading && next.input == c.input
  {
    Chat(c.messages + [BotMessage(reply)], c.input, false)
  }

  /** A whole `sendMessage` whose request got the given reply. */
  function Send(c: Chat, reply: Reply): Chat {
    var (asked, question) := Submit(c);
    if question.None? then c else Receive(asked, reply)
  }

  /** A blank input leaves the window as it is; any other input adds
      exactly the user's message and then the bot's, clears the input and
      ends the wait. */
  lemma SendSpec(c: Chat, reply: Reply)
    ensures AllSpace(c.input) ==> Send(c, reply) == c
    ensures !AllSpace(c.input) ==>
              Send(c, reply) == Chat(c.messages + [Message(User, c.input, false), BotMessage(reply)], "", false)
  {
    StripEmptyIff(c.input);
    if !AllSpace(c.input) {
      assert c.messages + [Message(User, c.input, false)] + [BotMessage(reply)]
          == c.messages + [Message(User, c.input, false), BotMessage(reply)];
    }
  }

  /** The bot's text is the answer when there is a non-empty one, the
      apology when the answer is missing or empty, and the connection error
      when the request failed. */
  lemma BotMessageSpec(reply: Reply)
    ensures forall text :: text != "" ==>
              (BotMessage(reply) == Message(Bot, text, false) <==> (reply == Answered(Some(text)) || (text == Apology && reply.Answered? && (reply.answer.None? || reply.answer.value == ""))))
    ensures BotMessage(reply).text == ConnectionError <==> reply.Failed? || reply == Answered(Some(ConnectionError))
  {
  }

  /** The messages alternate: the user's at even positions, the bot's at
      odd ones, in complete pairs. */
  predicate Alternating(messages: seq<Message>) {
    && |messages| % 2 == 0
    && forall k :: 0 <= k < |messages| ==> messages[k].author == (if k % 2 == 0 then User else Bot)
  }

  /** Sending keeps the conversation in question-answer pairs, and no
      message is ever lost. */
  lemma SendAlternates(c: Chat, reply: Reply)
    requires Alternating(c.messages)
    ensures Alternating(Send(c, reply).messages)
    ensures c.messages <= Send(c, reply).messages
  {
    SendSpec(c, reply);
  }

  /** Any conversation of sends from an empty window is a run of
      question-answer pairs, one pair per non-blank input. */
  function Conversation(inputs: seq<string>, replies: seq<Reply>): (c: Chat)
    requires |inputs| == |replies|
    decreases |inputs|
    ensures Alternating(c.messages)
    ensures |c.messages| == 2 * Nonblank(inputs)
  {
    if |inputs| == 0 then Chat([], "", false)
    else
      var n := |inputs| - 1;
      var before := Conversation(inputs[..n], replies[..n]);
      var typed := Chat(before.messages, inputs[n], before.loading);
      SendAlternates(typed, replies[n]);
      SendSpec(typed, replies[n]);
      Send(typed, replies[n])
  }

  /** The number of inputs that are not blank. */
  function Nonblank(inputs: seq<string>): nat
    decreases |inputs|
  {
    if |inputs| == 0 then 0
    else Nonblank(inputs[..|inputs| - 1]) + (if AllSpace(inputs[|inputs| - 1]) then 0 else 1)
  }
}
