/** llm/memory/slack_memory.py: turning a channel's Slack history into the
    chat history a conversational agent starts from. */
module SlackMemory {
  import Constants

  /** One entry of a `conversations.history` reply: its text, and whether
      the entry carries a `bot_id` key. */
  datatype SlackMessage = SlackMessage(text: string, hasBotId: bool)

  /** What the Slack client's history call gives back: the messages,
      newest first, or the error code of a raised SlackApiError. */
  datatype HistoryReply = History(messages: seq<SlackMessage>) | ApiError(error: string)

  /** A message of an agent's chat history. `Other` stands for the kinds the
      application does not render (function, tool and generic chat messages). */
  datatype ChatMessage =
    | Human(content: string)
    | Ai(content: string)
    | System(content: string)
    | Other(role: string, content: string)

  /** The chat history object of the agent's conversation buffer; messages
      are appended in place. */
  class ChatMessageHistory {
    var messages: seq<ChatMessage>

    constructor ()
      ensures messages == []
    {
      messages := [];
    }

    method AddUserMessage(text: string)
      modifies this
      ensures messages == old(messages) + [Human(text)]
    {
      messages := messages + [Human(text)];
    }

    method AddAiMessage(text: string)
      modifies this
      ensures messages == old(messages) + [Ai(text)]
    {
      messages := messages + [Ai(text)];
    }
  }

  /** The texts that are left out of the conversation: the loading
      indicator and the custom slash commands. */
  predicate IsCommand(text: string) {
    text in [Constants.LoadingIndicator] + Constants.CustomSlackCommands
  }

  /** The list comprehension: the fetched messages that are not commands,
      in the order fetched. */
  function NonCommandMessages(ms: seq<SlackMessage>): (r: seq<SlackMessage>)
    ensures |r| <= |ms|
    ensures forall m :: m in r <==> m in ms && !IsCommand(m.text)
  {
    if ms == [] then []
    else (if IsCommand(ms[0].text) then [] else [ms[0]]) + NonCommandMessages(ms[1..])
  }

  /** A kept Slack message becomes an AI message when it has a `bot_id`,
      and a user message otherwise; its text is copied unchanged. */
  function ToChatMessage(m: SlackMessage): ChatMessage {
    if m.hasBotId then Ai(m.text) else Human(m.text)
  }

  /** The buffer slack_to_llm_memory builds from a newest-first history:
      each kept message, classified, in front of the newer ones. */
  function Conversation(ms: seq<SlackMessage>): seq<ChatMessage> {
    if ms == [] then []
    else Conversation(ms[1..]) + (if IsCommand(ms[0].text) then [] else [ToChatMessage(ms[0])])
  }

  /** Counts the fetched messages that are not commands. */
  function CountNonCommand(ms: seq<SlackMessage>): nat {
    if ms == [] then 0
    else (if IsCommand(ms[0].text) then 0 else 1) + CountNonCommand(ms[1..])
  }

  /** Fetches the history and replays it, oldest first, into a fresh chat
      history; on a Slack API error there is no memory at all. */
  method SlackToLlmMemory(reply: HistoryReply) returns (memory: ChatMessageHistory?)
    ensures memory == null <==> reply.ApiError?
    ensures memory != null ==> fresh(memory) && memory.messages == Conversation(reply.messages)
  {
    memory := new ChatMessageHistory();
    match reply {
      case ApiError(_) =>
        memory := null;
      case History(messages) =>
        var kept := NonCommandMessages(messages);
        var i := |kept|;
        while i > 0
          invariant 0 <= i <= |kept|
          invariant memory.messages == Conversation(kept[i..])
        {
          i := i - 1;
          var message := kept[i];
          assert message in kept;
          assert kept[i..][1..] == kept[i + 1..];
          if message.hasBotId {
            memory.AddAiMessage(message.text);
          } else {
            memory.AddUserMessage(message.text);
          }
        }
        assert kept[0..] == kept;
        ConversationOfKept(messages);
    }
  }

  // ---------------------------------------------------------------------
  // Properties of the buffer

  /** The filter distributes over concatenation of fetched pages. */
  lemma {:induction false} NonCommandMessagesAppend(a: seq<SlackMessage>, b: seq<SlackMessage>)
    ensures NonCommandMessages(a + b) == NonCommandMessages(a) + NonCommandMessages(b)
  {
    if a == [] {
      assert a + b == b;
    } else {
      assert (a + b)[0] == a[0];
      assert (a + b)[1..] == a[1..] + b;
      NonCommandMessagesAppend(a[1..], b);
    }
  }

  /** Replaying only the kept messages gives the same buffer as replaying
      the whole history. */
  lemma {:induction false} ConversationOfKept(ms: seq<SlackMessage>)
    ensures Conversation(NonCommandMessages(ms)) == Conversation(ms)
  {
    if ms != [] {
      ConversationOfKept(ms[1..]);
      var rest := NonCommandMessages(ms[1..]);
      var kept := NonCommandMessages(ms);
      if IsCommand(ms[0].text) {
        assert kept == rest;
        assert Conversation(ms) == Conversation(ms[1..]) + [];
      } else {
        assert kept == [ms[0]] + rest;
        assert kept[1..] == rest;
        assert Conversation(kept) == Conversation(rest) + [ToChatMessage(ms[0])];
      }
    }
  }

  /** Every kept message is added exactly once: the buffer is as long as
      the number of fetched messages that are not commands. */
  lemma {:induction false} ConversationLength(ms: seq<SlackMessage>)
    ensures |Conversation(ms)| == CountNonCommand(ms)
  {
    if ms != [] {
      ConversationLength(ms[1..]);
    }
  }

  /** `c` holds the messages of `kept`, classified, in reverse order. */
  predicate ReversedClassified(c: seq<ChatMessage>, kept: seq<SlackMessage>) {
    |c| == |kept| && forall i :: 0 <= i < |c| ==> c[i] == ToChatMessage(kept[|kept| - 1 - i])
  }

  /** The buffer is the kept messages in exactly the reverse of the fetched
      order, each classified by its `bot_id` with its text unchanged. */
  lemma {:induction false} ConversationReversesKept(ms: seq<SlackMessage>)
    ensures ReversedClassified(Conversation(ms), NonCommandMessages(ms))
  {
    if ms != [] {
      ConversationReversesKept(ms[1..]);
      var rest := NonCommandMessages(ms[1..]);
      var kept := NonCommandMessages(ms);
      var later := Conversation(ms[1..]);
      var c := Conversation(ms);
      if IsCommand(ms[0].text) {
        assert kept == rest;
        assert c == later + [];
      } else {
        assert kept == [ms[0]] + rest;
        assert c == later + [ToChatMessage(ms[0])];
        forall i | 0 <= i < |c|
          ensures c[i] == ToChatMessage(kept[|kept| - 1 - i])
        {
          if i < |later| {
            assert c[i] == later[i];
            assert kept[|kept| - 1 - i] == rest[|rest| - 1 - i];
          } else {
            assert kept[|kept| - 1 - i] == ms[0];
          }
        }
      }
    }
  }

  /** Neither the loading indicator nor a custom command ever reaches the
      buffer, and every buffered message is a user or an AI message. */
  lemma {:induction false} CommandsNeverReachBuffer(ms: seq<SlackMessage>)
    ensures forall c :: c in Conversation(ms) ==> !IsCommand(c.content) && (c.Human? || c.Ai?)
  {
    if ms != [] {
      CommandsNeverReachBuffer(ms[1..]);
    }
  }

  /** Every fetched message that is not a command appears in the buffer,
      classified by its `bot_id` and with its text unchanged. */
  lemma {:induction false} KeptMessagesReachBuffer(ms: seq<SlackMessage>)
    ensures forall m :: m in ms && !IsCommand(m.text) ==> ToChatMessage(m) in Conversation(ms)
  {
    if ms != [] {
      KeptMessagesReachBuffer(ms[1..]);
      forall m | m in ms && !IsCommand(m.text)
        ensures ToChatMessage(m) in Conversation(ms)
      {
        if m != ms[0] {
          assert m in ms[1..];
        }
      }
    }
  }

  /** The buffer is oldest first: appending an older message to the
      newest-first history puts it at the front of the buffer. */
  lemma {:induction false} OldestMessageFirst(ms: seq<SlackMessage>, oldest: SlackMessage)
    ensures Conversation(ms + [oldest])
            == (if IsCommand(oldest.text) then [] else [ToChatMessage(oldest)]) + Conversation(ms)
  {
    var head := if IsCommand(oldest.text) then [] else [ToChatMessage(oldest)];
    if ms == [] {
      assert [] + [oldest] == [oldest];
      assert [oldest][1..] == [];
    } else {
      assert (ms + [oldest])[0] == ms[0];
      assert (ms + [oldest])[1..] == ms[1..] + [oldest];
      OldestMessageFirst(ms[1..], oldest);
    }
  }
}
