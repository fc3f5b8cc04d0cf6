/** The driver app's chat panel
    (driver-app/src/app/components/chatbot/chatbot.component.ts): a question
    is sent inside a fixed prompt and the answer streams back in chunks that
    are appended to one bot message. */
module Chatbot {
  import opened Common

  datatype Sender = User | Bot

  /** `time` is the "HH:MM" text of the moment the message was added. */
  datatype Message = Message(text: string, sender: Sender, time: string)

  const Greeting: string := "Bonjour ! Posez-moi une question sur votre conso."
  const ErrorReply: string := "Erreur. Réessayez."

  /** The fixed text before and after the question once the template is trimmed. */
  const PromptHead: string := "Tu es l'assistant IA d'Agil Fleet.\nDonnées :\n- Véhicule : Renault Clio\n- Dernier plein : 50L le 10/11/2025\n- Conso moyenne : 7.8 L/100km\n- Prochain plein : 48L le 13/11/2025\n\nQuestion : "
  const PromptTail: string := "\n\nRéponds court, en français, utile."

  /** One chunk of the stream: a new bot message is opened unless the last
      message is already the bot's, then the chunk goes at its end. */
  function ApplyChunk(messages: seq<Message>, chunk: string, time: string): (r: seq<Message>)
    requires |messages| >= 1
    ensures |r| >= 1 && r[|r| - 1].sender == Bot
  {
    var m := if messages[|messages| - 1].sender != Bot then messages + [Message("", Bot, time)] else messages;
    m[|m| - 1 := m[|m| - 1].(text := m[|m| - 1].text + chunk)]
  }

  /** The chunks of one answer, with the time each arrived. */
  function Replay(messages: seq<Message>, chunks: seq<string>, times: seq<string>): seq<Message>
    requires |messages| >= 1 && |times| == |chunks|
    decreases |chunks|
  {
    if chunks == [] then messages else Replay(ApplyChunk(messages, chunks[0], times[0]), chunks[1..], times[1..])
  }

  function Concat(chunks: seq<string>): string
    decreases |chunks|
  {
    if chunks == [] then "" else chunks[0] + Concat(chunks[1..])
  }

  /** Once the last message is the bot's, every further chunk lands in it. */
  lemma {:induction false} ReplayIntoBot(messages: seq<Message>, chunks: seq<string>, times: seq<string>)
    requires |messages| >= 1 && messages[|messages| - 1].sender == Bot && |times| == |chunks|
    ensures var last := messages[|messages| - 1];
      Replay(messages, chunks, times) == messages[..|messages| - 1] + [last.(text := last.text + Concat(chunks))]
    decreases |chunks|
  {
    var n := |messages| - 1;
    var last := messages[n];
    if chunks == [] {
      assert last.(text := last.text + "") == last;
      assert messages == messages[..n] + [last];
    } else {
      var next := ApplyChunk(messages, chunks[0], times[0]);
      assert next == messages[n := last.(text := last.text + chunks[0])];
      ReplayIntoBot(next, chunks[1..], times[1..]);
      assert next[..n] == messages[..n];
      assert last.text + chunks[0] + Concat(chunks[1..]) == last.text + Concat(chunks);
    }
  }

  /** After a user message, a streamed answer is one new bot message, opened at
      the first chunk's time, whose text is all the chunks in order. */
  lemma StreamedAnswer(messages: seq<Message>, chunks: seq<string>, times: seq<string>)
    requires |messages| >= 1 && messages[|messages| - 1].sender == User
    requires |chunks| >= 1 && |times| == |chunks|
    ensures Replay(messages, chunks, times) == messages + [Message(Concat(chunks), Bot, times[0])]
  {
    var started := messages + [Message("", Bot, times[0])];
    assert "" + chunks[0] == chunks[0];
    var next := ApplyChunk(messages, chunks[0], times[0]);
    assert next == started[|started| - 1 := Message(chunks[0], Bot, times[0])];
    assert next == messages + [Message(chunks[0], Bot, times[0])];
    ReplayIntoBot(next, chunks[1..], times[1..]);
    assert (messages + [Message(chunks[0], Bot, times[0])])[..|messages|] == messages;
  }

  class ChatbotComponent {
    var isOpen: bool
    var userMessage: string
    var messages: seq<Message>

    constructor(time: string)
      ensures !isOpen && userMessage == "" && messages == [Message(Greeting, Bot, time)]
    {
      isOpen, userMessage, messages := false, "", [Message(Greeting, Bot, time)];
    }

    /** `toggleChat`: two toggles restore the panel. */
    method ToggleChat()
      modifies this`isOpen
      ensures isOpen == !old(isOpen)
    {
      isOpen := !isOpen;
    }

    /** `sendMessage`: blank input changes nothing; otherwise the trimmed text is
        added as the user's message, the input is cleared and the prompt built
        around the question is returned. */
    method SendMessage(time: string) returns (prompt: Option<string>)
      modifies this`messages, this`userMessage
      ensures Trim(old(userMessage)) == "" ==>
        prompt == None && messages == old(messages) && userMessage == old(userMessage)
      ensures Trim(old(userMessage)) != "" ==>
        (messages == old(messages) + [Message(Trim(old(userMessage)), User, time)] && userMessage == ""
         && prompt == Some(PromptHead + Trim(old(userMessage)) + PromptTail))
    {
      if Trim(userMessage) == "" {
        return None;
      }
      var msg := Trim(userMessage);
      messages := messages + [Message(msg, User, time)];
      userMessage := "";
      prompt := Some(PromptHead + msg + PromptTail);
    }

    /** The stream's `next`. */
    method OnChunk(chunk: string, time: string)
      requires |messages| >= 1
      modifies this`messages
      ensures messages == ApplyChunk(old(messages), chunk, time)
    {
      var m := messages;
      if m[|m| - 1].sender != Bot {
        m := m + [Message("", Bot, time)];
      }
      m := m[|m| - 1 := m[|m| - 1].(text := m[|m| - 1].text + chunk)];
      messages := m;
    }

    /** The stream's `error`: one bot message with the fixed reply. */
    method OnStreamError(time: string)
      modifies this`messages
      ensures messages == old(messages) + [Message(ErrorReply, Bot, time)]
    {
      messages := messages + [Message(ErrorReply, Bot, time)];
    }
  }
}
