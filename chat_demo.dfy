/** The landing page's demonstration chat: a scripted opening conversation, the visitor's
    messages appended as typed, and a canned bot answer after each send. The one-second reply
    timer is an explicit event; the entry animations that the delays drive are left out. */
module ChatDemo {
  import opened Text

  datatype Role = Bot | User

  /** One entry of the log; `delay` is the entry animation's delay in seconds. */
  datatype DemoMessage = DemoMessage(role: Role, content: string, delay: real)

  /** The log the section opens with. */
  const DemoMessages: seq<DemoMessage> := [
    DemoMessage(Bot, "Hello! I'm your Chatwise AI assistant. How can I help you today?", 0.0),
    DemoMessage(User, "Do you have the new AirPods Pro in stock?", 0.5),
    DemoMessage(Bot, "Yes, we currently have the AirPods Pro (2nd generation) in stock! They're priced at $249 and feature active noise cancellation, transparency mode, and spatial audio. Would you like to know more about their features or are you interested in purchasing them?", 1.0),
    DemoMessage(User, "What colors are available?", 1.5),
    DemoMessage(Bot, "The AirPods Pro come in white only. The case has a glossy finish and supports both MagSafe and wireless charging. Would you like to add a pair to your cart?", 2.0)
  ]

  const ScriptLength := 5

  /** The answer every send receives. */
  const BotReply :=
    "Thank you for your message! This is a demonstration of how Chatwise responds to customer inquiries in real-time. In a real implementation, our AI would provide a helpful, relevant response to your specific question."

  /** Entry `i` is from the bot exactly when `i` is even. */
  predicate Alternates(log: seq<DemoMessage>) {
    forall i :: 0 <= i < |log| ==> (log[i].role == Bot <==> i % 2 == 0)
  }

  /** The script: five entries taking turns, the bot first, each half a second after the last. */
  lemma ScriptAlternatesFromBot()
    ensures |DemoMessages| == ScriptLength && Alternates(DemoMessages)
    ensures DemoMessages[0].role == Bot
    ensures forall i :: 0 < i < |DemoMessages| ==> DemoMessages[i].delay == DemoMessages[i - 1].delay + 0.5
  {
  }

  /** How many entries of `log` have role `r`. */
  function Count(log: seq<DemoMessage>, r: Role): (n: nat)
    ensures n <= |log|
  {
    if log == [] then 0
    else Count(log[..|log| - 1], r) + (if log[|log| - 1].role == r then 1 else 0)
  }

  /** An entry appended after the script: the visitor's non-blank text, or the canned answer;
      both without delay. */
  predicate Appended(m: DemoMessage) {
    && m.delay == 0.0
    && (m.role == User ==> !IsBlank(m.content))
    && (m.role == Bot ==> m.content == BotReply)
  }

  /** Appending one entry counts it once, under its own role. */
  lemma CountSnoc(log: seq<DemoMessage>, m: DemoMessage, r: Role)
    ensures Count(log + [m], r) == Count(log, r) + (if m.role == r then 1 else 0)
  {
    assert (log + [m])[..|log|] == log;
  }

  class DemoChat {
    /** The input box. */
    var message: string
    var chatMessages: seq<DemoMessage>
    /** Reply timers started and not yet fired. */
    var pendingReplies: nat

    /** The script is never disturbed; every later entry is well formed; and each send has
        been answered or has its timer pending. */
    ghost predicate Valid()
      reads this
    {
      && |chatMessages| >= ScriptLength
      && chatMessages[..ScriptLength] == DemoMessages
      && (forall i :: ScriptLength <= i < |chatMessages| ==> Appended(chatMessages[i]))
      && Count(chatMessages[ScriptLength..], User) == Count(chatMessages[ScriptLength..], Bot) + pendingReplies
    }

    constructor ()
      ensures Valid()
      ensures chatMessages == DemoMessages && message == [] && pendingReplies == 0
    {
      message := [];
      chatMessages := DemoMessages;
      pendingReplies := 0;
      assert DemoMessages[ScriptLength..] == [];
    }

    /** The input's `onChange`. */
    method TypeMessage(text: string)
      requires Valid()
      modifies this
      ensures Valid()
      ensures message == text
      ensures chatMessages == old(chatMessages) && pendingReplies == old(pendingReplies)
    {
      message := text;
    }

    /** `handleSend`. Blank input, the input for which `!message.trim()` holds
        (`Text.TrimEmptyIffBlank`), does nothing. Otherwise the text, untrimmed, is appended as
        a user entry without delay, the input is cleared, and a reply timer starts. */
    method HandleSend()
      requires Valid()
      modifies this
      ensures Valid()
      ensures IsBlank(old(message)) ==>
                chatMessages == old(chatMessages) && message == old(message)
                && pendingReplies == old(pendingReplies)
      ensures !IsBlank(old(message)) ==>
                && chatMessages == old(chatMessages) + [DemoMessage(User, old(message), 0.0)]
                && message == [] && pendingReplies == old(pendingReplies) + 1
    {
      if IsBlank(message) {
        return;
      }
      var entry := DemoMessage(User, message, 0.0);
      ghost var tail := chatMessages[ScriptLength..];
      assert (chatMessages + [entry])[ScriptLength..] == tail + [entry];
      CountSnoc(tail, entry, User);
      CountSnoc(tail, entry, Bot);
      chatMessages := chatMessages + [entry];
      message := [];
      pendingReplies := pendingReplies + 1;
    }

    /** A reply timer fires. The answer goes at the end of the log as it stands now, so
        everything already there, including entries added since the send, is kept. */
    method BotReplyArrives()
      requires Valid() && pendingReplies > 0
      modifies this
      ensures Valid()
      ensures chatMessages == old(chatMessages) + [DemoMessage(Bot, BotReply, 0.0)]
      ensures message == old(message) && pendingReplies == old(pendingReplies) - 1
    {
      var entry := DemoMessage(Bot, BotReply, 0.0);
      ghost var tail := chatMessages[ScriptLength..];
      assert (chatMessages + [entry])[ScriptLength..] == tail + [entry];
      CountSnoc(tail, entry, User);
      CountSnoc(tail, entry, Bot);
      chatMessages := chatMessages + [entry];
      pendingReplies := pendingReplies - 1;
    }
  }

  /** Two sends before either answer: both answers arrive and both are kept, after the two
      user entries. */
  method TwoSendsKeepBothReplies(a: string, b: string) returns (log: seq<DemoMessage>)
    requires !IsBlank(a) && !IsBlank(b)
    ensures log == DemoMessages + [DemoMessage(User, a, 0.0), DemoMessage(User, b, 0.0),
                                   DemoMessage(Bot, BotReply, 0.0), DemoMessage(Bot, BotReply, 0.0)]
  {
    var chat := new DemoChat();
    chat.TypeMessage(a);
    chat.HandleSend();
    chat.TypeMessage(b);
    chat.HandleSend();
    chat.BotReplyArrives();
    chat.BotReplyArrives();
    log := chat.chatMessages;
  }
}
