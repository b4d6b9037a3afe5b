/** The live preview of the chat widget: the launcher's corner and icon, the open state, and
    the preview conversation with its simulated reply. The reply timer is an explicit event;
    message timestamps, which only feed the display, are left out. */
module ChatWidgetPreview {
  import opened Text
  import opened UiCustomization

  datatype Role = User | Assistant

  datatype ChatMessage = ChatMessage(role: Role, content: string)

  const PreviewReply :=
    "This is a preview of how the AI would respond. The actual responses will come from your AI agent."

  // ---------------------------------------------------------------------------
  // Launcher placement and icon

  datatype Vertical = Top | Bottom
  datatype Horizontal = Left | Right

  /** The corner the launcher and the window sit in, 20 pixels from both edges. */
  datatype Corner = Corner(vertical: Vertical, horizontal: Horizontal)

  /** `getButtonPositionStyles`: the four named corners, and bottom right for any other value. */
  function ButtonCorner(buttonPosition: string): (c: Corner)
    ensures buttonPosition == "bottom-left" ==> c == Corner(Bottom, Left)
    ensures buttonPosition == "top-right" ==> c == Corner(Top, Right)
    ensures buttonPosition == "top-left" ==> c == Corner(Top, Left)
    ensures buttonPosition !in {"bottom-left", "top-right", "top-left"} ==> c == Corner(Bottom, Right)
  {
    match buttonPosition
    case "bottom-right" => Corner(Bottom, Right)
    case "bottom-left" => Corner(Bottom, Left)
    case "top-right" => Corner(Top, Right)
    case "top-left" => Corner(Top, Left)
    case _ => Corner(Bottom, Right)
  }

  /** The corner names the settings form offers. */
  const OfferedPositions := ["bottom-right", "bottom-left", "top-right", "top-left"]

  /** The corners the offered positions map to. */
  function OfferedCorners(): set<Corner> {
    set p | p in OfferedPositions :: ButtonCorner(p)
  }

  /** Each offered position has a corner of its own, and every corner is offered. */
  lemma OfferedPositionsCoverCorners()
    ensures forall i, j :: 0 <= i < j < |OfferedPositions| ==>
              ButtonCorner(OfferedPositions[i]) != ButtonCorner(OfferedPositions[j])
    ensures forall c: Corner :: c in OfferedCorners()
  {
    forall c: Corner ensures c in OfferedCorners() {
      match c
      case Corner(Bottom, Right) => assert ButtonCorner(OfferedPositions[0]) == c;
      case Corner(Bottom, Left) => assert ButtonCorner(OfferedPositions[1]) == c;
      case Corner(Top, Right) => assert ButtonCorner(OfferedPositions[2]) == c;
      case Corner(Top, Left) => assert ButtonCorner(OfferedPositions[3]) == c;
    }
  }

  /** The icons the preview draws. */
  datatype Icon = MessageSquare | BotIcon | UserIcon | SendIcon | CloseIcon

  /** `getButtonIcon`: every case of the switch, and its default, draw the same icon. */
  function ButtonIcon(buttonIcon: string): (i: Icon)
    ensures i == MessageSquare
  {
    match buttonIcon
    case "message" => MessageSquare
    case "chat" => MessageSquare
    case "help" => MessageSquare
    case "support" => MessageSquare
    case _ => MessageSquare
  }

  // ---------------------------------------------------------------------------
  // The preview's state

  class PreviewChat {
    /** The settings the preview is rendered with; they may change after it is created. */
    var config: UiFormValues
    var isOpen: bool
    var messages: seq<ChatMessage>
    var inputValue: string
    var isTyping: bool
    /** The lists the pending reply timers will extend, in the order they fire: each is the
        list its send produced. */
    var pendingReplies: seq<seq<ChatMessage>>

    /** The conversation starts with one assistant message, the configured welcome. */
    constructor (config: UiFormValues)
      ensures this.config == config
      ensures messages == [ChatMessage(Assistant, config.welcomeMessage)]
      ensures inputValue == [] && !isTyping && !isOpen && pendingReplies == []
    {
      this.config := config;
      messages := [ChatMessage(Assistant, config.welcomeMessage)];
      inputValue, isTyping, isOpen, pendingReplies := [], false, false, [];
    }

    /** New settings from the form: the launcher moves, but the conversation, including its
        first welcome message, stays as it was. */
    method Rerender(newConfig: UiFormValues)
      modifies this
      ensures config == newConfig
      ensures messages == old(messages) && inputValue == old(inputValue) && isTyping == old(isTyping)
      ensures isOpen == old(isOpen) && pendingReplies == old(pendingReplies)
    {
      config := newConfig;
    }

    /** The input's `onChange`; the input is rendered only while the window is open. */
    method TypeInput(text: string)
      requires isOpen
      modifies this
      ensures inputValue == text
      ensures messages == old(messages) && isTyping == old(isTyping) && isOpen == old(isOpen)
      ensures pendingReplies == old(pendingReplies) && config == old(config)
    {
      inputValue := text;
    }

    /** `handleSendMessage`, from the send button or the Enter key. Blank input, the input
        for which `!inputValue.trim()` holds (`TrimEmptyIffBlank`), does nothing. Otherwise the input, untrimmed, is appended as a user message, the input
        is cleared, typing is shown, and a reply to the new list is scheduled. The button and
        the input exist only while the window is open. */
    method SendMessage()
      requires isOpen
      modifies this
      ensures IsBlank(old(inputValue)) ==>
                messages == old(messages) && inputValue == old(inputValue) && isTyping == old(isTyping)
                && pendingReplies == old(pendingReplies)
      ensures !IsBlank(old(inputValue)) ==>
                && messages == old(messages) + [ChatMessage(User, old(inputValue))]
                && inputValue == [] && isTyping
                && pendingReplies == old(pendingReplies) + [messages]
      ensures isOpen == old(isOpen) && config == old(config)
    {
      if IsBlank(inputValue) {
        return;
      }
      var newMessages := messages + [ChatMessage(User, inputValue)];
      messages := newMessages;
      inputValue := [];
      isTyping := true;
      pendingReplies := pendingReplies + [newMessages];
    }

    /** The oldest reply timer fires: the list becomes that send's list plus the canned
        reply, and the typing indicator goes off. */
    method ReplyArrives()
      requires pendingReplies != []
      modifies this
      ensures messages == old(pendingReplies)[0] + [ChatMessage(Assistant, PreviewReply)]
      ensures !isTyping && pendingReplies == old(pendingReplies)[1..]
      ensures inputValue == old(inputValue) && isOpen == old(isOpen) && config == old(config)
    {
      messages := pendingReplies[0] + [ChatMessage(Assistant, PreviewReply)];
      pendingReplies := pendingReplies[1..];
      isTyping := false;
    }

    /** The launcher flips the window open or closed. */
    method ClickLauncher()
      modifies this
      ensures isOpen == !old(isOpen)
      ensures messages == old(messages) && inputValue == old(inputValue) && isTyping == old(isTyping)
      ensures pendingReplies == old(pendingReplies) && config == old(config)
    {
      isOpen := !isOpen;
    }

    /** The header's close button. */
    method ClickHeaderClose()
      modifies this
      ensures !isOpen
      ensures messages == old(messages) && inputValue == old(inputValue) && isTyping == old(isTyping)
      ensures pendingReplies == old(pendingReplies) && config == old(config)
    {
      isOpen := false;
    }
  }

  /** One exchange after opening the window: the welcome, the user's message as typed, then the canned reply. */
  method SendThenReply(config: UiFormValues, text: string) returns (log: seq<ChatMessage>)
    requires !IsBlank(text)
    ensures log == [ChatMessage(Assistant, config.welcomeMessage), ChatMessage(User, text),
                    ChatMessage(Assistant, PreviewReply)]
  {
    var chat := new PreviewChat(config);
    chat.ClickLauncher();
    chat.TypeInput(text);
    chat.SendMessage();
    chat.ReplyArrives();
    log := chat.messages;
  }

  /** Two sends before the first reply: each timer extends its own send's list, so the later
      one replaces the list and the first canned reply is lost. */
  method TwoSendsLoseFirstReply(config: UiFormValues, a: string, b: string) returns (log: seq<ChatMessage>)
    requires !IsBlank(a) && !IsBlank(b)
    ensures log == [ChatMessage(Assistant, config.welcomeMessage), ChatMessage(User, a),
                    ChatMessage(User, b), ChatMessage(Assistant, PreviewReply)]
  {
    var chat := new PreviewChat(config);
    chat.ClickLauncher();
    chat.TypeInput(a);
    chat.SendMessage();
    chat.TypeInput(b);
    chat.SendMessage();
    chat.ReplyArrives();
    chat.ReplyArrives();
    log := chat.messages;
  }
}
