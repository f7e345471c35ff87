/**
 * The floating chat widget: its nine pieces of state, the handlers that change
 * them, the effect that greets the visitor when the panel first opens, and the
 * conditions under which each part of the panel is drawn.
 *
 * Each handler is modelled together with the reply to the chat request it
 * makes: the request's outcome is a parameter, and the reply lands before the
 * next interaction. Under that sequential reading the ids the handlers compute
 * from the rendered message count are exactly the positions of the messages.
 */
module Chatbot {
  import opened Wrappers
  import JsText

  datatype Sender = User | Bot

  /** A chat turn; its timestamp is not modelled. */
  datatype Message = Message(id: int, text: string, sender: Sender)

  datatype QuickPrompt = QuickPrompt(title: string, query: string)

  datatype FormField = FormField(labelText: Option<string>, kind: Option<string>, required: Option<bool>,
                                 placeholder: Option<string>)

  /** The pre-chat form: whether it is on, its fields keyed by name, and the text above it. */
  datatype PreChatForm = PreChatForm(isEnabled: bool, fields: map<string, FormField>, preChatMessage: string)

  /** The props a host page passes; None is a prop it leaves out. */
  datatype Props = Props(chatbotId: Option<int>, botName: Option<string>, welcomeTagline: Option<string>,
                         loaderText: Option<string>, quickPrompts: Option<seq<QuickPrompt>>,
                         agentEscalationEnabled: Option<bool>, preChatForm: Option<PreChatForm>)

  /** The props after defaults are filled in. */
  datatype Config = Config(chatbotId: int, botName: string, welcomeTagline: string, loaderText: string,
                           quickPrompts: seq<QuickPrompt>, agentEscalationEnabled: bool, preChatForm: PreChatForm)

  const DefaultChatbotId := 1
  const DefaultBotName := "Assistant"
  const DefaultWelcomeTagline := "Hello! How can I assist you today?"
  const DefaultLoaderText := "Thinking..."
  const DefaultQuickPrompts := [
    QuickPrompt("Help", "How can I help you?"),
    QuickPrompt("Services", "Tell me more about your services"),
    QuickPrompt("Pricing", "I need pricing information"),
    QuickPrompt("Agent", "Can I speak to a human agent?")
  ]
  const DefaultPreChatForm := PreChatForm(false, map[], "Please fill out this form before we start the conversation.")

  const ThankYouText := "Thank you for providing your information!"
  const IssueText := "Sorry, there was an issue processing your request."
  const ConnectionErrorText := "Sorry, there was an error connecting to the service. Please try again later."
  const EscalationNotice := "Chat escalated to human agent. An agent will respond to you shortly."
  const EscalationRequest := "I'd like to speak with a human agent."

  /** Default parameters: a prop that is given wins, an omitted one takes its default. */
  function ResolveProps(p: Props): (c: Config)
    ensures c.chatbotId == (if p.chatbotId.Some? then p.chatbotId.value else DefaultChatbotId)
    ensures c.botName == (if p.botName.Some? then p.botName.value else DefaultBotName)
    ensures c.welcomeTagline == (if p.welcomeTagline.Some? then p.welcomeTagline.value else DefaultWelcomeTagline)
    ensures c.loaderText == (if p.loaderText.Some? then p.loaderText.value else DefaultLoaderText)
    ensures c.quickPrompts == (if p.quickPrompts.Some? then p.quickPrompts.value else DefaultQuickPrompts)
    ensures c.agentEscalationEnabled == (p.agentEscalationEnabled != Some(false))
    ensures c.preChatForm == (if p.preChatForm.Some? then p.preChatForm.value else DefaultPreChatForm)
  {
    Config(p.chatbotId.GetOr(DefaultChatbotId), p.botName.GetOr(DefaultBotName),
           p.welcomeTagline.GetOr(DefaultWelcomeTagline), p.loaderText.GetOr(DefaultLoaderText),
           p.quickPrompts.GetOr(DefaultQuickPrompts), p.agentEscalationEnabled.GetOr(true),
           p.preChatForm.GetOr(DefaultPreChatForm))
  }

  /**
   * How a chat request ends: the service answered (with the `answer` field of
   * its JSON body, if any), or the request failed (a non-ok status, a body that
   * is not JSON, or a network error).
   */
  datatype ApiOutcome = Answered(answer: Option<string>) | Failed

  /**
   * The text of the bot turn a request ends with: a non-empty answer as it
   * is, the processing apology for a missing or empty answer, the connection
   * apology for a failure. It is never empty.
   */
  function ReplyText(outcome: ApiOutcome): (text: string)
    ensures text != []
    ensures outcome.Failed? ==> text == ConnectionErrorText
    ensures outcome.Answered? && outcome.answer.Some? && outcome.answer.value != [] ==> text == outcome.answer.value
    ensures outcome.Answered? && (outcome.answer.None? || outcome.answer.value == []) ==> text == IssueText
  {
    match outcome
    case Failed => ConnectionErrorText
    case Answered(answer) => if answer.Some? && answer.value != [] then answer.value else IssueText
  }

  /** Every message carries its one-based position as its id. */
  ghost predicate IdsFollowPositions(ms: seq<Message>) {
    forall i :: 0 <= i < |ms| ==> ms[i].id == i + 1
  }

  lemma IdsFollowPositionsAppend(ms: seq<Message>, m: Message)
    requires IdsFollowPositions(ms) && m.id == |ms| + 1
    ensures IdsFollowPositions(ms + [m])
  {
  }

  /** Under sequential handling no two messages share an id. */
  lemma IdsDistinct(ms: seq<Message>)
    requires IdsFollowPositions(ms)
    ensures forall i, j :: 0 <= i < j < |ms| ==> ms[i].id != ms[j].id
  {
  }

  /** A visitor interaction, with the outcome of the chat request it makes where it makes one. */
  datatype Event =
    | ToggleChat
    | ToggleMinimize
    | InputChange(value: string)
    | FormInputChange(field: string, value: string)
    | SubmitPreChatForm
    | SendMessage(outcome: ApiOutcome)
    | QuickPromptClick(prompt: QuickPrompt, outcome: ApiOutcome)
    | EscalateToAgent(outcome: ApiOutcome)

  class ChatWidget {
    const config: Config

    var isOpen: bool
    var messages: seq<Message>
    var inputValue: string
    var isTyping: bool
    var isMinimized: bool
    var isEscalated: bool
    var showPreChatForm: bool
    var preChatData: map<string, string>
    var formSubmitted: bool

    /**
     * Between interactions: ids follow positions, the pre-chat form is shown
     * only while it is enabled and not yet submitted, and no request is pending.
     */
    ghost predicate Valid()
      reads this
    {
      IdsFollowPositions(messages)
      && (showPreChatForm ==> config.preChatForm.isEnabled && !formSubmitted)
      && !isTyping
    }

    /** Mounting: defaults filled in, everything closed, empty and false. */
    constructor (props: Props)
      ensures Valid()
      ensures config == ResolveProps(props)
      ensures !isOpen && messages == [] && inputValue == [] && !isTyping && !isMinimized
      ensures !isEscalated && !showPreChatForm && preChatData == map[] && !formSubmitted
    {
      config := ResolveProps(props);
      isOpen, messages, inputValue, isTyping, isMinimized := false, [], [], false, false;
      isEscalated, showPreChatForm, preChatData, formSubmitted := false, false, map[], false;
    }

    // ---- what the panel draws ----

    /** The panel, header and body, is drawn exactly while the widget is open. */
    predicate PanelShown()
      reads this
    {
      isOpen
    }

    /** Below the header, the panel has content exactly while it is drawn and not minimized. */
    predicate PanelBodyShown()
      reads this
    {
      isOpen && !isMinimized
    }

    /** The pre-chat form takes the place of the message list while it is up. */
    predicate PreChatFormShown()
      reads this
    {
      PanelBodyShown() && showPreChatForm
    }

    /** The message list is drawn in the body whenever the pre-chat form is not. */
    predicate MessageListShown()
      reads this
    {
      PanelBodyShown() && !showPreChatForm
    }

    /** The typing indicator sits at the end of the message list, while a request is pending. */
    predicate TypingIndicatorShown()
      reads this
    {
      MessageListShown() && isTyping
    }

    /** The escalate button is in the header, so it is drawn even while minimized or gated. */
    predicate EscalateButtonShown()
      reads this
    {
      isOpen && config.agentEscalationEnabled && !isEscalated
    }

    /**
     * Quick prompts need prompts to show, at most two messages so far, and no
     * pre-chat form; they are drawn only where the input field is.
     */
    predicate QuickPromptsShown()
      reads this
    {
      PanelBodyShown() && |config.quickPrompts| > 0 && |messages| <= 2 && !showPreChatForm
    }

    /** The input area has its own guard in the panel body, the same condition as the message list's. */
    predicate InputShown()
      reads this
    {
      PanelBodyShown() && !showPreChatForm
    }

    /** The send button is enabled exactly when the input is not all white space. */
    predicate SendButtonEnabled()
      reads this
      ensures SendButtonEnabled() <==> !JsText.IsBlank(inputValue)
    {
      JsText.TrimEmptyIffBlank(inputValue);
      JsText.Trim(inputValue) != []
    }

    /**
     * The interactions the drawn panel offers (Enter in the input field sends,
     * like the button). While the pre-chat form is up, only opening or closing,
     * minimizing, the form itself and escalation are offered.
     */
    predicate Offered(e: Event)
      reads this
      ensures showPreChatForm && Offered(e) ==>
                e.ToggleChat? || e.ToggleMinimize? || e.FormInputChange? || e.SubmitPreChatForm? || e.EscalateToAgent?
      ensures Offered(e) && e.EscalateToAgent? ==> !isEscalated
    {
      match e
      case ToggleChat => true
      case ToggleMinimize => PanelShown()
      case InputChange(_) => InputShown()
      case FormInputChange(field, _) => PreChatFormShown() && field in config.preChatForm.fields
      case SubmitPreChatForm => PreChatFormShown()
      case SendMessage(_) => InputShown()
      case QuickPromptClick(prompt, _) => QuickPromptsShown() && prompt in config.quickPrompts
      case EscalateToAgent(_) => EscalateButtonShown()
    }

    /** While the pre-chat form is up, the message list, input field and quick prompts are hidden. */
    lemma PreChatFormHidesConversation()
      requires showPreChatForm
      ensures !MessageListShown() && !InputShown() && !QuickPromptsShown() && !TypingIndicatorShown()
      ensures forall o :: !Offered(SendMessage(o))
      ensures forall v :: !Offered(InputChange(v))
    {
    }

    // ---- the effect ----

    /**
     * The greeting effect: when the widget is open and has no messages, the
     * welcome tagline becomes message 1, and the pre-chat form comes up if it
     * is enabled and was not submitted. A non-empty list is left alone.
     */
    method WelcomeEffect()
      requires Valid()
      modifies this
      ensures Valid()
      ensures old(isOpen && messages == []) ==>
                (messages == [Message(1, config.welcomeTagline, Bot)]
                 && showPreChatForm == (config.preChatForm.isEnabled && !formSubmitted))
      ensures !old(isOpen && messages == []) ==> messages == old(messages) && showPreChatForm == old(showPreChatForm)
      ensures isOpen == old(isOpen) && inputValue == old(inputValue) && isTyping == old(isTyping)
      ensures isMinimized == old(isMinimized) && isEscalated == old(isEscalated)
      ensures preChatData == old(preChatData) && formSubmitted == old(formSubmitted)
    {
      if isOpen && |messages| == 0 {
        messages := [Message(1, config.welcomeTagline, Bot)];
        if config.preChatForm.isEnabled && !formSubmitted {
          showPreChatForm := true;
        }
      }
    }

    // ---- the handlers ----

    /** Open or close the panel; either way it is no longer minimized. */
    method HandleToggleChat()
      requires Valid()
      modifies this
      ensures Valid()
      ensures isOpen == !old(isOpen) && !isMinimized
      ensures messages == old(messages) && inputValue == old(inputValue) && isTyping == old(isTyping)
      ensures isEscalated == old(isEscalated) && showPreChatForm == old(showPreChatForm)
      ensures preChatData == old(preChatData) && formSubmitted == old(formSubmitted)
    {
      isOpen := !isOpen;
      isMinimized := false;
    }

    /** Minimize or expand; nothing else changes. */
    method HandleToggleMinimize()
      requires Valid()
      modifies this
      ensures Valid()
      ensures isMinimized == !old(isMinimized)
      ensures isOpen == old(isOpen) && messages == old(messages) && inputValue == old(inputValue)
      ensures isTyping == old(isTyping) && isEscalated == old(isEscalated) && showPreChatForm == old(showPreChatForm)
      ensures preChatData == old(preChatData) && formSubmitted == old(formSubmitted)
    {
      isMinimized := !isMinimized;
    }

    method HandleInputChange(value: string)
      requires Valid()
      modifies this
      ensures Valid()
      ensures inputValue == value
      ensures isOpen == old(isOpen) && messages == old(messages) && isTyping == old(isTyping)
      ensures isMinimized == old(isMinimized) && isEscalated == old(isEscalated)
      ensures showPreChatForm == old(showPreChatForm) && preChatData == old(preChatData)
      ensures formSubmitted == old(formSubmitted)
    {
      inputValue := value;
    }

    /** Record one answer of the pre-chat form, keeping the others. */
    method HandleFormInputChange(field: string, value: string)
      requires Valid()
      modifies this
      ensures Valid()
      ensures preChatData == old(preChatData)[field := value]
      ensures isOpen == old(isOpen) && messages == old(messages) && inputValue == old(inputValue)
      ensures isTyping == old(isTyping) && isMinimized == old(isMinimized) && isEscalated == old(isEscalated)
      ensures showPreChatForm == old(showPreChatForm) && formSubmitted == old(formSubmitted)
    {
      preChatData := preChatData[field := value];
    }

    /**
     * Submitting the pre-chat form closes it for good and thanks the visitor.
     * The answers and the fields' `required` flags are not looked at.
     */
    method HandleSubmitPreChatForm()
      requires Valid()
      modifies this
      ensures Valid()
      ensures !showPreChatForm && formSubmitted
      ensures messages == old(messages) + [Message(|old(messages)| + 1, ThankYouText, Bot)]
      ensures isOpen == old(isOpen) && inputValue == old(inputValue) && isTyping == old(isTyping)
      ensures isMinimized == old(isMinimized) && isEscalated == old(isEscalated)
      ensures preChatData == old(preChatData)
    {
      var renderedLength := |messages|;
      showPreChatForm := false;
      formSubmitted := true;
      messages := messages + [Message(renderedLength + 1, ThankYouText, Bot)];
    }

    /**
     * A chat request for `message` and its completion: the typing indicator
     * is on while it is pending, then exactly one bot turn is appended, with
     * the id the handler computed from the length it rendered with, and the
     * indicator goes off whatever the outcome.
     */
    method SendMessageToApi(message: string, renderedLength: nat, outcome: ApiOutcome)
      modifies this
      ensures messages == old(messages) + [Message(renderedLength + 2, ReplyText(outcome), Bot)]
      ensures !isTyping
      ensures isOpen == old(isOpen) && inputValue == old(inputValue) && isMinimized == old(isMinimized)
      ensures isEscalated == old(isEscalated) && showPreChatForm == old(showPreChatForm)
      ensures preChatData == old(preChatData) && formSubmitted == old(formSubmitted)
    {
      isTyping := true;
      match outcome {
        case Answered(answer) =>
          var text := if answer.Some? && answer.value != [] then answer.value else IssueText;
          messages := messages + [Message(renderedLength + 2, text, Bot)];
        case Failed =>
          messages := messages + [Message(renderedLength + 2, ConnectionErrorText, Bot)];
      }
      isTyping := false;
    }

    /**
     * Send what is typed: nothing happens when it trims to "". Otherwise the
     * untrimmed text becomes a user turn, the input is cleared, and the
     * request's reply follows as a bot turn.
     */
    method HandleSendMessage(outcome: ApiOutcome)
      requires Valid()
      modifies this
      ensures Valid()
      ensures JsText.Trim(old(inputValue)) == [] ==> messages == old(messages) && inputValue == old(inputValue)
      ensures JsText.Trim(old(inputValue)) != [] ==>
                messages == old(messages) + [Message(|old(messages)| + 1, old(inputValue), User),
                                             Message(|old(messages)| + 2, ReplyText(outcome), Bot)]
                && inputValue == []
      ensures isOpen == old(isOpen) && isTyping == old(isTyping) && isMinimized == old(isMinimized)
      ensures isEscalated == old(isEscalated) && showPreChatForm == old(showPreChatForm)
      ensures preChatData == old(preChatData) && formSubmitted == old(formSubmitted)
    {
      if JsText.Trim(inputValue) == [] {
        return;
      }
      var renderedLength := |messages|;
      var newUserMessage := Message(renderedLength + 1, inputValue, User);
      IdsFollowPositionsAppend(messages, newUserMessage);
      messages := messages + [newUserMessage];
      var messageToSend := inputValue;
      inputValue := [];
      ghost var withUser := messages;
      SendMessageToApi(messageToSend, renderedLength, outcome);
      ghost var reply := Message(renderedLength + 2, ReplyText(outcome), Bot);
      IdsFollowPositionsAppend(withUser, reply);
      assert withUser + [reply] == old(messages) + [newUserMessage, reply];
    }

    /** A quick prompt is sent as a user turn with its query, followed by the reply. */
    method HandleQuickPrompt(prompt: QuickPrompt, outcome: ApiOutcome)
      requires Valid()
      modifies this
      ensures Valid()
      ensures messages == old(messages) + [Message(|old(messages)| + 1, prompt.query, User),
                                           Message(|old(messages)| + 2, ReplyText(outcome), Bot)]
      ensures isOpen == old(isOpen) && inputValue == old(inputValue) && isTyping == old(isTyping)
      ensures isMinimized == old(isMinimized) && isEscalated == old(isEscalated)
      ensures showPreChatForm == old(showPreChatForm)
      ensures preChatData == old(preChatData) && formSubmitted == old(formSubmitted)
    {
      var renderedLength := |messages|;
      messages := messages + [Message(renderedLength + 1, prompt.query, User)];
      SendMessageToApi(prompt.query, renderedLength, outcome);
    }

    /**
     * Escalation: the flag goes up, a fixed notice is posted as a bot turn,
     * and a fixed request goes to the ordinary chat service, whose reply
     * follows. No user turn is added.
     */
    method HandleEscalateToAgent(outcome: ApiOutcome)
      requires Valid()
      modifies this
      ensures Valid()
      ensures isEscalated
      ensures messages == old(messages) + [Message(|old(messages)| + 1, EscalationNotice, Bot),
                                           Message(|old(messages)| + 2, ReplyText(outcome), Bot)]
      ensures isOpen == old(isOpen) && inputValue == old(inputValue) && isTyping == old(isTyping)
      ensures isMinimized == old(isMinimized) && showPreChatForm == old(showPreChatForm)
      ensures preChatData == old(preChatData) && formSubmitted == old(formSubmitted)
    {
      var renderedLength := |messages|;
      isEscalated := true;
      messages := messages + [Message(renderedLength + 1, EscalationNotice, Bot)];
      SendMessageToApi(EscalationRequest, renderedLength, outcome);
    }

    /**
     * One interaction followed by the greeting effect. Messages are only ever
     * appended; escalation and form submission never revert; while the
     * pre-chat form is up, nothing the panel offers adds a user turn; once
     * escalated the escalate button stays hidden, and once there are more
     * than two messages the quick prompts stay hidden.
     */
    method Step(e: Event)
      requires Valid()
      modifies this
      ensures Valid()
      ensures old(messages) <= messages
      ensures old(isEscalated) ==> isEscalated
      ensures old(formSubmitted) ==> formSubmitted && !showPreChatForm
      ensures old(Offered(e)) && old(showPreChatForm) ==>
                forall i :: |old(messages)| <= i < |messages| ==> messages[i].sender == Bot
      ensures old(isEscalated) ==> !EscalateButtonShown()
      ensures old(|messages|) > 2 ==> !QuickPromptsShown()
    {
      match e {
        case ToggleChat => HandleToggleChat();
        case ToggleMinimize => HandleToggleMinimize();
        case InputChange(value) => HandleInputChange(value);
        case FormInputChange(field, value) => HandleFormInputChange(field, value);
        case SubmitPreChatForm => HandleSubmitPreChatForm();
        case SendMessage(outcome) => HandleSendMessage(outcome);
        case QuickPromptClick(prompt, outcome) => HandleQuickPrompt(prompt, outcome);
        case EscalateToAgent(outcome) => HandleEscalateToAgent(outcome);
      }
      WelcomeEffect();
    }
  }

  /**
   * The host page's configuration: the pre-chat form is on with two required
   * fields. Opening shows the form; submitting it with nothing filled in is
   * accepted and thanks the visitor.
   */
  method RequiredFieldsAreNotChecked()
  {
    var form := PreChatForm(true, map[
      "name" := FormField(Some("Your Name"), Some("text"), Some(true), Some("John Doe")),
      "email" := FormField(Some("Email Address"), Some("email"), Some(true), Some("john@example.com"))],
      "Please provide some information before we begin:");
    var w := new ChatWidget(Props(Some(1), Some("SmartAssist"), None, None, None, Some(true), Some(form)));
    w.HandleToggleChat();
    w.WelcomeEffect();
    assert w.messages == [Message(1, DefaultWelcomeTagline, Bot)] && w.PreChatFormShown();
    w.HandleSubmitPreChatForm();
    w.WelcomeEffect();
    assert w.preChatData == map[];
    assert w.formSubmitted && !w.showPreChatForm;
    assert w.messages == [Message(1, DefaultWelcomeTagline, Bot), Message(2, ThankYouText, Bot)];
  }
}
