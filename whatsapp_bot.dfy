/** The simulated WhatsApp bot: a message log that the user appends to and that a
    keyword table answers, one second later, with a canned reply. */
module Chat {
  import opened Text

  datatype Sender = User | Bot

  /** A chat message; its display time is left out. */
  datatype Message = Message(id: int, sender: Sender, text: string)

  const Greeting: string :=
    "Hi! I'm SheSecures Bot. I'm here to help you with safety, reporting incidents, and emergency assistance. Type 'help' to see what I can do!"

  /** The reply to any text whose lower case is not a key of the table. */
  const Fallback: string :=
    "I understand you need help. Type 'help' to see all available options, or use one of the quick reply buttons below."

  const HelpReply: string :=
    "Here's what I can help you with:\n\n🚨 Type 'emergency' for immediate help\n📝 Type 'report' to file an incident\n💡 Type 'tips' for safety advice\n🌍 Type 'translate' to change language\n📞 Type 'contact' for helpline numbers"

  const EmergencyReply: string :=
    "🚨 EMERGENCY MODE ACTIVATED\n\nChoose an option:\n1️⃣ Call emergency services\n2️⃣ Share live location\n3️⃣ Alert trusted contacts\n4️⃣ Anonymous emergency report\n\nCase ID: EMG-2024-001"

  const ReportReply: string :=
    "📝 INCIDENT REPORTING\n\nI'll help you report safely:\n\n1️⃣ Anonymous report (no personal info)\n2️⃣ Identified report (with your details)\n\nBoth options generate a case ID for tracking. What would you prefer?"

  const TipsReply: string :=
    "💡 SAFETY TIPS\n\n🔹 Share your location with trusted contacts\n🔹 Use our emergency triggers (triple power button)\n🔹 Keep emergency contacts updated\n🔹 Trust your instincts - if something feels wrong, seek help\n🔹 Use the 'Should I Share Data?' tool before sharing personal info"

  const TranslateReply: string :=
    "🌍 LANGUAGE OPTIONS\n\nSelect your preferred language:\n🇬🇧 English\n🇪🇸 Español\n🇫🇷 Français\n🇭🇮 हिंदी\n🇮🇳 മലയാളം\n\nType the number or language name to switch."

  const ContactReply: string :=
    "📞 EMERGENCY CONTACTS\n\n🚨 National Emergency: 112\n👮 Police: 100\n🚑 Ambulance: 108\n🔥 Fire: 101\n👩‍⚕️ Women Helpline: 181\n\nWould you like me to help you call any of these numbers?"

  /** The keyword table. */
  const BotResponses: map<string, string> :=
    map[
      "help" := HelpReply,
      "emergency" := EmergencyReply,
      "report" := ReportReply,
      "tips" := TipsReply,
      "translate" := TranslateReply,
      "contact" := ContactReply
    ]

  datatype QuickReply = QuickReply(text: string, command: string)

  /** The four buttons above the input; each sends its command. */
  const QuickReplies: seq<QuickReply> := [
    QuickReply("Report Incident", "report"),
    QuickReply("Emergency Help", "emergency"),
    QuickReply("Safety Tips", "tips"),
    QuickReply("Help", "help")
  ]

  // ---------------------------------------------------------------------------
  // Replies

  /** The bot's reply to messageText: the table entry under its lower case, else the fallback. */
  function BotResponse(messageText: string): string {
    var key := ToLower(messageText);
    if key in BotResponses then BotResponses[key] else Fallback
  }

  /** No table entry reads like the fallback, so the fallback means "no keyword". */
  lemma FallbackIsNotAnEntry()
    ensures forall k :: k in BotResponses ==> BotResponses[k] != Fallback
  {
    forall k | k in BotResponses ensures BotResponses[k] != Fallback {
      assert k in {"help", "emergency", "report", "tips", "translate", "contact"};
      assert |BotResponses[k]| != |Fallback|;
    }
  }

  /** The reply is a table entry exactly when the lower-cased text is a keyword. */
  lemma BotResponseKnownIff(messageText: string)
    ensures BotResponse(messageText) != Fallback <==> ToLower(messageText) in BotResponses
    ensures ToLower(messageText) in BotResponses ==>
              BotResponse(messageText) == BotResponses[ToLower(messageText)]
  {
    FallbackIsNotAnEntry();
  }

  /** Letter case does not matter: a text and its lower case get the same reply. */
  lemma BotResponseIgnoresCase(messageText: string)
    ensures BotResponse(ToLower(messageText)) == BotResponse(messageText)
  {
    ToLowerIdempotent(messageText);
  }

  /** Every quick-reply command is a keyword, so a quick reply never gets the fallback. */
  lemma QuickRepliesAreKeywords()
    ensures forall q :: q in QuickReplies ==>
      q.command in BotResponses && BotResponse(q.command) == BotResponses[q.command]
      && BotResponse(q.command) != Fallback
  {
    FallbackIsNotAnEntry();
    forall q | q in QuickReplies
      ensures q.command in BotResponses && BotResponse(q.command) == BotResponses[q.command]
    {
      ToLowerFixed(q.command);
    }
  }

  // ---------------------------------------------------------------------------
  // Sending

  /** The text a send uses: `text || inputText.trim()`, where an absent or empty
      quick-reply text falls through to the trimmed input. */
  function MessageText(text: Option<string>, inputText: string): string {
    if text.Some? && text.value != "" then text.value else Trim(inputText)
  }

  /** A send is rejected exactly when no quick-reply text is given and the input is
      blank (empty or whitespace only). */
  lemma SendRejectedIff(text: Option<string>, inputText: string)
    ensures MessageText(text, inputText) == "" <==>
      (text.None? || text.value == "") && AllWhitespace(inputText)
  {
    TrimEmptyIff(inputText);
  }

  /** The user's message, numbered one past the log it is sent into. */
  function UserMessage(log: seq<Message>, messageText: string): Message {
    Message(|log| + 1, User, messageText)
  }

  /** The bot's answer scheduled by a send into `log`, numbered two past that log. */
  function BotMessage(log: seq<Message>, messageText: string): Message {
    Message(|log| + 2, Bot, BotResponse(messageText))
  }

  predicate IdsArePositions(log: seq<Message>) {
    forall i :: 0 <= i < |log| ==> log[i].id == i + 1
  }

  /** A send whose reply arrives before the next send. */
  function Exchange(log: seq<Message>, messageText: string): seq<Message> {
    log + [UserMessage(log, messageText), BotMessage(log, messageText)]
  }

  /** One exchange keeps the earlier log and numbers its two messages by position. */
  lemma ExchangeIds(log: seq<Message>, messageText: string)
    requires IdsArePositions(log)
    ensures |Exchange(log, messageText)| == |log| + 2
    ensures Exchange(log, messageText)[..|log|] == log
    ensures IdsArePositions(Exchange(log, messageText))
  {
    var next := Exchange(log, messageText);
    assert next[..|log|] == log;
    forall i | 0 <= i < |next| ensures next[i].id == i + 1 {
      if i < |log| {
        assert next[i] == log[i];
      }
    }
  }

  /** The log after sending each of `texts` in turn, each reply arriving before the next send. */
  function Conversation(log: seq<Message>, texts: seq<string>): seq<Message>
    decreases |texts|
  {
    if texts == [] then log else Conversation(Exchange(log, texts[0]), texts[1..])
  }

  /** Under strict send/reply alternation nothing is replaced, each send adds two
      messages, and every id is the message's 1-based position in the log. */
  lemma {:induction false} ConversationIds(log: seq<Message>, texts: seq<string>)
    requires IdsArePositions(log)
    decreases |texts|
    ensures var c := Conversation(log, texts);
      && |c| == |log| + 2 * |texts|
      && c[..|log|] == log
      && IdsArePositions(c)
  {
    if texts != [] {
      var next := Exchange(log, texts[0]);
      ExchangeIds(log, texts[0]);
      ConversationIds(next, texts[1..]);
      var c := Conversation(next, texts[1..]);
      assert c[..|log|] == c[..|next|][..|log|];
    }
  }

  class WhatsAppBot {
    var messages: seq<Message>
    var inputText: string
    /** The bot replies whose timers are running, in the order they fire. */
    var pending: seq<Message>

    constructor ()
      ensures messages == [Message(1, Bot, Greeting)] && IdsArePositions(messages)
      ensures inputText == "" && pending == []
    {
      messages := [Message(1, Bot, Greeting)];
      inputText := "";
      pending := [];
    }

    /** Typing in the input box. */
    method SetInputText(value: string)
      modifies this
      ensures inputText == value
      ensures messages == old(messages) && pending == old(pending)
    {
      inputText := value;
    }

    /** sendMessage(text): the Send button and Enter pass no text, a quick reply passes its
        command. A blank send changes nothing; otherwise the user's message is appended,
        the input is cleared and the bot's reply is scheduled. */
    method SendMessage(text: Option<string>) returns (sent: bool)
      modifies this
      ensures var m := MessageText(text, old(inputText));
        && sent == (m != "")
        && if sent then
             && messages == old(messages) + [UserMessage(old(messages), m)]
             && inputText == ""
             && pending == old(pending) + [BotMessage(old(messages), m)]
           else
             messages == old(messages) && inputText == old(inputText) && pending == old(pending)
    {
      var messageText := MessageText(text, inputText);
      if messageText == "" {
        return false;
      }
      var log := messages;
      messages := messages + [UserMessage(log, messageText)];
      inputText := "";
      pending := pending + [BotMessage(log, messageText)];
      sent := true;
    }

    /** The oldest scheduled reply's timer fires: the reply is appended to the log. */
    method DeliverReply()
      requires pending != []
      modifies this
      ensures messages == old(messages) + [old(pending)[0]]
      ensures pending == old(pending)[1..] && inputText == old(inputText)
    {
      messages := messages + [pending[0]];
      pending := pending[1..];
    }

    /** A send from a quiet log followed by its reply is one step of the alternation
        above, so the log's ids stay equal to positions. */
    method SendAndAwaitReply(text: Option<string>) returns (sent: bool)
      requires pending == [] && IdsArePositions(messages)
      modifies this
      ensures pending == [] && IdsArePositions(messages)
      ensures var m := MessageText(text, old(inputText));
        sent == (m != "") && messages == if sent then Exchange(old(messages), m) else old(messages)
    {
      ghost var log := messages;
      ghost var m := MessageText(text, inputText);
      sent := SendMessage(text);
      if sent {
        DeliverReply();
        assert messages == Exchange(log, m);
        ExchangeIds(log, m);
      }
    }
  }
}
