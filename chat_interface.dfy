/** The chat panel: an append-only message log that starts with a bot
    greeting, a send guard against blank input, a bot reply scheduled per
    send in the language chosen at send time, and the two language badges. */
module ChatInterface {
  import opened Common

  /** The two reply languages of the panel. */
  datatype ChatLanguage = Hindi | English

  /** A chat message: its text and whether the user wrote it. */
  datatype Message = Message(text: string, isUser: bool)

  /** The bot's greeting, the first message of every log. */
  const Greeting: string := "नमस्ते! मैं आपका डेयरी AI असिस्टेंट हूं। आप मुझसे दूध उत्पादन, गाय के रोग, या फार्म प्रबंधन के बारे में कुछ भी पूछ सकते हैं।"

  const HindiReply: string := "मैं आपके सवाल को समझ गया हूं। कृपया अपनी गाय के बारे में अधिक जानकारी दें जैसे कि नस्ल, उम्र, और वर्तमान स्थिति।"
  const EnglishReply: string := "I understand your question. Please provide more details about your cow such as breed, age, and current condition."

  /** The canned reply: the Hindi text exactly when the language is Hindi,
      the English text otherwise. */
  function ReplyText(language: ChatLanguage): (text: string)
    ensures text == HindiReply <==> language == Hindi
    ensures text == EnglishReply <==> language == English
  {
    assert |HindiReply| == 112 && |EnglishReply| == 113;
    match language
    case Hindi => HindiReply
    case English => EnglishReply
  }

  /** How many messages the user wrote. */
  function UserCount(messages: seq<Message>): (n: nat)
    ensures n <= |messages|
  {
    if messages == [] then 0
    else UserCount(messages[..|messages| - 1]) + (if messages[|messages| - 1].isUser then 1 else 0)
  }

  /** How many messages the bot wrote. */
  function BotCount(messages: seq<Message>): (n: nat)
    ensures n <= |messages|
  {
    if messages == [] then 0
    else BotCount(messages[..|messages| - 1]) + (if messages[|messages| - 1].isUser then 0 else 1)
  }

  /** Every message is the user's or the bot's. */
  lemma {:induction false} CountsPartition(messages: seq<Message>)
    ensures UserCount(messages) + BotCount(messages) == |messages|
  {
    if messages != [] {
      CountsPartition(messages[..|messages| - 1]);
    }
  }

  /** The look of a language badge. */
  datatype Variant = Default | Outline

  /** A badge is drawn filled exactly when its language is the current one. */
  function BadgeVariant(current: ChatLanguage, badge: ChatLanguage): (v: Variant)
    ensures v == Default <==> current == badge
  {
    if current == badge then Default else Outline
  }

  class Chat {
    var messages: seq<Message>
    var inputMessage: string
    var language: ChatLanguage
    /** The texts of the bot replies whose timers have not fired yet, oldest first. */
    var pending: seq<string>

    /** The greeting comes first, and every user message is answered by a
        delivered or a pending bot reply. */
    ghost predicate Valid()
      reads this
    {
      && |messages| >= 1
      && messages[0] == Message(Greeting, false)
      && BotCount(messages) + |pending| == UserCount(messages) + 1
    }

    /** The panel as first rendered: only the greeting, empty input, Hindi. */
    constructor ()
      ensures Valid()
      ensures messages == [Message(Greeting, false)] && inputMessage == "" && language == Hindi && pending == []
    {
      messages := [Message(Greeting, false)];
      inputMessage := "";
      language := Hindi;
      pending := [];
    }

    /** Typing into the input field. */
    method SetInput(text: string)
      modifies this`inputMessage
      ensures inputMessage == text
    {
      inputMessage := text;
    }

    /** `handleSendMessage`: blank input (empty or only whitespace) changes
        nothing; otherwise the input, untrimmed, is appended as a user
        message, the input is cleared, and one reply in the current language
        is scheduled. */
    method SendMessage()
      requires Valid()
      modifies this`messages, this`inputMessage, this`pending
      ensures Valid()
      ensures IsBlank(old(inputMessage)) ==>
                messages == old(messages) && inputMessage == old(inputMessage) && pending == old(pending)
      ensures !IsBlank(old(inputMessage)) ==>
                && messages == old(messages) + [Message(old(inputMessage), true)]
                && inputMessage == ""
                && pending == old(pending) + [ReplyText(language)]
    {
      TrimEmptyIffBlank(inputMessage);
      if |Trim(inputMessage)| == 0 {
        return;
      }
      var sent := Message(inputMessage, true);
      assert (messages + [sent])[..|messages|] == messages;
      messages := messages + [sent];
      inputMessage := "";
      pending := pending + [ReplyText(language)];
    }

    /** `handleKeyPress`: Enter sends, any other key does nothing. */
    method KeyPress(key: string)
      requires Valid()
      modifies this`messages, this`inputMessage, this`pending
      ensures Valid()
      ensures key != "Enter" ==>
                messages == old(messages) && inputMessage == old(inputMessage) && pending == old(pending)
      ensures key == "Enter" && IsBlank(old(inputMessage)) ==>
                messages == old(messages) && inputMessage == old(inputMessage) && pending == old(pending)
      ensures key == "Enter" && !IsBlank(old(inputMessage)) ==>
                && messages == old(messages) + [Message(old(inputMessage), true)]
                && inputMessage == ""
                && pending == old(pending) + [ReplyText(language)]
    {
      if key == "Enter" {
        SendMessage();
      }
    }

    /** The oldest reply timer fires: its text is appended as a bot message. */
    method DeliverReply()
      requires Valid() && pending != []
      modifies this`messages, this`pending
      ensures Valid()
      ensures messages == old(messages) + [Message(old(pending)[0], false)]
      ensures pending == old(pending)[1..]
    {
      var reply := Message(pending[0], false);
      assert (messages + [reply])[..|messages|] == messages;
      messages := messages + [reply];
      pending := pending[1..];
    }

    /** A language badge is clicked: only the language changes, so replies
        already scheduled keep the language they were sent in. */
    method SelectLanguage(choice: ChatLanguage)
      modifies this`language
      ensures language == choice
    {
      language := choice;
    }
  }
}
