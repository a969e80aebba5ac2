/**
 * The Sahayak chat assistant: a keyword classifier that answers with one of six fixed replies,
 * and the chat whose message list only ever grows.
 */
module Assistant {
  import opened Text

  /** The six replies, by their keys in the reply table. */
  datatype Reply = Greeting | DefaultReply | RegisterHelp | TrackHelp | ServicesHelp | ResolutionHelp {
    /** The reply's text. */
    function Text(): string {
      match this
      case Greeting => GreetingText
      case DefaultReply => DefaultText
      case RegisterHelp => RegisterText
      case TrackHelp => TrackText
      case ServicesHelp => ServicesText
      case ResolutionHelp => ResolutionText
    }
  }

  const GreetingText := "नमस्ते! मैं सहायक AI हूं। मैं आपकी कैसे मदद कर सकता हूं? (Hello! I'm Sahayak AI. How can I help you?)"
  const DefaultText := "मैं आपकी समस्या समझ गया हूं। कृपया निम्नलिखित जानकारी प्रदान करें:\n\n1. आपकी समस्या किस विभाग से संबंधित है?\n2. क्या आपने पहले कोई शिकायत दर्ज की है?\n\nमैं आपको सही मार्गदर्शन प्रदान करूंगा।"
  const RegisterText := "शिकायत दर्ज करने के लिए:\n\n1. 'Register Complaint' बटन पर क्लिक करें\n2. अपनी व्यक्तिगत जानकारी भरें\n3. समस्या का विवरण दें\n4. संबंधित दस्तावेज अपलोड करें (यदि कोई हो)\n5. 'Submit' बटन पर क्लिक करें\n\nआपकी शिकायत स्वचालित रूप से संबंधित विभाग को भेज दी जाएगी।"
  const TrackText := "शिकायत की स्थिति जांचने के लिए:\n\n1. 'Track Complaint' पेज पर जाएं\n2. अपना शिकायत ID दर्ज करें\n3. आपको अपनी शिकायत की वास्तविक समय स्थिति दिखाई जाएगी\n\nआप SMS और ईमेल के माध्यम से भी अपडेट प्राप्त कर सकते हैं।"
  const ServicesText := "हमारे पोर्टल पर निम्नलिखित सेवाएं उपलब्ध हैं:\n\n🏛️ नगर निगम सेवाएं\n💧 जल आपूर्ति\n⚡ बिजली\n🚧 सड़कें और यातायात\n🗑️ स्वच्छता\n🌳 पर्यावरण\n🛡️ सार्वजनिक सुरक्षा\n📋 राजस्व विभाग\n\nकिसी भी सेवा से संबंधित शिकायत दर्ज कर सकते हैं।"
  const ResolutionText := "शिकायत समाधान समय:\n\n⚡ सामान्य शिकायतें: 48 घंटे\n📋 जटिल मामले: 7-15 दिन\n🏛️ विशेष मामले: 30 दिन तक\n\nSLA (Service Level Agreement) के अनुसार, सभी शिकायतों का समय पर निपटान सुनिश्चित किया जाता है।"

  /** The keyword groups, checked in this order. */
  const GreetingWords := ["hello", "hi", "नमस्ते", "नमस्कार"]
  const RegisterWords := ["register", "दर्ज", "शिकायत दर्ज"]
  const TrackWords := ["track", "स्थिति", "status"]
  const ServicesWords := ["service", "सेवा", "available"]
  const ResolutionWords := ["time", "resolution", "समय", "कितना समय"]

  /** Some word of the group occurs in `s`. */
  predicate AnyOf(s: string, words: seq<string>) {
    exists i :: 0 <= i < |words| && Contains(s, words[i])
  }

  /**
   * `getAIResponse`: lower-case the message, then answer for the first keyword group with a word
   * in it (greeting, register, track, services, resolution), and with the default reply when
   * there is none. The body keeps the handler's own chains of `includes` tests, word by word;
   * the contract states the same decision over the keyword groups above, and `GroupTest` shows
   * that each chain tests exactly its group.
   */
  function GetAIResponse(message: string): (r: Reply)
    ensures var s := ToLower(message);
      && (r == Greeting <==> AnyOf(s, GreetingWords))
      && (r == RegisterHelp <==> !AnyOf(s, GreetingWords) && AnyOf(s, RegisterWords))
      && (r == TrackHelp <==> !AnyOf(s, GreetingWords) && !AnyOf(s, RegisterWords) && AnyOf(s, TrackWords))
      && (r == ServicesHelp <==>
            !AnyOf(s, GreetingWords) && !AnyOf(s, RegisterWords) && !AnyOf(s, TrackWords) && AnyOf(s, ServicesWords))
      && (r == ResolutionHelp <==>
            !AnyOf(s, GreetingWords) && !AnyOf(s, RegisterWords) && !AnyOf(s, TrackWords) && !AnyOf(s, ServicesWords)
            && AnyOf(s, ResolutionWords))
  {
    var s := ToLower(message);
    GroupTest(s, GreetingWords);
    GroupTest(s, RegisterWords);
    GroupTest(s, TrackWords);
    GroupTest(s, ServicesWords);
    GroupTest(s, ResolutionWords);
    if Contains(s, "hello") || Contains(s, "hi") || Contains(s, "नमस्ते") || Contains(s, "नमस्कार") then Greeting
    else if Contains(s, "register") || Contains(s, "दर्ज") || Contains(s, "शिकायत दर्ज") then RegisterHelp
    else if Contains(s, "track") || Contains(s, "स्थिति") || Contains(s, "status") then TrackHelp
    else if Contains(s, "service") || Contains(s, "सेवा") || Contains(s, "available") then ServicesHelp
    else if Contains(s, "time") || Contains(s, "resolution") || Contains(s, "समय") || Contains(s, "कितना समय") then ResolutionHelp
    else DefaultReply
  }

  /** A group test written out as a chain of `includes` calls is the group's `AnyOf`. */
  lemma GroupTest(s: string, words: seq<string>)
    requires 3 <= |words| <= 4
    ensures AnyOf(s, words) <==> Contains(s, words[0]) || Contains(s, words[1]) || Contains(s, words[2])
                                 || (|words| == 4 && Contains(s, words[3]))
  {
  }

  /** Lower-casing distributes over concatenation. */
  lemma ToLowerAppend(a: string, b: string)
    ensures ToLower(a + b) == ToLower(a) + ToLower(b)
  {
  }

  /**
   * Greeting has priority: a message with "hi" anywhere inside it, even inside another word
   * such as "this", gets the greeting, whatever else it asks about.
   */
  lemma HiAnywhereGreets(a: string, b: string)
    ensures GetAIResponse(a + "hi" + b) == Greeting
  {
    var s := ToLower(a + "hi" + b);
    ToLowerAppend(a + "hi", b);
    ToLowerAppend(a, "hi");
    assert ToLower("hi") == "hi";
    assert s[|a|..|a| + 2] == "hi";
    assert OccursAt(s, "hi", |a|);
    ContainsIffOccurs(s, "hi");
    assert Contains(s, GreetingWords[1]);
  }

  /** "How do I track this?" is answered with the greeting. */
  lemma TrackThisIsGreeted()
    ensures GetAIResponse("How do I track this?") == Greeting
  {
    assert "How do I track this?" == "How do I track t" + "hi" + "s?";
    HiAnywhereGreets("How do I track t", "s?");
  }

  // ---------------------------------------------------------------- chat

  datatype Sender = User | AssistantSender

  /** A chat message; its timestamp is not modelled. */
  datatype ChatMessage = ChatMessage(id: string, text: string, sender: Sender)

  const WelcomeText := "नमस्ते! मैं सहायक AI हूं। मैं आपकी कैसे मदद कर सकता हूं? आप शिकायत दर्ज करने, ट्रैक करने, या सेवाओं के बारे में जानकारी प्राप्त करने के लिए पूछ सकते हैं।"

  class Chat {
    var messages: seq<ChatMessage>
    var inputValue: string
    var isTyping: bool

    /** The chat always opens with the assistant's welcome. */
    predicate Valid()
      reads this`messages
    {
      |messages| >= 1 && messages[0].sender == AssistantSender && messages[0].id == "1"
    }

    constructor()
      ensures messages == [ChatMessage("1", WelcomeText, AssistantSender)]
      ensures inputValue == "" && !isTyping && Valid()
    {
      messages := [ChatMessage("1", WelcomeText, AssistantSender)];
      inputValue := "";
      isTyping := false;
    }

    /** The compact quick-question panel: shown only before anything has been asked. */
    predicate ShowQuickQuestions()
      reads this`messages
    {
      |messages| <= 1
    }

    /** Typing in the input box. */
    method SetInputValue(value: string)
      modifies this`inputValue
      ensures inputValue == value
    {
      inputValue := value;
    }

    /**
     * `handleSendMessage` with message id `id`: a blank input sends nothing. Otherwise the raw
     * input is appended as a user message, the box is cleared, the assistant starts typing, and
     * the text its reply will answer is returned.
     */
    method HandleSendMessage(id: string) returns (question: string, sent: bool)
      requires Valid()
      modifies this`messages, this`inputValue, this`isTyping
      ensures Valid()
      ensures sent <==> !IsBlank(old(inputValue))
      ensures !sent ==> messages == old(messages) && inputValue == old(inputValue) && isTyping == old(isTyping)
      ensures sent ==>
        && messages == old(messages) + [ChatMessage(id, old(inputValue), User)]
        && question == old(inputValue) && inputValue == "" && isTyping
        && !ShowQuickQuestions()
    {
      question := inputValue;
      if IsBlank(inputValue) {
        return question, false;
      }
      messages := messages + [ChatMessage(id, inputValue, User)];
      inputValue := "";
      isTyping := true;
      sent := true;
    }

    /** `handleQuickQuestion`: the question is sent as it is; the input box is not touched. */
    method HandleQuickQuestion(question: string, id: string)
      requires Valid()
      modifies this`messages, this`isTyping
      ensures Valid()
      ensures messages == old(messages) + [ChatMessage(id, question, User)] && isTyping
      ensures !ShowQuickQuestions()
    {
      messages := messages + [ChatMessage(id, question, User)];
      isTyping := true;
    }

    /** The delayed reply to `question`: append the classifier's answer and stop typing. */
    method ReceiveReply(question: string, id: string)
      requires Valid()
      modifies this`messages, this`isTyping
      ensures Valid()
      ensures messages == old(messages) + [ChatMessage(id, GetAIResponse(question).Text(), AssistantSender)]
      ensures !isTyping
    {
      var reply := GetAIResponse(question);
      messages := messages + [ChatMessage(id, reply.Text(), AssistantSender)];
      isTyping := false;
    }
  }
}
