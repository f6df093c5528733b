/** The chat assistant screen: a keyword-based intent classifier that picks one of
    five reply templates, a second keyword chain that picks the follow-up
    suggestion chips, and the append-only transcript with its pending input. */
module ChatBot {
  import opened Strings

  datatype Option<T> = None | Some(value: T)

  datatype Sender = User | Bot

  /** One entry of the transcript. Only bot messages carry suggestion chips. */
  datatype Message = Message(
    id: nat,
    sender: Sender,
    content: string,
    timestamp: string,
    suggestions: Option<seq<string>>)

  /** The topics the assistant recognises, in the order in which it tests them. */
  datatype Intent = TawafTiming | HotelInquiry | BudgetInquiry | TrafficInquiry | Fallback

  const TawafReply: string :=
    "Best times for Tawaf: 2-4 AM (lowest crowd), 10 PM-12 AM (moderate). Current wait time: ~15 minutes. Would you like me to book a guided session?"
  const HotelReply: string :=
    "I found 3 great hotels near Haram: Abraj Al Bait (200m, 4.8★, 250 SAR), Fairmont (500m, 4.7★, 180 SAR), Raffles (300m, 4.9★, 320 SAR). Shall I show details?"
  const BudgetReply: string :=
    "I can help optimize your budget! Please share: 1) Your total budget 2) Duration of stay 3) Priorities (comfort/cost/location). I'll create a personalized plan."
  const TrafficReply: string :=
    "Current traffic: Zone A (Light), Mataf Area (Moderate), Transport Hub (Heavy). Recommended route: Take shuttle from Gate 79. ETA: 12 minutes."
  const FallbackPrefix: string := "I understand you're asking about "
  const FallbackSuffix: string :=
    ". Let me provide you with the most relevant and up-to-date information. How else can I assist your blessed journey?"

  const TawafSuggestions: seq<string> := ["Book guided Tawaf", "Check crowd levels", "Prayer times"]
  const HotelSuggestions: seq<string> := ["Compare prices", "Check availability", "View amenities"]
  const BudgetSuggestions: seq<string> := ["Create budget plan", "Find deals", "Track expenses"]
  const GenericSuggestions: seq<string> := ["More details", "Other options", "Book now"]

  /** The bot message the transcript starts with. */
  const Greeting: Message := Message(
    1, Bot,
    "السلام عليكم! Welcome to your Smart Makkah Assistant. How can I help you today?",
    "2:30 PM",
    Some(["Best time for Tawaf?", "Nearest hotel deals", "Traffic updates", "Budget planning"]))

  /** The keyword tests of `generateBotResponse`, in order, on the lower-cased text;
      each test accepts an English keyword or its Arabic counterpart. */
  function Classify(userMessage: string): Intent {
    var lowered := Lower(userMessage);
    if Contains(lowered, "tawaf") || Contains(lowered, "طواف") then TawafTiming
    else if Contains(lowered, "hotel") || Contains(lowered, "فندق") then HotelInquiry
    else if Contains(lowered, "budget") || Contains(lowered, "ميزانية") then BudgetInquiry
    else if Contains(lowered, "traffic") || Contains(lowered, "مرور") then TrafficInquiry
    else Fallback
  }

  /** The reply template of each intent; only the fallback depends on the text, which
      it quotes as typed (not lower-cased). */
  function ReplyFor(intent: Intent, userMessage: string): string {
    match intent
    case TawafTiming => TawafReply
    case HotelInquiry => HotelReply
    case BudgetInquiry => BudgetReply
    case TrafficInquiry => TrafficReply
    case Fallback => FallbackPrefix + userMessage + FallbackSuffix
  }

  /** `generateBotResponse`. */
  function GenerateBotResponse(userMessage: string): string {
    ReplyFor(Classify(userMessage), userMessage)
  }

  /** `getSuggestions`: a separate chain that tests English keywords only and has no
      traffic case. */
  function GetSuggestions(userMessage: string): (r: seq<string>)
    ensures |r| == 3
  {
    var lowered := Lower(userMessage);
    if Contains(lowered, "tawaf") then TawafSuggestions
    else if Contains(lowered, "hotel") then HotelSuggestions
    else if Contains(lowered, "budget") then BudgetSuggestions
    else GenericSuggestions
  }


  // ---------------------------------------------------------------------------
  // The keyword chains as explicit, ordered rule tables

  /** A rule fires when the lower-cased text contains any of its keywords. */
  datatype Rule = Rule(keywords: seq<string>, intent: Intent)

  const ReplyRules: seq<Rule> := [
    Rule(["tawaf", "طواف"], TawafTiming),
    Rule(["hotel", "فندق"], HotelInquiry),
    Rule(["budget", "ميزانية"], BudgetInquiry),
    Rule(["traffic", "مرور"], TrafficInquiry)
  ]

  const SuggestionRules: seq<Rule> := [
    Rule(["tawaf"], TawafTiming),
    Rule(["hotel"], HotelInquiry),
    Rule(["budget"], BudgetInquiry)
  ]

  const ArabicKeywords: seq<string> := ["طواف", "فندق", "ميزانية", "مرور"]

  predicate MentionsAny(lowered: string, keywords: seq<string>) {
    |keywords| > 0 && (Contains(lowered, keywords[0]) || MentionsAny(lowered, keywords[1..]))
  }

  /** The intent of the first rule that fires, or `Fallback` when none does. */
  function FirstMatch(rules: seq<Rule>, lowered: string): Intent {
    if rules == [] then Fallback
    else if MentionsAny(lowered, rules[0].keywords) then rules[0].intent
    else FirstMatch(rules[1..], lowered)
  }

  /** A keyword list fires exactly when one of its keywords occurs. */
  lemma {:induction false} MentionsAnyIff(lowered: string, keywords: seq<string>)
    ensures MentionsAny(lowered, keywords) <==>
              exists k :: 0 <= k < |keywords| && Contains(lowered, keywords[k])
  {
    if keywords != [] {
      var rest := keywords[1..];
      MentionsAnyIff(lowered, rest);
      if exists k :: 0 <= k < |rest| && Contains(lowered, rest[k]) {
        var k :| 0 <= k < |rest| && Contains(lowered, rest[k]);
        assert keywords[k + 1] == rest[k];
      }
      if exists k :: 1 <= k < |keywords| && Contains(lowered, keywords[k]) {
        var k :| 1 <= k < |keywords| && Contains(lowered, keywords[k]);
        assert rest[k - 1] == keywords[k];
      }
    }
  }

  /** First match wins: the result is the intent of the rule at the first index `k`
      that fires, and no rule before `k` fires; when none fires, it is `Fallback`. */
  lemma {:induction false} FirstMatchIsFirst(rules: seq<Rule>, lowered: string) returns (k: nat)
    ensures k <= |rules|
    ensures forall j :: 0 <= j < k ==> !MentionsAny(lowered, rules[j].keywords)
    ensures k < |rules| ==> MentionsAny(lowered, rules[k].keywords)
    ensures FirstMatch(rules, lowered) == if k < |rules| then rules[k].intent else Fallback
  {
    if rules == [] {
      k := 0;
    } else if MentionsAny(lowered, rules[0].keywords) {
      k := 0;
    } else {
      var k' := FirstMatchIsFirst(rules[1..], lowered);
      k := k' + 1;
      forall j | 0 <= j < k
        ensures !MentionsAny(lowered, rules[j].keywords)
      {
        if j > 0 {
          assert rules[j] == rules[1..][j - 1];
        }
      }
    }
  }

  /** `generateBotResponse`'s chain is the reply rule table read top to bottom. */
  lemma ClassifyIsFirstMatch(userMessage: string)
    ensures Classify(userMessage) == FirstMatch(ReplyRules, Lower(userMessage))
  {
    var lowered := Lower(userMessage);
    var k := FirstMatchIsFirst(ReplyRules, lowered);
    MentionsAnyIff(lowered, ["tawaf", "طواف"]);
    MentionsAnyIff(lowered, ["hotel", "فندق"]);
    MentionsAnyIff(lowered, ["budget", "ميزانية"]);
    MentionsAnyIff(lowered, ["traffic", "مرور"]);
    assert ReplyRules[0].keywords == ["tawaf", "طواف"];
    assert ReplyRules[1].keywords == ["hotel", "فندق"];
    assert ReplyRules[2].keywords == ["budget", "ميزانية"];
    assert ReplyRules[3].keywords == ["traffic", "مرور"];
  }

  /** Under the reply rules, `Classify` yields the intent of rule `k` exactly when rule
      `k` fires and no earlier rule does; so a text mentioning both Tawaf and a hotel
      gets the Tawaf reply. */
  lemma ClassifyIff(userMessage: string, k: nat)
    requires k < |ReplyRules|
    ensures Classify(userMessage) == ReplyRules[k].intent <==>
              && MentionsAny(Lower(userMessage), ReplyRules[k].keywords)
              && forall j :: 0 <= j < k ==> !MentionsAny(Lower(userMessage), ReplyRules[j].keywords)
  {
    ClassifyIsFirstMatch(userMessage);
    var m := FirstMatchIsFirst(ReplyRules, Lower(userMessage));
  }

  /** The fallback reply is given exactly when no reply rule fires. */
  lemma ClassifyFallbackIff(userMessage: string)
    ensures Classify(userMessage) == Fallback <==>
              forall j :: 0 <= j < |ReplyRules| ==> !MentionsAny(Lower(userMessage), ReplyRules[j].keywords)
  {
    ClassifyIsFirstMatch(userMessage);
    var m := FirstMatchIsFirst(ReplyRules, Lower(userMessage));
  }

  /** The chips of each suggestion rule's intent; every other intent gets the
      generic chips. */
  function SuggestionsFor(intent: Intent): (r: seq<string>)
    ensures |r| == 3
  {
    match intent
    case TawafTiming => TawafSuggestions
    case HotelInquiry => HotelSuggestions
    case BudgetInquiry => BudgetSuggestions
    case _ => GenericSuggestions
  }

  /** `getSuggestions`'s chain is the suggestion rule table read top to bottom. */
  lemma GetSuggestionsIsFirstMatch(userMessage: string)
    ensures GetSuggestions(userMessage) == SuggestionsFor(FirstMatch(SuggestionRules, Lower(userMessage)))
  {
    var lowered := Lower(userMessage);
    var k := FirstMatchIsFirst(SuggestionRules, lowered);
    MentionsAnyIff(lowered, ["tawaf"]);
    MentionsAnyIff(lowered, ["hotel"]);
    MentionsAnyIff(lowered, ["budget"]);
    assert SuggestionRules[0].keywords == ["tawaf"];
    assert SuggestionRules[1].keywords == ["hotel"];
    assert SuggestionRules[2].keywords == ["budget"];
  }

  // ---------------------------------------------------------------------------
  // Properties of the replies and the suggestions

  /** Matching ignores ASCII case: the text and its lower-case form get the same
      reply topic and the same suggestions. */
  lemma CaseInsensitive(userMessage: string)
    ensures Classify(Lower(userMessage)) == Classify(userMessage)
    ensures GetSuggestions(Lower(userMessage)) == GetSuggestions(userMessage)
  {
    LowerIdempotent(userMessage);
  }

  /** A keyword anywhere in the lower-cased text fires its rule, inside a longer
      word too: "hotelier" asks about hotels. */
  lemma HotelierAsksAboutHotels(q: string)
    requires q == "hotelier"
    ensures Classify(q) == HotelInquiry
  {
    assert Lower(q) == q;
    assert !Contains(q, "tawaf") by { NotContains(q, "tawaf"); }
    assert !Contains(q, "طواف") by { NotContains(q, "طواف"); }
    assert Contains(q, "hotel") by { ContainsAt(q, "hotel", 0); }
  }

  /** Capitals do not hide a keyword: the question about "TAWAF" gets the Tawaf reply. */
  lemma UpperCaseTawaf(q: string)
    requires q == "What's the best time for TAWAF?"
    ensures Classify(q) == TawafTiming
  {
    var lowered := Lower(q);
    assert lowered[25..30] == "tawaf" by {
      assert q[25] == 'T' && q[26] == 'A' && q[27] == 'W' && q[28] == 'A' && q[29] == 'F';
    }
    assert OccursAt(lowered, "tawaf", 25);
    ContainsAt(lowered, "tawaf", 25);
  }

  /** First match wins: a text about both Tawaf and a hotel gets the Tawaf reply. */
  lemma TawafBeforeHotel(q: string)
    requires q == "tawaf and hotel question"
    ensures Classify(q) == TawafTiming
  {
    assert Lower(q) == q by { LowerFixesNonUpper(q); }
    assert Contains(q, "tawaf") by { ContainsAt(q, "tawaf", 0); }
  }

  /** The fallback reply is the fixed prefix, the text exactly as typed, and the
      fixed suffix, so the reply quotes the user's text verbatim. */
  lemma FallbackQuotesInput(userMessage: string)
    requires Classify(userMessage) == Fallback
    ensures GenerateBotResponse(userMessage) == FallbackPrefix + userMessage + FallbackSuffix
    ensures Contains(GenerateBotResponse(userMessage), userMessage)
  {
    var r := FallbackPrefix + userMessage + FallbackSuffix;
    assert r[|FallbackPrefix|..|FallbackPrefix| + |userMessage|] == userMessage;
    ContainsAt(r, userMessage, |FallbackPrefix|);
  }

  /** When the text carries no Arabic keyword, the chips follow the reply's topic
      (a traffic question, having no chips of its own, gets the generic ones). */
  lemma SuggestionsFollowEnglishTopic(userMessage: string)
    requires !MentionsAny(Lower(userMessage), ArabicKeywords)
    ensures GetSuggestions(userMessage) == SuggestionsFor(Classify(userMessage))
  {
    MentionsAnyIff(Lower(userMessage), ArabicKeywords);
    assert !Contains(Lower(userMessage), ArabicKeywords[0]);
    assert !Contains(Lower(userMessage), ArabicKeywords[1]);
    assert !Contains(Lower(userMessage), ArabicKeywords[2]);
  }

  /** A traffic question gets the traffic reply but the generic chips. */
  lemma TrafficGetsGenericSuggestions(userMessage: string)
    requires Classify(userMessage) == TrafficInquiry
    ensures GenerateBotResponse(userMessage) == TrafficReply
    ensures GetSuggestions(userMessage) == GenericSuggestions
  {
  }

  /** Arabic keywords steer the reply but not the chips: a text whose only keyword
      is the Arabic word for hotel gets the hotel reply with the generic chips. */
  lemma ArabicHotelGetsGenericSuggestions(userMessage: string)
    requires Contains(Lower(userMessage), "فندق")
    requires !Contains(Lower(userMessage), "طواف")
    requires forall k :: 0 <= k < |SuggestionRules| ==>
               !Contains(Lower(userMessage), SuggestionRules[k].keywords[0])
    ensures GenerateBotResponse(userMessage) == HotelReply
    ensures GetSuggestions(userMessage) == GenericSuggestions
  {
    assert SuggestionRules[0].keywords[0] == "tawaf";
    assert SuggestionRules[1].keywords[0] == "hotel";
    assert SuggestionRules[2].keywords[0] == "budget";
  }

  /** The reply and the chips can even name different topics: the Arabic word for
      Tawaf next to the English "hotel" gets the Tawaf reply with the hotel chips. */
  lemma ReplyAndSuggestionsDisagree(userMessage: string)
    requires Contains(Lower(userMessage), "طواف")
    requires Contains(Lower(userMessage), "hotel")
    requires !Contains(Lower(userMessage), "tawaf")
    ensures GenerateBotResponse(userMessage) == TawafReply
    ensures GetSuggestions(userMessage) == HotelSuggestions
  {
  }

  /** Such a text exists: "طواف hotel". */
  lemma DisagreementExample(q: string)
    requires q == "طواف hotel"
    ensures Contains(Lower(q), "طواف") && Contains(Lower(q), "hotel") && !Contains(Lower(q), "tawaf")
  {
    assert Lower(q) == q by { LowerFixesNonUpper(q); }
    assert Contains(q, "طواف") by {
      assert OccursAt(q, "طواف", 0);
      ContainsAt(q, "طواف", 0);
    }
    assert Contains(q, "hotel") by {
      assert OccursAt(q, "hotel", 5);
      ContainsAt(q, "hotel", 5);
    }
    assert !Contains(q, "tawaf") by { NotContains(q, "tawaf"); }
  }

  // ---------------------------------------------------------------------------
  // The transcript

  /** A user message carries no chips. */
  function UserMessage(id: nat, text: string, timestamp: string): Message {
    Message(id, User, text, timestamp, None)
  }

  /** A bot reply always carries chips. */
  function BotMessage(id: nat, userMessage: string, timestamp: string): Message {
    Message(id, Bot, GenerateBotResponse(userMessage), timestamp, Some(GetSuggestions(userMessage)))
  }

  /** Message `i` of a transcript (counting from 1) has id `i`. */
  ghost predicate Numbered(ms: seq<Message>) {
    forall i :: 0 <= i < |ms| ==> ms[i].id == i + 1
  }

  /** Appending two messages with the next two ids keeps a transcript numbered. */
  lemma NumberedAppend(ms: seq<Message>, a: Message, b: Message)
    requires Numbered(ms) && a.id == |ms| + 1 && b.id == |ms| + 2
    ensures Numbered(ms + [a, b])
  {
  }

  /** The chat screen's state: the transcript `messages` and the pending `input`. */
  class Chat {
    var messages: seq<Message>
    var input: string

    /** The transcript starts with the greeting and message `i` (counting from 1)
        has id `i`. */
    ghost predicate Valid()
      reads this
    {
      && |messages| >= 1
      && messages[0] == Greeting
      && Numbered(messages)
    }

    constructor ()
      ensures Valid()
      ensures messages == [Greeting] && input == ""
    {
      messages := [Greeting];
      input := "";
    }

    /** The input box's change handler. */
    method Type(text: string)
      modifies this
      ensures input == text && messages == old(messages)
    {
      input := text;
    }

    /** `handleSuggestion`: a chip's text becomes the pending input; nothing is sent. */
    method ChooseSuggestion(suggestion: string)
      modifies this
      ensures input == suggestion && messages == old(messages)
    {
      input := suggestion;
    }

    /** `handleSend`. A blank input changes nothing. Otherwise the user's text, as
        typed, and the bot's reply to it are appended, in that order, with the next
        two ids, the earlier messages stay as they were, and the input is cleared.
        The two timestamps stand for the clock readings. */
    method Send(userTime: string, botTime: string)
      requires Valid()
      modifies this
      ensures Valid()
      ensures IsBlank(old(input)) ==> messages == old(messages) && input == old(input)
      ensures !IsBlank(old(input)) ==>
                && messages == old(messages) + [UserMessage(|old(messages)| + 1, old(input), userTime),
                                                BotMessage(|old(messages)| + 2, old(input), botTime)]
                && input == ""
    {
      if !IsBlank(input) {
        NumberedAppend(messages, UserMessage(|messages| + 1, input, userTime),
                       BotMessage(|messages| + 2, input, botTime));
        messages := messages + [UserMessage(|messages| + 1, input, userTime),
                                BotMessage(|messages| + 2, input, botTime)];
        input := "";
      }
    }

    /** `handleQuickQuestion` as written: it sets the input to the question and then
        calls `handleSend`, which still sees the input from before the click. So a
        question clicked while the box is blank only lands in the box, and one
        clicked while the box holds text sends that text instead; in that case
        `handleSend`'s later `setMessage("")` wins over the question. */
    method QuickQuestionAsWritten(question: string, userTime: string, botTime: string)
      requires Valid()
      modifies this
      ensures Valid()
      ensures IsBlank(old(input)) ==> messages == old(messages) && input == question
      ensures !IsBlank(old(input)) ==>
                && messages == old(messages) + [UserMessage(|old(messages)| + 1, old(input), userTime),
                                                BotMessage(|old(messages)| + 2, old(input), botTime)]
                && input == ""
    {
      var seen := input;
      input := question;
      if !IsBlank(seen) {
        NumberedAppend(messages, UserMessage(|messages| + 1, seen, userTime),
                       BotMessage(|messages| + 2, seen, botTime));
        messages := messages + [UserMessage(|messages| + 1, seen, userTime),
                                BotMessage(|messages| + 2, seen, botTime)];
        input := "";
      }
    }

    /** A quick question as evidently intended: the question is sent as if typed. */
    method QuickQuestion(question: string, userTime: string, botTime: string)
      requires Valid()
      modifies this
      ensures Valid()
      ensures IsBlank(question) ==> messages == old(messages) && input == question
      ensures !IsBlank(question) ==>
                && messages == old(messages) + [UserMessage(|old(messages)| + 1, question, userTime),
                                                BotMessage(|old(messages)| + 2, question, botTime)]
                && input == ""
    {
      Type(question);
      Send(userTime, botTime);
    }
  }

  /** A client: sending blank input, or choosing a chip, adds nothing to the
      transcript. */
  method BlankSendIsIgnored()
  {
    var chat := new Chat();
    chat.Type("   ");
    chat.Send("2:31 PM", "2:31 PM");
    assert chat.messages == [Greeting] && chat.input == "   ";
    chat.ChooseSuggestion("Traffic updates");
    assert chat.messages == [Greeting];
  }

  /** A client: the first question and its answer become messages 2 and 3. */
  method FirstQuestionIsAnswered()
  {
    var chat := new Chat();
    chat.Type("hotels?");
    assert !IsBlank("hotels?") by { assert !IsWhiteSpace("hotels?"[0]); }
    chat.Send("2:32 PM", "2:33 PM");
    assert chat.messages == [Greeting, UserMessage(2, "hotels?", "2:32 PM"), BotMessage(3, "hotels?", "2:33 PM")];
    assert chat.input == "";
  }

  /** A client: on the opening screen, clicking "How to reach the Haram?" as written
      sends nothing, while the intended handler asks it. */
  method QuickQuestionIsLost()
  {
    var asWritten := new Chat();
    asWritten.QuickQuestionAsWritten("How to reach the Haram?", "2:31 PM", "2:31 PM");
    assert asWritten.messages == [Greeting];
    var intended := new Chat();
    assert !IsBlank("How to reach the Haram?") by { assert !IsWhiteSpace("How to reach the Haram?"[0]); }
    intended.QuickQuestion("How to reach the Haram?", "2:31 PM", "2:31 PM");
    assert |intended.messages| == 3;
  }
}
