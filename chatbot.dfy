/** The chat assistant's keyword router (backend/chatbot.py): the message is
    lower-cased, then six keyword rules are tried in a fixed order, each rule
    firing when any of its keywords occurs as a SUBSTRING of the message; the
    first rule that fires picks the list an answer is chosen from. */
module Chatbot {
  import opened Records

  /** The keys of the `responses` table. */
  datatype Category = Greeting | Hours | Shipping | Returns | Payment | SizeHelp | Default

  const GreetingAnswers: seq<string> := ["Hello! How can I help you today?", "Hi there! Looking for something special?", "Welcome to our store! Need assistance?"]
  const HoursAnswer := "We're open 24/7 online! Orders ship Monday-Friday 9AM-5PM."
  const ShippingAnswer := "Standard shipping: 3-5 business days, $4.99\nExpress shipping: 1-2 business days, $9.99"
  const ReturnsAnswer := "We accept returns within 30 days of purchase. Items must be unworn with tags attached."
  const PaymentAnswer := "We accept Visa, MasterCard, American Express, PayPal, and Apple Pay."
  const SizeHelpAnswer := "Check our size guide on each product page. If unsure, order multiple sizes and return what doesn't fit!"
  const DefaultAnswer := "I'm not sure about that. Can you contact customer service at support@fashionstore.com?"

  /** The fixed answer table `responses`. */
  function Responses(c: Category): (answers: seq<string>)
    ensures answers != []
    ensures c != Greeting ==> |answers| == 1
  {
    match c
    case Greeting => GreetingAnswers
    case Hours => [HoursAnswer]
    case Shipping => [ShippingAnswer]
    case Returns => [ReturnsAnswer]
    case Payment => [PaymentAnswer]
    case SizeHelp => [SizeHelpAnswer]
    case Default => [DefaultAnswer]
  }

  /** The keywords of each rule; the fallback category has none. Every keyword
      is a non-empty lower-case word, so it can occur in the lowered message. */
  function Keywords(c: Category): (words: seq<string>)
    ensures words == [] <==> c == Default
    ensures forall w :: w in words ==> w != "" && Lower(w) == w
  {
    match c
    case Greeting => ["hello", "hi", "hey"]
    case Hours => ["hour", "open", "close"]
    case Shipping => ["ship", "delivery", "shipping"]
    case Returns => ["return", "refund", "exchange"]
    case Payment => ["pay", "payment", "card", "credit"]
    case SizeHelp => ["size", "fit", "measurement"]
    case Default => []
  }

  /** Position of a rule in the if/elif chain; the fallback comes last. */
  function Rank(c: Category): nat {
    match c
    case Greeting => 0
    case Hours => 1
    case Shipping => 2
    case Returns => 3
    case Payment => 4
    case SizeHelp => 5
    case Default => 6
  }

  /** `str.lower` on one character, for the ASCII letters. */
  function LowerChar(ch: char): char {
    if 'A' <= ch <= 'Z' then (ch as int + 32) as char else ch
  }

  function Lower(s: string): (r: string)
    ensures |r| == |s|
    ensures forall i :: 0 <= i < |s| ==> ('A' <= s[i] <= 'Z' ==> r[i] as int == s[i] as int + 32)
    ensures forall i :: 0 <= i < |s| ==> (!('A' <= s[i] <= 'Z') ==> r[i] == s[i])
    ensures forall i :: 0 <= i < |r| ==> !('A' <= r[i] <= 'Z')
  {
    seq(|s|, i requires 0 <= i < |s| => LowerChar(s[i]))
  }

  /** Two messages that differ only in the case of their letters. */
  ghost predicate EqualIgnoringCase(a: string, b: string) {
    |a| == |b| && forall i :: 0 <= i < |a| ==> LowerChar(a[i]) == LowerChar(b[i])
  }

  /** Python's `word in text` on strings: `word` occurs as a contiguous substring. */
  predicate Contains(text: string, word: string)
    decreases |text|
    ensures Contains(text, word) ==> |word| <= |text|
    ensures word == "" ==> Contains(text, word)
  {
    word <= text || (text != [] && Contains(text[1..], word))
  }

  /** `word` occurs in `text` starting at index `i`. */
  ghost predicate OccursAt(text: string, word: string, i: int) {
    0 <= i && i + |word| <= |text| && text[i..i + |word|] == word
  }

  /** `any(word in text for word in words)`. */
  predicate MentionsAny(text: string, words: seq<string>)
    ensures words == [] ==> !MentionsAny(text, words)
    ensures "" in words ==> MentionsAny(text, words)
  {
    exists w :: w in words && Contains(text, w)
  }

  /** The category the if/elif chain of `get_chatbot_response` selects. */
  function IntentOf(message: string): (c: Category)
    ensures c != Default ==> MentionsAny(Lower(message), Keywords(c))
    ensures forall d :: Rank(d) < Rank(c) ==> !MentionsAny(Lower(message), Keywords(d))
  {
    var m := Lower(message);
    if MentionsAny(m, Keywords(Greeting)) then Greeting
    else if MentionsAny(m, Keywords(Hours)) then Hours
    else if MentionsAny(m, Keywords(Shipping)) then Shipping
    else if MentionsAny(m, Keywords(Returns)) then Returns
    else if MentionsAny(m, Keywords(Payment)) then Payment
    else if MentionsAny(m, Keywords(SizeHelp)) then SizeHelp
    else Default
  }

  /** `get_chatbot_response`: `random.choice` is the choice `pick` made by the caller. */
  function Reply(message: string, pick: nat): (r: string)
    ensures r in Responses(IntentOf(message))
    ensures IntentOf(message) != Greeting ==> r == Responses(IntentOf(message))[0]
  {
    Choose(Responses(IntentOf(message)), pick)
  }

  /** `random.choice(answers)`, with the random draw given as `pick`. */
  function Choose(answers: seq<string>, pick: nat): (r: string)
    requires answers != []
    ensures r in answers
    ensures |answers| == 1 ==> r == answers[0]
  {
    answers[pick % |answers|]
  }

  /** The `message` member of the request body. */
  datatype MessageField = Missing | Text(text: string) | NotText

  datatype ChatReply = ChatReply(response: string, suggestions: seq<string>)

  const Suggestions: seq<string> := ["Shipping policy", "Return policy", "Size guide", "Payment methods"]

  /** The `/api/chatbot/message` handler: an absent message is the empty string;
      a message that is not a string makes `lower()` raise, which Flask answers with 500. */
  function ChatbotMessage(field: MessageField, pick: nat): (r: Result<ChatReply>)
    ensures r.Err? <==> field.NotText?
    ensures r.Ok? ==> r.value.suggestions == Suggestions
    ensures field.Missing? ==> r.value.response == DefaultAnswer
    ensures field.Text? ==> r.value.response in Responses(IntentOf(field.text))
  {
    match field
    case NotText => Err(ServerError)
    case Missing =>
      EmptyMessageIsDefault();
      Ok(ChatReply(Reply("", pick), Suggestions))
    case Text(s) => Ok(ChatReply(Reply(s, pick), Suggestions))
  }

  // ---------------------------------------------------------------------------
  // Substring facts

  lemma {:induction false} OccursAtContains(text: string, word: string, i: int)
    requires OccursAt(text, word, i)
    ensures Contains(text, word)
    decreases i
  {
    if i > 0 {
      assert text[1..][i - 1..i - 1 + |word|] == text[i..i + |word|];
      OccursAtContains(text[1..], word, i - 1);
    } else {
      assert text[..|word|] == word;
    }
  }

  lemma {:induction false} ContainsWitness(text: string, word: string) returns (i: nat)
    requires Contains(text, word)
    ensures OccursAt(text, word, i)
    decreases |text|
  {
    if word <= text {
      i := 0;
    } else {
      var j := ContainsWitness(text[1..], word);
      assert text[1..][j..j + |word|] == text[j + 1..j + 1 + |word|];
      i := j + 1;
    }
  }

  /** `word in text` holds exactly when `word` occurs at some index of `text`. */
  lemma ContainsIffOccurs(text: string, word: string)
    ensures Contains(text, word) <==> exists i :: OccursAt(text, word, i)
  {
    if Contains(text, word) {
      var i := ContainsWitness(text, word);
    }
    forall i | OccursAt(text, word, i) ensures Contains(text, word) {
      OccursAtContains(text, word, i);
    }
  }

  /** A substring of a substring is a substring. */
  lemma ContainsTransitive(text: string, middle: string, word: string)
    requires Contains(text, middle) && Contains(middle, word)
    ensures Contains(text, word)
  {
    var i := ContainsWitness(text, middle);
    var j := ContainsWitness(middle, word);
    forall k | 0 <= k < |word|
      ensures text[i + j..i + j + |word|][k] == word[k]
    {
      assert text[i + j + k] == text[i..i + |middle|][j + k] == middle[j + k];
    }
    OccursAtContains(text, word, i + j);
  }

  // ---------------------------------------------------------------------------
  // Properties of the router

  /** Matching is case-insensitive: messages equal up to letter case get the same category. */
  lemma IntentIgnoresCase(a: string, b: string)
    requires EqualIgnoringCase(a, b)
    ensures IntentOf(a) == IntentOf(b)
  {
    assert Lower(a) == Lower(b);
  }

  /** Lower-casing the message first changes nothing. */
  lemma IntentOfLowered(message: string)
    ensures IntentOf(Lower(message)) == IntentOf(message)
  {
    assert Lower(Lower(message)) == Lower(message);
  }

  /** The greeting keyword "hi" occurs inside "ship", so every message that
      mentions "ship" or "shipping" is answered with a greeting. */
  lemma ShipMentionGreets(message: string)
    requires MentionsAny(Lower(message), ["ship", "shipping"])
    ensures IntentOf(message) == Greeting
  {
    var m := Lower(message);
    OccursAtContains("ship", "hi", 1);
    OccursAtContains("shipping", "hi", 1);
    var w :| w in ["ship", "shipping"] && Contains(m, w);
    ContainsTransitive(m, w, "hi");
    assert "hi" in Keywords(Greeting);
  }

  /** The shipping answer is reached exactly through "delivery", when neither a
      greeting nor an hours keyword occurs. */
  lemma ShippingOnlyViaDelivery(message: string)
    ensures IntentOf(message) == Shipping <==>
      var m := Lower(message);
      Contains(m, "delivery") && !MentionsAny(m, Keywords(Greeting)) && !MentionsAny(m, Keywords(Hours))
  {
    var m := Lower(message);
    if IntentOf(message) == Shipping {
      var w :| w in Keywords(Shipping) && Contains(m, w);
      if w != "delivery" {
        ShipMentionGreets(message);
        assert false;
      }
    } else if Contains(m, "delivery") && !MentionsAny(m, Keywords(Greeting)) {
      assert "delivery" in Keywords(Shipping);
    }
  }

  /** The fallback answer is given exactly when no keyword of any rule occurs. */
  lemma DefaultIffNoKeyword(message: string)
    ensures IntentOf(message) == Default <==> forall c :: !MentionsAny(Lower(message), Keywords(c))
  {
  }

  /** The empty message (what an absent `message` becomes) falls through every rule. */
  lemma EmptyMessageIsDefault()
    ensures IntentOf("") == Default
  {
    assert Lower("") == "";
  }

  /** The greeting is the only category with more than one answer. */
  lemma OnlyGreetingVaries(message: string, pick1: nat, pick2: nat)
    requires Reply(message, pick1) != Reply(message, pick2)
    ensures IntentOf(message) == Greeting
  {
  }
}
