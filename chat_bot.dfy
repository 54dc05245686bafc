/**
 * The chat widget: sending a message appends the user's message and then one
 * bot message, taken from the AI completion when it arrives and otherwise
 * from a keyword-driven fallback reply. The conversation sent to the AI is
 * the system prompt, the earlier messages and the new input.
 */
module ChatBot {
  import opened Wrappers

  /** A chat bubble (the id and the timestamp are left out). */
  datatype Message = Message(text: string, isUser: bool)

  datatype Role = System | User | Assistant

  /** One entry of the conversation handed to the completion API: the
      system entry, whose content is always the coach's prompt, or a turn of
      the conversation. */
  datatype ChatMessage = SystemMessage | Turn(role: Role, content: string)
  {
    /** The `role` field the API receives. */
    function Sender(): Role {
      if SystemMessage? then System else role
    }

    /** The `content` field the API receives. */
    function Content(): string {
      if SystemMessage? then SystemPrompt else content
    }
  }

  const Welcome := "Hello! I'm your AI mental health coach. How are you feeling today?"

  const SystemPrompt :=
    "You are a compassionate mental health coach. Your role is to provide supportive, empathetic responses that help the user explore their emotions and develop coping strategies. \n"
    + "\n"
    + "You should:\n"
    + "- Respond with empathy and validation\n"
    + "- Ask thoughtful follow-up questions\n"
    + "- Suggest evidence-based coping strategies when appropriate\n"
    + "- Never give medical advice or attempt to diagnose\n"
    + "- Keep responses concise (2-4 sentences max)\n"
    + "- Focus on emotional support and gentle guidance\n"
    + "\n"
    + "If the user expresses severe distress or suicidal thoughts, encourage them to contact a mental health professional or a crisis helpline immediately."

  // ---------------------------------------------------------------------
  // Text primitives
  // ---------------------------------------------------------------------

  /** The characters `String.prototype.trim` removes: ECMAScript white space
      (tab, vertical tab, form feed, the byte-order mark, every space
      separator) and line terminators. */
  predicate IsWhitespace(c: char) {
    || c == '\t' || c == '\n' || c == '\U{B}' || c == '\U{C}' || c == '\r' || c == ' '
    || c == '\U{A0}' || c == '\U{1680}' || ('\U{2000}' <= c <= '\U{200A}')
    || c == '\U{2028}' || c == '\U{2029}' || c == '\U{202F}' || c == '\U{205F}'
    || c == '\U{3000}' || c == '\U{FEFF}'
  }

  /** `!text.trim()`: nothing is left once the white space is trimmed. */
  predicate IsBlank(text: string) {
    forall i :: 0 <= i < |text| ==> IsWhitespace(text[i])
  }

  function LowerChar(c: char): char {
    if 'A' <= c <= 'Z' then (c as int + 32) as char else c
  }

  /** `toLowerCase` on the ASCII letters. */
  function Lower(text: string): (lower: string)
    ensures |lower| == |text|
    ensures forall i :: 0 <= i < |text| ==> lower[i] == LowerChar(text[i])
  {
    seq(|text|, i requires 0 <= i < |text| => LowerChar(text[i]))
  }

  /** `part` occurs in `text` starting at offset `i`. */
  predicate OccursAt(text: string, part: string, i: int) {
    0 <= i <= |text| - |part| && text[i..i + |part|] == part
  }

  /** `String.prototype.includes`: `part` occurs in `text` at some offset. */
  predicate Contains(text: string, part: string) {
    exists i :: 0 <= i <= |text| - |part| && OccursAt(text, part, i)
  }

  /** An occurrence agrees with `part` character by character. */
  lemma OccurrenceChar(text: string, part: string, i: int, j: nat)
    requires OccursAt(text, part, i) && j < |part|
    ensures text[i + j] == part[j]
  {
    assert text[i..i + |part|][j] == part[j];
  }

  /** No occurrence: wherever `part` could start, its character `j` is missing. */
  lemma Absent(text: string, part: string, j: nat)
    requires j < |part|
    requires forall i :: j <= i <= |text| - |part| + j ==> text[i] != part[j]
    ensures !Contains(text, part)
  {
    if Contains(text, part) {
      var i :| 0 <= i <= |text| - |part| && OccursAt(text, part, i);
      OccurrenceChar(text, part, i, j);
      assert false;
    }
  }

  // ---------------------------------------------------------------------
  // The fallback reply
  // ---------------------------------------------------------------------

  /** The topics the fallback recognises, each with its keywords and reply. */
  datatype Topic =
    | FeelingDown
    | FeelingAnxious
    | FeelingPositive
    | FeelingFrustrated
    | FeelingTired
    | Greeting
    | Unrecognized
  {
    function Keywords(): seq<string> {
      match this
      case FeelingDown => ["sad", "depress"]
      case FeelingAnxious => ["anxious", "stress", "worried"]
      case FeelingPositive => ["happy", "good", "great"]
      case FeelingFrustrated => ["angry", "upset", "frustrat"]
      case FeelingTired => ["tired", "exhausted", "fatigue"]
      case Greeting => ["hello", "hi", "hey"]
      case Unrecognized => []
    }

    function Reply(): string {
      match this
      case FeelingDown =>
        "I'm sorry to hear you're feeling down. Remember that it's okay to not be okay sometimes. Would you like to explore some gentle mood-lifting activities?"
      case FeelingAnxious =>
        "I notice you're feeling anxious. Let's try a quick breathing exercise: breathe in for 4 counts, hold for 4, and exhale for 6. Would you like to continue with more calming techniques?"
      case FeelingPositive =>
        "I'm glad you're feeling positive! What's contributed to your good mood today? Recognizing these factors can help us build on them."
      case FeelingFrustrated =>
        "I understand you're feeling frustrated. These emotions are valid. Would it help to talk about what triggered these feelings?"
      case FeelingTired =>
        "Being tired can really affect our mental state. Have you been able to prioritize rest lately? Perhaps we could discuss some gentle energy-boosting strategies."
      case Greeting =>
        "Hello! How are you feeling today? I'm here to listen and support you."
      case Unrecognized =>
        "Thank you for sharing. Can you tell me more about how that makes you feel? I'm here to listen and offer support without judgment."
    }
  }

  /** The order in which the topics are tried. */
  const Precedence: seq<Topic> := [FeelingDown, FeelingAnxious, FeelingPositive, FeelingFrustrated, FeelingTired, Greeting]

  /** The lower-cased text contains one of the topic's keywords. */
  predicate Mentions(lower: string, t: Topic) {
    exists k :: k in t.Keywords() && Contains(lower, k)
  }

  /** Reference reading of the fallback: the first topic of `topics` that the
      text mentions, or Unrecognized when there is none. */
  function FirstMentioned(lower: string, topics: seq<Topic>): (t: Topic)
    ensures t == Unrecognized || t in topics
    ensures t != Unrecognized ==> Mentions(lower, t)
  {
    if topics == [] then Unrecognized
    else if Mentions(lower, topics[0]) then topics[0]
    else FirstMentioned(lower, topics[1..])
  }

  /** The if/else chain, on the lower-cased input. */
  function ChainTopic(lower: string): Topic {
    if Contains(lower, "sad") || Contains(lower, "depress") then FeelingDown
    else if Contains(lower, "anxious") || Contains(lower, "stress") || Contains(lower, "worried") then FeelingAnxious
    else if Contains(lower, "happy") || Contains(lower, "good") || Contains(lower, "great") then FeelingPositive
    else if Contains(lower, "angry") || Contains(lower, "upset") || Contains(lower, "frustrat") then FeelingFrustrated
    else if Contains(lower, "tired") || Contains(lower, "exhausted") || Contains(lower, "fatigue") then FeelingTired
    else if Contains(lower, "hello") || Contains(lower, "hi") || Contains(lower, "hey") then Greeting
    else Unrecognized
  }

  /** The fallback's topic: the chain on `input.toLowerCase()`. */
  function FallbackTopic(input: string): Topic {
    ChainTopic(Lower(input))
  }

  function FallbackReply(input: string): string {
    FallbackTopic(input).Reply()
  }

  lemma MentionsTwo(lower: string, t: Topic, a: string, b: string)
    requires t.Keywords() == [a, b]
    ensures Mentions(lower, t) <==> Contains(lower, a) || Contains(lower, b)
  {
    if Contains(lower, a) { assert a in t.Keywords(); }
    if Contains(lower, b) { assert b in t.Keywords(); }
  }

  lemma MentionsThree(lower: string, t: Topic, a: string, b: string, c: string)
    requires t.Keywords() == [a, b, c]
    ensures Mentions(lower, t) <==> Contains(lower, a) || Contains(lower, b) || Contains(lower, c)
  {
    if Contains(lower, a) { assert a in t.Keywords(); }
    if Contains(lower, b) { assert b in t.Keywords(); }
    if Contains(lower, c) { assert c in t.Keywords(); }
  }

  /** Each test of the chain is "the input mentions this topic". */
  lemma ChainTestsAreMentions(lower: string)
    ensures Mentions(lower, FeelingDown) <==> Contains(lower, "sad") || Contains(lower, "depress")
    ensures Mentions(lower, FeelingAnxious) <==> Contains(lower, "anxious") || Contains(lower, "stress") || Contains(lower, "worried")
    ensures Mentions(lower, FeelingPositive) <==> Contains(lower, "happy") || Contains(lower, "good") || Contains(lower, "great")
    ensures Mentions(lower, FeelingFrustrated) <==> Contains(lower, "angry") || Contains(lower, "upset") || Contains(lower, "frustrat")
    ensures Mentions(lower, FeelingTired) <==> Contains(lower, "tired") || Contains(lower, "exhausted") || Contains(lower, "fatigue")
    ensures Mentions(lower, Greeting) <==> Contains(lower, "hello") || Contains(lower, "hi") || Contains(lower, "hey")
  {
    MentionsTwo(lower, FeelingDown, "sad", "depress");
    MentionsThree(lower, FeelingAnxious, "anxious", "stress", "worried");
    MentionsThree(lower, FeelingPositive, "happy", "good", "great");
    MentionsThree(lower, FeelingFrustrated, "angry", "upset", "frustrat");
    MentionsThree(lower, FeelingTired, "tired", "exhausted", "fatigue");
    MentionsThree(lower, Greeting, "hello", "hi", "hey");
  }

  /** The chain is the first-match-wins scan of the keyword table. */
  lemma ChainIsFirstMentioned(lower: string)
    ensures ChainTopic(lower) == FirstMentioned(lower, Precedence)
  {
    ChainTestsAreMentions(lower);
    var p := Precedence;
    assert p[6..] == [];
    assert FirstMentioned(lower, p[5..]) == if Mentions(lower, Greeting) then Greeting else Unrecognized;
    assert FirstMentioned(lower, p[4..]) == if Mentions(lower, FeelingTired) then FeelingTired else FirstMentioned(lower, p[5..]);
    assert FirstMentioned(lower, p[3..]) == if Mentions(lower, FeelingFrustrated) then FeelingFrustrated else FirstMentioned(lower, p[4..]);
    assert FirstMentioned(lower, p[2..]) == if Mentions(lower, FeelingPositive) then FeelingPositive else FirstMentioned(lower, p[3..]);
    assert FirstMentioned(lower, p[1..]) == if Mentions(lower, FeelingAnxious) then FeelingAnxious else FirstMentioned(lower, p[2..]);
    assert FirstMentioned(lower, p) == if Mentions(lower, FeelingDown) then FeelingDown else FirstMentioned(lower, p[1..]);
  }

  lemma FallbackIsFirstMentioned(input: string)
    ensures FallbackTopic(input) == FirstMentioned(Lower(input), Precedence)
  {
    ChainIsFirstMentioned(Lower(input));
  }

  /** Scanning distinct topics returns topic number `i` exactly when it is
      mentioned and none before it is. */
  lemma {:induction false} FirstMentionedAt(lower: string, topics: seq<Topic>, i: nat)
    requires i < |topics|
    requires Unrecognized !in topics
    requires forall a, b :: 0 <= a < b < |topics| ==> topics[a] != topics[b]
    ensures FirstMentioned(lower, topics) == topics[i] <==>
      Mentions(lower, topics[i]) && forall j :: 0 <= j < i ==> !Mentions(lower, topics[j])
  {
    if Mentions(lower, topics[0]) {
      if i > 0 {
        assert topics[0] != topics[i];
      }
    } else if i == 0 {
      SkippedHeadNotReturned(lower, topics);
    } else {
      FirstMentionedAt(lower, topics[1..], i - 1);
      forall j | 1 <= j < i ensures topics[j] == topics[1..][j - 1] {
      }
    }
  }

  /** A head that is not mentioned is never the answer, since the topics are distinct. */
  lemma SkippedHeadNotReturned(lower: string, topics: seq<Topic>)
    requires topics != [] && !Mentions(lower, topics[0])
    requires Unrecognized !in topics
    requires forall a, b :: 0 <= a < b < |topics| ==> topics[a] != topics[b]
    ensures FirstMentioned(lower, topics) != topics[0]
  {
    var rest := FirstMentioned(lower, topics[1..]);
    if rest in topics[1..] {
      var b :| 0 <= b < |topics[1..]| && topics[1..][b] == rest;
      assert topics[b + 1] == rest;
    }
  }

  lemma {:induction false} FirstMentionedNone(lower: string, topics: seq<Topic>)
    requires Unrecognized !in topics
    ensures FirstMentioned(lower, topics) == Unrecognized <==> forall t :: t in topics ==> !Mentions(lower, t)
  {
    if topics != [] {
      FirstMentionedNone(lower, topics[1..]);
      assert forall t :: t in topics <==> t == topics[0] || t in topics[1..];
    }
  }

  /** First match wins: the reply is topic number `i` of the precedence order
      exactly when the input mentions it and no earlier topic. */
  lemma FallbackPrecedence(input: string, i: nat)
    requires i < |Precedence|
    ensures FallbackTopic(input) == Precedence[i] <==>
      Mentions(Lower(input), Precedence[i]) && forall j :: 0 <= j < i ==> !Mentions(Lower(input), Precedence[j])
  {
    var lower := Lower(input);
    ChainIsFirstMentioned(lower);
    PrecedenceDistinct();
    FirstMentionedAt(lower, Precedence, i);
  }

  /** The precedence lists each topic once, and not the default. */
  lemma PrecedenceDistinct()
    ensures Unrecognized !in Precedence
    ensures forall a, b :: 0 <= a < b < |Precedence| ==> Precedence[a] != Precedence[b]
  {
  }

  /** The generic reply is given exactly when no keyword of any topic occurs. */
  lemma FallbackDefaultIff(input: string)
    ensures FallbackTopic(input) == Unrecognized <==>
      forall t :: t in Precedence ==> !Mentions(Lower(input), t)
  {
    var lower := Lower(input);
    ChainIsFirstMentioned(lower);
    PrecedenceDistinct();
    FirstMentionedNone(lower, Precedence);
  }

  /** A message about being both sad and anxious gets the "feeling down" reply. */
  lemma SadAndAnxiousIsDown()
    ensures FallbackTopic("I feel sad and anxious") == FeelingDown
  {
    var lower := Lower("I feel sad and anxious");
    assert lower[7] == 's' && lower[8] == 'a' && lower[9] == 'd';
    assert OccursAt(lower, "sad", 7);
  }

  /** "hi" matches inside other words: "this" is taken for a greeting. */
  lemma GreetingInsideWord()
    ensures FallbackTopic("this") == Greeting
  {
    var lower := Lower("this");
    assert lower[0] == 't' && lower[1] == 'h' && lower[2] == 'i' && lower[3] == 's';
    assert lower == "this";
    assert OccursAt(lower, "hi", 1);
    Absent(lower, "sad", 0);
    Absent(lower, "good", 0);
    Absent(lower, "hey", 1);
    forall k | |k| > 4 ensures !Contains(lower, k) {
    }
  }

  // ---------------------------------------------------------------------
  // The conversation history
  // ---------------------------------------------------------------------

  function AsChatMessage(m: Message): ChatMessage {
    Turn(if m.isUser then User else Assistant, m.text)
  }

  function AsMessage(c: ChatMessage): Message
    requires c.Turn?
  {
    Message(c.content, c.role == User)
  }

  /** `messages.map(msg => ({ role: msg.isUser ? 'user' : 'assistant', content: msg.text }))` */
  function ChatMessages(messages: seq<Message>): (chat: seq<ChatMessage>)
    ensures |chat| == |messages|
    ensures forall i :: 0 <= i < |messages| ==>
      && chat[i].Turn? && chat[i].role != System
      && (chat[i].role == User <==> messages[i].isUser)
      && chat[i].content == messages[i].text
  {
    if messages == [] then [] else [AsChatMessage(messages[0])] + ChatMessages(messages[1..])
  }

  /** The conversation sent to the AI: the system prompt, the earlier
      messages in order, the new input. */
  function ConversationHistory(messages: seq<Message>, input: string): (history: seq<ChatMessage>)
    ensures |history| == |messages| + 2
    ensures history[0] == SystemMessage
    ensures history[|history| - 1] == Turn(User, input)
    ensures forall i :: 0 <= i < |messages| ==>
      && history[i + 1].Turn? && history[i + 1].role != System
      && (history[i + 1].role == User <==> messages[i].isUser)
      && history[i + 1].content == messages[i].text
  {
    var chat := ChatMessages(messages);
    var history := [SystemMessage] + chat + [Turn(User, input)];
    assert forall i :: 0 <= i < |chat| ==> history[i + 1] == chat[i];
    history
  }

  /** The earlier messages can be read back from the history, so nothing is
      lost or reordered in the mapping. */
  lemma HistoryRecoversMessages(messages: seq<Message>, input: string)
    ensures var history := ConversationHistory(messages, input);
      forall i :: 0 <= i < |messages| ==> AsMessage(history[i + 1]) == messages[i]
  {
  }

  // ---------------------------------------------------------------------
  // The component state
  // ---------------------------------------------------------------------

  class ChatBot {
    var messages: seq<Message>
    var input: string
    var isTyping: bool

    constructor ()
      ensures messages == [Message(Welcome, false)] && input == "" && !isTyping
    {
      messages := [Message(Welcome, false)];
      input := "";
      isTyping := false;
    }

    /** The input box's `onChange`. */
    method SetInput(text: string)
      modifies this
      ensures input == text && messages == old(messages) && isTyping == old(isTyping)
    {
      input := text;
    }

    /** `handleSendMessage`. `aiReply` is what the completion returns for the
        history this call sends, or None when it throws. The result is that
        history, or None when nothing is sent. */
    method HandleSendMessage(aiReply: Option<string>) returns (sent: Option<seq<ChatMessage>>)
      modifies this
      ensures IsBlank(old(input)) ==>
        sent == None && messages == old(messages) && input == old(input) && isTyping == old(isTyping)
      ensures !IsBlank(old(input)) ==>
        && sent == Some(ConversationHistory(old(messages), old(input)))
        && messages == old(messages) + [
             Message(old(input), true),
             Message(if aiReply.Some? then aiReply.value else FallbackReply(old(input)), false)]
        && input == ""
        && !isTyping
    {
      if IsBlank(input) {
        return None;
      }
      var text := input;
      var history := ConversationHistory(messages, text);
      messages := messages + [Message(text, true)];
      input := "";
      isTyping := true;
      var reply := if aiReply.Some? then aiReply.value else FallbackReply(text);
      messages := messages + [Message(reply, false)];
      isTyping := false;
      sent := Some(history);
    }
  }
}
