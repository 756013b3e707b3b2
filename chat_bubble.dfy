/** The help chat bubble (src/components/shared/ChatBubble.tsx): the keyword router that picks
    the bot's reply, and the message list the send handler appends to. */
module ChatBubble {
  import opened JsPrelude

  const TemplateReply := "I can help you create and organize research templates! You can save unlimited templates in your dashboard and organize them by ticker or sector. Would you like me to guide you through creating your first template?"
  const PricingReply := "We offer three plans: Free (2 templates), Basic ($9.99/month for unlimited templates), and Pro ($20/month with AI summaries). Which plan interests you most?"
  const AiReply := "Our AI can analyze SEC filings (10-K, 10-Q) and provide instant summaries to save you hours of reading. This feature is available in our Pro plan. Want to learn more about AI-powered analysis?"
  const HelpReply := "I'm here to help! You can ask me about:\n• Creating research templates\n• Organizing your analysis\n• AI-powered SEC filing summaries\n• Pricing and features\n• Getting started\n\nWhat would you like to know?"
  const DefaultReply := "Thanks for your question! I can help you with research templates, AI analysis features, pricing, and getting started with FintraAI. Feel free to ask me anything specific!"
  const Greeting := "Hi! I'm your FintraAI assistant. How can I help you today?"

  /** The topic a message is routed to, in the order the router tries them. */
  datatype Topic = Templates | Pricing | Ai | Help | Other

  /** The if/else chain of `getBotResponse` on the lowercased message. */
  function TopicOf(message: string): (t: Topic) {
    var lower := ToLower(message);
    if Contains(lower, "template") || Contains(lower, "research") then Templates
    else if Contains(lower, "pricing") || Contains(lower, "cost") then Pricing
    else if Contains(lower, "ai") || Contains(lower, "summary") then Ai
    else if Contains(lower, "help") || Contains(lower, "how") then Help
    else Other
  }

  function ReplyOf(t: Topic): string {
    match t
    case Templates => TemplateReply
    case Pricing => PricingReply
    case Ai => AiReply
    case Help => HelpReply
    case Other => DefaultReply
  }

  /** `getBotResponse`. */
  function BotResponse(message: string): string {
    ReplyOf(TopicOf(message))
  }

  /** The keyword groups, highest priority first. */
  const Keywords: seq<seq<string>> := [["template", "research"], ["pricing", "cost"], ["ai", "summary"], ["help", "how"]]

  /** The topic each keyword group leads to, in the same order. */
  const Topics: seq<Topic> := [Templates, Pricing, Ai, Help]

  /** s contains one of the words. */
  predicate MentionsAny(s: string, words: seq<string>) {
    words != [] && (Contains(s, words[0]) || MentionsAny(s, words[1..]))
  }

  /** The reference router: the index of the first group, from g on, that s mentions, or the
      number of groups when it mentions none. */
  function FirstMentioned(s: string, groups: seq<seq<string>>, g: nat): (r: nat)
    requires g <= |groups|
    ensures g <= r <= |groups|
    ensures r < |groups| ==> MentionsAny(s, groups[r])
    ensures forall h :: g <= h < r ==> !MentionsAny(s, groups[h])
    decreases |groups| - g
  {
    if g == |groups| then g
    else if MentionsAny(s, groups[g]) then g
    else FirstMentioned(s, groups, g + 1)
  }

  /** The if/else chain is the reference router over the keyword table: the reply's topic is the
      one of the first group the lowercased message mentions, and the default when none. */
  lemma {:induction false} RoutingPriority(message: string)
    ensures var k := FirstMentioned(ToLower(message), Keywords, 0);
      TopicOf(message) == if k < |Topics| then Topics[k] else Other
  {
    var lower := ToLower(message);
    MentionsPair(lower, "template", "research");
    MentionsPair(lower, "pricing", "cost");
    MentionsPair(lower, "ai", "summary");
    MentionsPair(lower, "help", "how");
    assert FirstMentioned(lower, Keywords, 4) == 4;
  }

  lemma MentionsPair(s: string, a: string, b: string)
    ensures MentionsAny(s, [a, b]) <==> Contains(s, a) || Contains(s, b)
  {
    assert [a, b][1..] == [b];
    assert [b][1..] == [];
    assert !MentionsAny(s, []);
    assert MentionsAny(s, [b]) <==> Contains(s, b);
  }

  /** Routing ignores case: a message and its lowercase form get the same reply. */
  lemma RoutingIgnoresCase(message: string)
    ensures BotResponse(message) == BotResponse(ToLower(message))
  {
    ToLowerIdempotent(message);
  }

  /** "template" or "research" wins over every other keyword. */
  lemma TemplateWins(message: string)
    requires Contains(ToLower(message), "template") || Contains(ToLower(message), "research")
    ensures BotResponse(message) == TemplateReply
  {
  }

  // ---------------------------------------------------------------------------
  // The message list

  datatype Message = Message(id: int, text: string, isBot: bool)

  /** A reply whose timer has not fired: the id it was given when its question was sent, and
      the question, which the timer answers with `getBotResponse` when it fires. */
  datatype PendingReply = PendingReply(id: int, question: string)

  /** The component state: the message list, the input box, the typing indicator and the
      pending replies, oldest first. */
  datatype ChatState = ChatState(messages: seq<Message>, input: string, isTyping: bool, pending: seq<PendingReply>)

  const InitialChat := ChatState([Message(1, Greeting, true)], "", false, [])

  /** The user edits the input box. */
  function Typed(s: ChatState, text: string): (r: ChatState)
    ensures r.input == text && r.messages == s.messages && r.pending == s.pending && r.isTyping == s.isTyping
  {
    s.(input := text)
  }

  /** `handleSendMessage`: blank input does nothing; otherwise the message is appended with id
      length + 1, the input is cleared, the typing indicator turns on, and a reply with id
      length + 2 is scheduled. */
  function Sent(s: ChatState): (r: ChatState)
    ensures Trim(s.input) == "" ==> r == s
    ensures Trim(s.input) != "" ==>
      |r.messages| == |s.messages| + 1 && r.messages[..|s.messages|] == s.messages &&
      r.messages[|s.messages|] == Message(|s.messages| + 1, s.input, false) &&
      r.input == "" && r.isTyping &&
      r.pending == s.pending + [PendingReply(|s.messages| + 2, s.input)]
  {
    if Trim(s.input) == "" then s
    else
      ChatState(s.messages + [Message(|s.messages| + 1, s.input, false)], "", true,
                s.pending + [PendingReply(|s.messages| + 2, s.input)])
  }

  /** The oldest timer fires: the bot's answer to its question is appended and the typing
      indicator turns off. */
  function Delivered(s: ChatState): (r: ChatState)
    requires s.pending != []
    ensures r.messages == s.messages + [Message(s.pending[0].id, BotResponse(s.pending[0].question), true)]
    ensures r.pending == s.pending[1..] && !r.isTyping && r.input == s.input
  {
    ChatState(s.messages + [Message(s.pending[0].id, BotResponse(s.pending[0].question), true)],
              s.input, false, s.pending[1..])
  }

  /** Message ids are distinct. */
  predicate DistinctIds(ms: seq<Message>) {
    forall i, j :: 0 <= i < j < |ms| ==> ms[i].id != ms[j].id
  }

  /** One send followed by its reply keeps the ids 1, 2, ..., n: the user message and the
      reply get the next two ids, and the reply answers the message. */
  lemma SendThenReplyKeepsIds(s: ChatState)
    requires s.pending == [] && Trim(s.input) != ""
    requires forall i :: 0 <= i < |s.messages| ==> s.messages[i].id == i + 1
    ensures var r := Delivered(Sent(s));
      r.pending == [] && !r.isTyping && |r.messages| == |s.messages| + 2 &&
      r.messages[|s.messages| + 1].text == BotResponse(s.input) &&
      (forall i :: 0 <= i < |r.messages| ==> r.messages[i].id == i + 1) && DistinctIds(r.messages)
  {
    var a := Sent(s);
    assert a.messages == s.messages + [Message(|s.messages| + 1, s.input, false)];
    AppendKeepsConsecutive(s.messages, Message(|s.messages| + 1, s.input, false));
    DeliveredKeepsIds(a);
  }

  /** Delivering a reply whose id is the next one keeps the ids 1, 2, ..., n. */
  lemma DeliveredKeepsIds(a: ChatState)
    requires a.pending != [] && a.pending[0].id == |a.messages| + 1
    requires forall i :: 0 <= i < |a.messages| ==> a.messages[i].id == i + 1
    ensures var r := Delivered(a);
      (forall i :: 0 <= i < |r.messages| ==> r.messages[i].id == i + 1) && DistinctIds(r.messages)
  {
    AppendKeepsConsecutive(a.messages, Message(a.pending[0].id, BotResponse(a.pending[0].question), true));
  }

  lemma AppendKeepsConsecutive(ms: seq<Message>, m: Message)
    requires forall i :: 0 <= i < |ms| ==> ms[i].id == i + 1
    requires m.id == |ms| + 1
    ensures forall i :: 0 <= i < |ms + [m]| ==> (ms + [m])[i].id == i + 1
    ensures DistinctIds(ms + [m])
  {
  }

  /** A second message sent before the first reply arrives gets the id that reply already
      holds, since each reply's id is fixed when its message is sent: once both replies are in,
      two messages share an id. */
  lemma QuickSecondSendDuplicatesId(s: ChatState, first: string, second: string)
    requires s.pending == [] && Trim(first) != "" && Trim(second) != ""
    ensures var r := Delivered(Delivered(Sent(Typed(Sent(Typed(s, first)), second))));
      r.pending == [] && !DistinctIds(r.messages)
  {
    var n := |s.messages|;
    var a := Sent(Typed(s, first));
    var b := Sent(Typed(a, second));
    assert b.messages[n + 1] == Message(n + 2, second, false);
    assert b.pending[0].id == n + 2;
    var c := Delivered(b);
    var r := Delivered(c);
    assert r.messages[n + 1].id == n + 2;
    assert r.messages[n + 2].id == n + 2;
  }

  /** The bubble's state as a class whose handlers update it in place. */
  class ChatBubbleState {
    var messages: seq<Message>
    var inputMessage: string
    var isTyping: bool
    var pending: seq<PendingReply>

    function State(): ChatState
      reads this
    {
      ChatState(messages, inputMessage, isTyping, pending)
    }

    /** The first render: the greeting, with id 1, from the bot. */
    constructor ()
      ensures State() == InitialChat
    {
      messages := [Message(1, Greeting, true)];
      inputMessage := "";
      isTyping := false;
      pending := [];
    }

    method SetInput(text: string)
      modifies this
      ensures State() == Typed(old(State()), text)
    {
      inputMessage := text;
    }

    method HandleSendMessage()
      modifies this
      ensures State() == Sent(old(State()))
    {
      if Trim(inputMessage) == "" {
        return;
      }
      var id := |messages| + 2;
      messages := messages + [Message(|messages| + 1, inputMessage, false)];
      pending := pending + [PendingReply(id, inputMessage)];
      inputMessage := "";
      isTyping := true;
    }

    /** The timer of the oldest pending reply fires. */
    method DeliverReply()
      requires pending != []
      modifies this
      ensures State() == Delivered(old(State()))
    {
      messages := messages + [Message(pending[0].id, BotResponse(pending[0].question), true)];
      pending := pending[1..];
      isTyping := false;
    }
  }
}
