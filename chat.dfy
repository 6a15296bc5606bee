/**
 * The chat page's transcript: an ordered list of messages and the text in the
 * input box. Sending a non-blank input appends the user's message and a canned
 * bot reply whose visualisation kind comes from keywords in the input, then
 * clears the box; clicking a sample question only fills the box.
 */
module Chat {
  import opened Wrappers
  import opened Text

  datatype Role = User | Bot

  /** The visualisation a bot message previews. */
  datatype DataKind = Chart | Map | Table

  /** `timestamp` is the millisecond clock value the `Date` was built from. */
  datatype Message = Message(id: string, role: Role, content: string, timestamp: int, dataType: Option<DataKind>)

  const GreetingId: string := "1"
  const GreetingText: string :=
    "Hello! I'm your AI assistant for ocean data exploration. Ask me anything about ARGO float data, like \"Show me temperature trends in the Arabian Sea\" or \"Compare salinity between the Atlantic and Pacific oceans\"."
  const ReplyText: string :=
    "I've analyzed your query and generated the requested visualization. Here's what I found based on the latest ARGO float data."

  // ------------------------------------------------------------ classifier

  /** The keyword rule that picks the reply's visualisation. */
  function Classify(input: string): (k: DataKind)
    ensures k != Table
  {
    var lower := Lower(input);
    if Contains(lower, "compare") then Chart
    else if Contains(lower, "position") || Contains(lower, "location") then Map
    else Chart
  }

  /** "compare" wins over the map keywords; a map needs "position" or
      "location"; everything else is a chart. */
  lemma ClassifyRules(input: string)
    ensures var lower := Lower(input);
      Classify(input) == Map <==>
        !Occurs(lower, "compare") && (Occurs(lower, "position") || Occurs(lower, "location"))
    ensures Classify(input) != Map ==> Classify(input) == Chart
  {
    var lower := Lower(input);
    ContainsIffOccurs(lower, "compare");
    ContainsIffOccurs(lower, "position");
    ContainsIffOccurs(lower, "location");
  }

  /** The rule does not see letter case. */
  lemma ClassifyIgnoresCase(input: string)
    ensures Classify(Lower(input)) == Classify(input)
  {
    LowerIdempotent(input);
  }

  // ------------------------------------------------------------ sending

  /** The four clock readings one send makes, in program order: `Date.now()`
      for the user id, `new Date()` for its timestamp, `Date.now()` for the bot
      id and `new Date()` for the bot timestamp. */
  datatype Clock = Clock(userNow: nat, userAt: nat, botNow: nat, botAt: nat)

  /** A clock that never runs backwards within one send. */
  predicate Monotone(c: Clock) {
    c.userNow <= c.userAt <= c.botNow <= c.botAt
  }

  datatype ChatState = ChatState(messages: seq<Message>, input: string)

  /** The transcript and input after the send handler runs. */
  function Sent(st: ChatState, c: Clock): ChatState {
    if IsBlank(st.input) then st
    else
      var user := Message(Decimal(c.userNow), User, st.input, c.userAt, None);
      var bot := Message(Decimal(c.botNow + 1), Bot, ReplyText, c.botAt, Some(Classify(st.input)));
      ChatState(st.messages + [user, bot], "")
  }

  /** A blank input is rejected and changes nothing; any other input changes
      the transcript. */
  lemma SendRejectsBlank(st: ChatState, c: Clock)
    ensures IsBlank(st.input) ==> Sent(st, c) == st
    ensures Sent(st, c).messages == st.messages <==> IsBlank(st.input)
  {
  }

  /** A non-blank send keeps the old transcript as a prefix, appends the user's
      raw input and then the bot reply, and empties the box. */
  lemma SendAppendsUserThenBot(st: ChatState, c: Clock)
    requires !IsBlank(st.input)
    ensures var r := Sent(st, c);
      && |r.messages| == |st.messages| + 2
      && r.messages[..|st.messages|] == st.messages
      && r.input == ""
    ensures var r := Sent(st, c);
      var user, bot := r.messages[|st.messages|], r.messages[|st.messages| + 1];
      && user == Message(Decimal(c.userNow), User, st.input, c.userAt, None)
      && bot.role == Bot && bot.content == ReplyText && bot.timestamp == c.botAt
      && bot.dataType == Some(Classify(st.input))
      && bot.id == Decimal(c.botNow + 1) && ParseDecimal(bot.id) == Some(c.botNow + 1)
  {
    DecimalRoundTrip(c.botNow + 1);
    var r := Sent(st, c);
    assert r.messages[..|st.messages|] == st.messages;
  }

  /** The message ids read back as numbers; -1 for an id that is not one. */
  function IdValue(m: Message): int {
    match ParseDecimal(m.id)
    case Some(n) => n
    case None => -1
  }

  /** Every id is a number, and the numbers strictly increase along the transcript. */
  ghost predicate IdsIncreasing(ms: seq<Message>) {
    && (forall i :: 0 <= i < |ms| ==> 0 <= IdValue(ms[i]))
    && (forall i, j :: 0 <= i < j < |ms| ==> IdValue(ms[i]) < IdValue(ms[j]))
  }

  lemma IncreasingIdsAreUnique(ms: seq<Message>)
    requires IdsIncreasing(ms)
    ensures forall i, j :: 0 <= i < j < |ms| ==> ms[i].id != ms[j].id
  {
  }

  /** With a clock that does not run backwards, the two ids of one send differ. */
  lemma SendIdsDistinct(st: ChatState, c: Clock)
    requires !IsBlank(st.input)
    requires c.userNow <= c.botNow
    ensures var r := Sent(st, c);
      r.messages[|st.messages|].id != r.messages[|st.messages| + 1].id
  {
    DecimalInjective(c.userNow, c.botNow + 1);
    SendAppendsUserThenBot(st, c);
  }

  lemma DecimalIdValue(m: Message, n: nat)
    requires m.id == Decimal(n)
    ensures IdValue(m) == n
  {
    DecimalRoundTrip(n);
  }

  /** A send whose first clock reading is past every id so far keeps the ids
      increasing, and leaves the bot id as the largest. */
  lemma SendKeepsIdsIncreasing(st: ChatState, c: Clock)
    requires IdsIncreasing(st.messages)
    requires forall i :: 0 <= i < |st.messages| ==> IdValue(st.messages[i]) < c.userNow
    requires c.userNow <= c.botNow
    ensures var ms := Sent(st, c).messages;
      IdsIncreasing(ms) && forall i :: 0 <= i < |ms| ==> IdValue(ms[i]) <= c.botNow + 1
  {
    if !IsBlank(st.input) {
      var ms := Sent(st, c).messages;
      var n := |st.messages|;
      assert ms == st.messages + [ms[n], ms[n + 1]];
      DecimalIdValue(ms[n], c.userNow);
      DecimalIdValue(ms[n + 1], c.botNow + 1);
      assert forall i :: 0 <= i < n ==> ms[i] == st.messages[i];
    }
  }

  /** The initial transcript already has increasing ids. */
  lemma GreetingIdsIncreasing(now: nat)
    ensures IdsIncreasing([Message(GreetingId, Bot, GreetingText, now, None)])
    ensures IdValue(Message(GreetingId, Bot, GreetingText, now, None)) == 1
  {
    assert GreetingId == Decimal(1);
    DecimalRoundTrip(1);
  }

  /** A second send made one millisecond after the first, with a clock that
      never runs backwards, reuses the first bot reply's id as its user id. */
  lemma NextMillisecondReusesId(t: nat, st: ChatState, a: string, b: string)
    requires !IsBlank(a) && !IsBlank(b)
    ensures var c1, c2 := Clock(t, t, t, t), Clock(t + 1, t + 1, t + 1, t + 1);
      var s1 := Sent(ChatState(st.messages, a), c1);
      var s2 := Sent(ChatState(s1.messages, b), c2);
      && Monotone(c1) && Monotone(c2)
      && s2.messages[|st.messages| + 1].id == s2.messages[|st.messages| + 2].id
  {
  }

  // ------------------------------------------------------------ the page

  class ChatPage {
    var messages: seq<Message>
    var inputValue: string

    function State(): ChatState
      reads this
    {
      ChatState(messages, inputValue)
    }

    /** The page mounts with a single greeting from the bot and an empty box. */
    constructor (now: nat)
      ensures messages == [Message(GreetingId, Bot, GreetingText, now, None)]
      ensures inputValue == ""
    {
      messages := [Message(GreetingId, Bot, GreetingText, now, None)];
      inputValue := "";
    }

    /** The send handler. */
    method SendMessage(c: Clock)
      modifies this
      ensures State() == Sent(old(State()), c)
    {
      if IsBlank(inputValue) {
        return;
      }
      var userMessage := Message(Decimal(c.userNow), User, inputValue, c.userAt, None);
      var kind := Classify(inputValue);
      var botResponse := Message(Decimal(c.botNow + 1), Bot, ReplyText, c.botAt, Some(kind));
      messages := messages + [userMessage, botResponse];
      inputValue := "";
    }

    /** Clicking a sample question puts it in the box and touches nothing else. */
    method QuestionClick(question: string)
      modifies this
      ensures inputValue == question
      ensures messages == old(messages)
    {
      inputValue := question;
    }
  }
}
