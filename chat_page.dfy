/** The mock chat page (src/pages/chat/chat-page.tsx): a blank-input
    guard, an append-only message list, a typing flag and a delayed reply,
    and the keyword classifier that picks the canned reply. The clock and
    the locale time text are parameters; the 1500 ms timer is an event. */
module ChatPage {
  import opened Js

  datatype Role = Agent | User

  datatype ChatMessage = ChatMessage(id: string, role: Role, content: string, timestamp: string)

  const InitialMessages: seq<ChatMessage> := [
    ChatMessage("1", Agent, "Hello, I am a generative AI agent. How may I assist you today?", "4:08:28 PM"),
    ChatMessage("2", User, "Hi, I'd like to check my bill.", "4:08:37 PM"),
    ChatMessage("3", Agent, "Please hold for a second.\n\nOk, I can help you with that\n\nI'm pulling up your current bill information\n\nYour current bill is $150, and it is due on August 31, 2024.\n\nIf you need more details, feel free to ask!", "4:08:37 PM")
  ]

  /** The reply timer's delay in milliseconds. */
  const ReplyDelay := 1500

  /** The four canned replies, in the order the classifier tries them. */
  datatype Category = BillDetails | Payment | DueDate | General

  function Rank(c: Category): nat {
    match c
    case BillDetails => 0
    case Payment => 1
    case DueDate => 2
    case General => 3
  }

  /** The branch `generateResponse` takes on the lower-cased query. */
  function Classify(query: string): (c: Category)
    ensures var q := ToLower(query);
      (c == BillDetails <==> Includes(q, "bill") && Includes(q, "detail"))
      && (c == Payment <==> !(Includes(q, "bill") && Includes(q, "detail")) && Includes(q, "payment"))
      && (c == DueDate <==> !(Includes(q, "bill") && Includes(q, "detail")) && !Includes(q, "payment")
                            && (Includes(q, "due date") || Includes(q, "when")))
  {
    var q := ToLower(query);
    if Includes(q, "bill") && Includes(q, "detail") then BillDetails
    else if Includes(q, "payment") then Payment
    else if Includes(q, "due date") || Includes(q, "when") then DueDate
    else General
  }

  const BillDetailsReply: string := "Here's a breakdown of your current bill:\n\n\U{2022} Basic Service: $89.99\n\U{2022} Premium Channels: $35.00\n\U{2022} Equipment Rental: $15.00\n\U{2022} Taxes & Fees: $10.01\n\nTotal: $150.00\n\nDue Date: August 31, 2024"
  const PaymentReply: string := "You can make a payment through several methods:\n\n1. Online through your account dashboard\n2. Using our mobile app\n3. By calling our automated payment system at 1-800-555-0123\n4. By mailing a check to our payment processing center\n\nWould you like me to help you make a payment now?"
  const DueDateReply: string := "Your current bill of $150.00 is due on August 31, 2024. Would you like to set up a payment reminder?"
  const GeneralReply: string := "I'm here to help with any questions about your account or services. Is there something specific about your bill or services you'd like to know?"

  function ResponseText(c: Category): string {
    match c
    case BillDetails => BillDetailsReply
    case Payment => PaymentReply
    case DueDate => DueDateReply
    case General => GeneralReply
  }

  /** `generateResponse(query)`. */
  function GenerateResponse(query: string): string {
    ResponseText(Classify(query))
  }

  /** The classifier ignores ASCII letter case: the query upper-cased, or
      lower-cased, with the ASCII case map gets the same reply. */
  lemma ClassifyCaseInsensitive(query: string)
    ensures Classify(ToUpper(query)) == Classify(query)
    ensures Classify(ToLower(query)) == Classify(query)
    ensures GenerateResponse(ToUpper(query)) == GenerateResponse(query)
  {
    ToLowerOfUpper(query);
    ToLowerIdempotent(query);
  }

  lemma IncludesInLowered(query: string, before: string, after: string, w: string)
    requires Includes(ToLower(query), w)
    ensures Includes(ToLower(before + query + after), w)
  {
    ToLowerAppend(before + query, after);
    ToLowerAppend(before, query);
    IncludesExtended(ToLower(query), w, ToLower(before), ToLower(after));
  }

  /** Words added around a query can only move it to a branch tried
      earlier, never to a later one. */
  lemma ClassifyMonotone(query: string, before: string, after: string)
    ensures Rank(Classify(before + query + after)) <= Rank(Classify(query))
  {
    var q := ToLower(query);
    if Includes(q, "bill") && Includes(q, "detail") {
      IncludesInLowered(query, before, after, "bill");
      IncludesInLowered(query, before, after, "detail");
    } else if Includes(q, "payment") {
      IncludesInLowered(query, before, after, "payment");
    } else if Includes(q, "due date") {
      IncludesInLowered(query, before, after, "due date");
    } else if Includes(q, "when") {
      IncludesInLowered(query, before, after, "when");
    }
  }

  /** The send button's `disabled`: blank input or a reply pending. */
  predicate SendDisabled(input: string, isTyping: bool) {
    Trim(input) == [] || isTyping
  }

  lemma SendEnabledIff(input: string, isTyping: bool)
    ensures !SendDisabled(input, isTyping) <==> !AllWhitespace(input) && !isTyping
  {
    TrimEmptyIff(input);
  }

  /** A key press in the text area. */
  datatype KeyPress = KeyPress(isEnter: bool, shift: bool)

  datatype ChatState = ChatState(input: string, isTyping: bool, messages: seq<ChatMessage>,
                                 pendingReplies: seq<string>)

  /** The page's state; `pendingReplies` holds, oldest first, the inputs
      captured by reply timers that have not fired yet. */
  class Chat {
    var input: string
    var isTyping: bool
    var messages: seq<ChatMessage>
    var pendingReplies: seq<string>

    ghost function State(): ChatState
      reads this
    {
      ChatState(input, isTyping, messages, pendingReplies)
    }

    /** While the typing flag is up a reply is pending, and only non-blank
        input ever waits for a reply. */
    ghost predicate Valid()
      reads this
    {
      (isTyping ==> pendingReplies != [])
      && forall i :: 0 <= i < |pendingReplies| ==> !AllWhitespace(pendingReplies[i])
    }

    constructor ()
      ensures Valid()
      ensures State() == ChatState("", false, InitialMessages, [])
    {
      input := "";
      isTyping := false;
      messages := InitialMessages;
      pendingReplies := [];
    }

    /** The text area's `onChange`. */
    method SetInput(text: string)
      requires Valid()
      modifies this
      ensures Valid()
      ensures State() == old(State()).(input := text)
    {
      input := text;
    }

    /** `handleSendMessage` at time `now` (milliseconds), with `timeText` the
        locale time text: blank input does nothing; otherwise the untrimmed
        input is appended as a user message, the input cleared, the typing
        flag raised and a reply timer started for that input. */
    method SendMessage(now: int, timeText: string)
      requires Valid()
      modifies this
      ensures Valid()
      ensures AllWhitespace(old(input)) ==> State() == old(State())
      ensures !AllWhitespace(old(input)) ==>
        State() == ChatState("", true, old(messages) + [ChatMessage(IntText(now), User, old(input), timeText)],
                             old(pendingReplies) + [old(input)])
    {
      TrimEmptyIff(input);
      if Trim(input) == [] {
        return;
      }
      messages := messages + [ChatMessage(IntText(now), User, input, timeText)];
      pendingReplies := pendingReplies + [input];
      input := "";
      isTyping := true;
    }

    /** The oldest reply timer fires at time `now`: one agent message with
        the reply to the captured input, and the typing flag lowered. */
    method ReplyTimerFired(now: int, timeText: string)
      requires Valid() && pendingReplies != []
      modifies this
      ensures Valid()
      ensures State() == old(State()).(isTyping := false,
                                       messages := old(messages) + [ChatMessage(IntText(now + 1), Agent, GenerateResponse(old(pendingReplies)[0]), timeText)],
                                       pendingReplies := old(pendingReplies)[1..])
    {
      messages := messages + [ChatMessage(IntText(now + 1), Agent, GenerateResponse(pendingReplies[0]), timeText)];
      pendingReplies := pendingReplies[1..];
      isTyping := false;
    }

    /** `handleKeyDown`: Enter without Shift sends, whether or not a reply
        is pending; anything else is left to the text area. */
    method KeyDown(key: KeyPress, now: int, timeText: string)
      requires Valid()
      modifies this
      ensures Valid()
      ensures !(key.isEnter && !key.shift) ==> State() == old(State())
      ensures key.isEnter && !key.shift && AllWhitespace(old(input)) ==> State() == old(State())
      ensures key.isEnter && !key.shift && !AllWhitespace(old(input)) ==>
        State() == ChatState("", true, old(messages) + [ChatMessage(IntText(now), User, old(input), timeText)],
                             old(pendingReplies) + [old(input)])
    {
      if key.isEnter && !key.shift {
        SendMessage(now, timeText);
      }
    }
  }

  /** Enter bypasses the disabled send button: two questions sent before
      the first reply arrives both get replies, but the first reply lowers
      the typing flag while the second is still pending. */
  method EnterWhileTyping() returns (typingAfterFirstReply: bool, stillPending: nat, messageCount: nat)
    ensures !typingAfterFirstReply && stillPending == 1 && messageCount == |InitialMessages| + 3
  {
    var chat := new Chat();
    chat.SetInput("when is it due?");
    assert !IsWhitespace(chat.input[0]);
    chat.KeyDown(KeyPress(true, false), 1000, "4:10:00 PM");
    chat.SetInput("payment options");
    assert !IsWhitespace(chat.input[0]);
    assert SendDisabled(chat.input, chat.isTyping);
    chat.KeyDown(KeyPress(true, false), 1200, "4:10:00 PM");
    chat.ReplyTimerFired(2500, "4:10:01 PM");
    typingAfterFirstReply := chat.isTyping;
    stillPending := |chat.pendingReplies|;
    messageCount := |chat.messages|;
  }
}
