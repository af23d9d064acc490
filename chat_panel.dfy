/** The floating chat panel (components/ChatPanel.tsx): a log of user and
    AI messages that only ever grows, an input line and a loading flag.
    Every accepted send adds the user's message and, once the service has
    answered, exactly one AI message. */
module ChatPanel {
  import opened Text
  import opened Service

  datatype Role = User | Ai

  /** A message as shown; its id and timestamp come from the clock and are
      not modelled. */
  datatype Message = Message(role: Role, content: string)

  const Apology := "Sorry, I encountered an error processing your request. Please try again."

  /** The AI message a completed request adds: the response text on
      success, the fixed apology on any failure. */
  function AiMessage(reply: Reply): (m: Message)
    ensures m.role == Ai
    ensures reply.Success? ==> m.content == reply.text
    ensures reply.Failure? ==> m.content == Apology
  {
    Message(Ai, if reply.Success? then reply.text else Apology)
  }

  /** The number of messages sent by `role`. */
  function CountRole(ms: seq<Message>, role: Role): (n: nat)
    ensures n <= |ms|
  {
    if ms == [] then 0
    else CountRole(ms[..|ms| - 1], role) + (if ms[|ms| - 1].role == role then 1 else 0)
  }

  /** The log as the panel builds it: user and AI messages alternate,
      starting with the user; while a request is pending the log ends with
      the user message still waiting for its answer. */
  predicate Turns(ms: seq<Message>, pending: bool) {
    && |ms| % 2 == (if pending then 1 else 0)
    && forall k :: 0 <= k < |ms| ==> ms[k].role == (if k % 2 == 0 then User else Ai)
  }

  /** Every message is the user's or the AI's: the two counts add up to
      the length of the log. */
  lemma {:induction false} CountsCoverLog(ms: seq<Message>)
    ensures CountRole(ms, User) + CountRole(ms, Ai) == |ms|
    decreases |ms|
  {
    if ms != [] {
      CountsCoverLog(ms[..|ms| - 1]);
    }
  }

  /** A log with no request pending holds as many AI messages as user
      messages: every question got exactly one answer. */
  lemma {:induction false} IdleLogIsAnswered(ms: seq<Message>)
    requires Turns(ms, false)
    ensures CountRole(ms, User) == CountRole(ms, Ai) == |ms| / 2
    decreases |ms|
  {
    if ms != [] {
      var front := ms[..|ms| - 2];
      assert front == ms[..|ms| - 1][..|ms| - 2];
      assert Turns(front, false);
      IdleLogIsAnswered(front);
    }
  }

  /** While a request is pending exactly one user message is unanswered. */
  lemma {:induction false} PendingLogAwaitsOne(ms: seq<Message>)
    requires Turns(ms, true)
    ensures CountRole(ms, User) == CountRole(ms, Ai) + 1
  {
    var front := ms[..|ms| - 1];
    assert Turns(front, false);
    IdleLogIsAnswered(front);
  }

  /** A user message opens a turn on an idle log. */
  lemma UserOpensTurn(ms: seq<Message>, text: string)
    requires Turns(ms, false)
    ensures Turns(ms + [Message(User, text)], true)
  {
    var ms' := ms + [Message(User, text)];
    forall k | 0 <= k < |ms'| ensures ms'[k].role == (if k % 2 == 0 then User else Ai) {
      if k < |ms| {
        assert ms'[k] == ms[k];
      }
    }
  }

  /** An AI message closes the pending turn. */
  lemma AiClosesTurn(ms: seq<Message>, m: Message)
    requires Turns(ms, true) && m.role == Ai
    ensures Turns(ms + [m], false)
  {
    var ms' := ms + [m];
    forall k | 0 <= k < |ms'| ensures ms'[k].role == (if k % 2 == 0 then User else Ai) {
      if k < |ms| {
        assert ms'[k] == ms[k];
      }
    }
  }

  /** The state of the panel. */
  class Chat {
    var isOpen: bool
    var messages: seq<Message>
    var input: string
    var isLoading: bool

    /** The log alternates turns, and the flag says whether the last user
        message still waits for its answer. */
    predicate Valid()
      reads this
    {
      Turns(messages, isLoading)
    }

    constructor ()
      ensures !isOpen && messages == [] && input == "" && !isLoading
      ensures Valid()
    {
      isOpen := false;
      messages := [];
      input := "";
      isLoading := false;
    }

    /** The floating button: opens or closes the panel. */
    method Toggle()
      modifies this
      ensures isOpen == !old(isOpen)
      ensures messages == old(messages) && input == old(input) && isLoading == old(isLoading)
    {
      isOpen := !isOpen;
    }

    /** The panel's close button. */
    method Close()
      modifies this
      ensures !isOpen
      ensures messages == old(messages) && input == old(input) && isLoading == old(isLoading)
    {
      isOpen := false;
    }

    /** Typing in the input line. */
    method SetInput(v: string)
      modifies this
      ensures input == v
      ensures isOpen == old(isOpen) && messages == old(messages) && isLoading == old(isLoading)
    {
      input := v;
    }

    /** The synchronous start of `sendMessage(text)`: blank text returns at
        once; otherwise the user's message is appended, the flag raised and
        the input cleared. */
    method BeginSend(text: string) returns (sent: bool)
      modifies this
      ensures sent <==> !IsBlank(text)
      ensures !sent ==> messages == old(messages) && input == old(input) && isLoading == old(isLoading)
      ensures sent ==> messages == old(messages) + [Message(User, text)] && isLoading && input == ""
      ensures old(Valid()) && !old(isLoading) ==> Valid()
      ensures isOpen == old(isOpen)
    {
      TrimEmptyIffBlank(text);
      if Trim(text) == [] {
        return false;
      }
      if Valid() && !isLoading {
        UserOpensTurn(messages, text);
      }
      messages := messages + [Message(User, text)];
      isLoading := true;
      input := "";
      sent := true;
    }

    /** The rest of `sendMessage` once the service has answered: exactly
        one AI message is appended and the flag is lowered. */
    method CompleteSend(reply: Reply)
      modifies this
      ensures messages == old(messages) + [AiMessage(reply)]
      ensures !isLoading
      ensures old(Valid()) && old(isLoading) ==> Valid()
      ensures isOpen == old(isOpen) && input == old(input)
    {
      if Valid() && isLoading {
        AiClosesTurn(messages, AiMessage(reply));
      }
      messages := messages + [AiMessage(reply)];
      isLoading := false;
    }

    /** `sendMessage(text)` with the request completing as `reply`. Blank
        text changes nothing; any other text adds the user message and then
        the one AI message, in that order, after the old log, which is kept
        as it was. */
    method SendMessage(text: string, reply: Reply)
      modifies this
      ensures old(messages) <= messages
      ensures IsBlank(text) ==> messages == old(messages) && input == old(input) && isLoading == old(isLoading)
      ensures !IsBlank(text) ==>
        && messages == old(messages) + [Message(User, text), AiMessage(reply)]
        && !isLoading && input == ""
      ensures old(Valid()) && !old(isLoading) ==> Valid() && !isLoading
      ensures isOpen == old(isOpen)
    {
      var sent := BeginSend(text);
      if sent {
        CompleteSend(reply);
        assert messages == old(messages) + [Message(User, text), AiMessage(reply)] by {
          assert [Message(User, text)] + [AiMessage(reply)] == [Message(User, text), AiMessage(reply)];
        }
      }
    }

    /** `handleSend`: the input is sent only when it is not blank and no
        request is loading; otherwise nothing changes. */
    method HandleSend(reply: Reply)
      modifies this
      ensures old(messages) <= messages
      ensures IsBlank(old(input)) || old(isLoading) ==>
        messages == old(messages) && input == old(input) && isLoading == old(isLoading)
      ensures !IsBlank(old(input)) && !old(isLoading) ==>
        && messages == old(messages) + [Message(User, old(input)), AiMessage(reply)]
        && !isLoading && input == ""
      ensures old(Valid()) ==> Valid()
      ensures isOpen == old(isOpen)
    {
      TrimEmptyIffBlank(input);
      if Trim(input) != [] && !isLoading {
        SendMessage(input, reply);
      }
    }

    /** `handleKeyPress`: Enter without Shift sends, any other key does
        nothing here. */
    method HandleKeyPress(enter: bool, shift: bool, reply: Reply)
      modifies this
      ensures old(messages) <= messages
      ensures !(enter && !shift) || IsBlank(old(input)) || old(isLoading) ==>
        messages == old(messages) && input == old(input) && isLoading == old(isLoading)
      ensures enter && !shift && !IsBlank(old(input)) && !old(isLoading) ==>
        && messages == old(messages) + [Message(User, old(input)), AiMessage(reply)]
        && !isLoading && input == ""
      ensures old(Valid()) ==> Valid()
      ensures isOpen == old(isOpen)
    {
      if enter && !shift {
        HandleSend(reply);
      }
    }

    /** A suggested question: its button is shown only while the log is
        empty, and it calls `sendMessage` directly. */
    method SendSuggestion(text: string, reply: Reply)
      modifies this
      ensures old(messages) != [] ==>
        messages == old(messages) && input == old(input) && isLoading == old(isLoading)
      ensures old(messages) == [] && !IsBlank(text) ==>
        messages == [Message(User, text), AiMessage(reply)] && !isLoading && input == ""
      ensures old(messages) == [] && IsBlank(text) ==>
        messages == old(messages) && input == old(input) && isLoading == old(isLoading)
      ensures old(Valid()) ==> Valid()
      ensures isOpen == old(isOpen)
    {
      if messages == [] {
        SendMessage(text, reply);
      }
    }
  }
}
