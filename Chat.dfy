/**
 * The chat page's input handling: the message list and the input box, the
 * send handler with its whitespace guard, Enter-key dispatch, and the
 * predicate that disables the send button.
 */
module Chat {
  import opened Text

  datatype Sender = User | Bot

  /**
   * One chat message. `id` is `Date.now().toString()` and `timestamp` the
   * `new Date()` of the send, both supplied by the caller.
   */
  datatype Message = Message(id: string, text: string, sender: Sender, timestamp: nat)

  /** The page's two pieces of state that the handlers change. */
  datatype ChatState = ChatState(messages: seq<Message>, inputMessage: string)

  /**
   * The send button's `disabled={!inputMessage.trim()}`: disabled exactly
   * for blank input.
   */
  function SendDisabled(inputMessage: string): (r: bool)
    ensures r <==> IsBlank(inputMessage)
  {
    Trim(inputMessage) == ""
  }

  /**
   * `handleSendMessage` as a state transition: blank input changes nothing;
   * otherwise one user message carrying the untrimmed input is appended
   * after all earlier messages and the input is cleared.
   */
  function Send(s: ChatState, id: string, timestamp: nat): (r: ChatState)
    ensures IsBlank(s.inputMessage) ==> r == s
    ensures !IsBlank(s.inputMessage) ==>
      && r.messages == s.messages + [Message(id, s.inputMessage, User, timestamp)]
      && r.inputMessage == ""
  {
    if Trim(s.inputMessage) != "" then
      ChatState(s.messages + [Message(id, s.inputMessage, User, timestamp)], "")
    else
      s
  }

  /** `handleKeyPress` sends on Enter without Shift, and on nothing else. */
  predicate IsSendKey(key: string, shiftKey: bool) {
    key == "Enter" && !shiftKey
  }

  /** The button is disabled exactly when pressing it would change nothing. */
  lemma DisabledIffSendIsNoOp(s: ChatState, id: string, timestamp: nat)
    ensures SendDisabled(s.inputMessage) <==> Send(s, id, timestamp) == s
  {
  }

  /** Every message on the page was typed by the user and is not blank. */
  predicate UserMessagesOnly(messages: seq<Message>) {
    forall i :: 0 <= i < |messages| ==> messages[i].sender == User && !IsBlank(messages[i].text)
  }

  /** Sending keeps every message a non-blank user message. */
  lemma SendKeepsUserMessagesOnly(s: ChatState, id: string, timestamp: nat)
    requires UserMessagesOnly(s.messages)
    ensures UserMessagesOnly(Send(s, id, timestamp).messages)
  {
  }

  class ChatInterface {
    var messages: seq<Message>
    var inputMessage: string

    /** The page's state as a value. */
    function State(): ChatState
      reads this
    {
      ChatState(messages, inputMessage)
    }

    /**
     * Every message on the page was sent from the input box. No operation
     * needs it; it documents an invariant the constructor establishes and
     * every method keeps.
     */
    predicate Valid()
      reads this
    {
      UserMessagesOnly(messages)
    }

    /** First render: no messages and an empty input. */
    constructor ()
      ensures messages == [] && inputMessage == ""
      ensures Valid()
    {
      messages := [];
      inputMessage := "";
    }

    /** The textarea's `onChange`: the input now holds `value`; the messages stay. */
    method OnInputChange(value: string)
      modifies this
      ensures inputMessage == value && messages == old(messages)
      ensures old(Valid()) ==> Valid()
    {
      inputMessage := value;
    }

    /** `handleSendMessage`, with the id and timestamp it would take from the clock. */
    method HandleSendMessage(id: string, timestamp: nat)
      modifies this
      ensures State() == Send(old(State()), id, timestamp)
      ensures old(SendDisabled(inputMessage)) ==> messages == old(messages) && inputMessage == old(inputMessage)
      ensures !old(SendDisabled(inputMessage)) ==>
        && messages == old(messages) + [Message(id, old(inputMessage), User, timestamp)]
        && inputMessage == ""
      ensures old(Valid()) ==> Valid()
    {
      ghost var before := State();
      if Trim(inputMessage) != "" {
        var newMessage := Message(id, inputMessage, User, timestamp);
        messages := messages + [newMessage];
        inputMessage := "";
      }
      assert State() == Send(before, id, timestamp);
      if UserMessagesOnly(before.messages) {
        SendKeepsUserMessagesOnly(before, id, timestamp);
      }
    }

    /**
     * `handleKeyPress`: Enter without Shift prevents the default newline and
     * attempts a send; any other key leaves the page as it was.
     */
    method HandleKeyPress(key: string, shiftKey: bool, id: string, timestamp: nat)
      returns (defaultPrevented: bool)
      modifies this
      ensures defaultPrevented <==> key == "Enter" && !shiftKey
      ensures State() == if defaultPrevented then Send(old(State()), id, timestamp) else old(State())
      ensures old(Valid()) ==> Valid()
    {
      defaultPrevented := false;
      if IsSendKey(key, shiftKey) {
        defaultPrevented := true;
        HandleSendMessage(id, timestamp);
      }
    }
  }
}
