/**
 * The chat widget (itsupport/chat.tsx): a message history that only grows,
 * an input box, and the `isLoading`/`isTyping` flags that keep at most one
 * request in flight. `handleSend` runs in two halves around its `await`:
 * `Send` is the part before it and `Receive` the part after, with the
 * service's answer as a parameter. Clock readings enter as `now`.
 */
module Chat {
  import opened Wrappers
  import opened Strings

  datatype Sender = User | Bot

  /** A history entry; the display timestamp is not modelled. */
  datatype ChatMessage = ChatMessage(id: string, sender: Sender, text: string)

  /** The history the widget starts with. */
  const Greeting := ChatMessage("1", Bot, "Hello! How can I assist you today?")

  const Apology := "Sorry, I encountered an error. Please try again."

  /** `!input.trim() || isLoading`: the guard of `handleSend` and the
      disabled state of the send button. */
  predicate SendBlocked(input: string, isLoading: bool) {
    Trim(input) == "" || isLoading
  }

  /** Sending is blocked exactly when a reply is pending or the input holds
      nothing but whitespace. */
  lemma SendBlockedMeaning(input: string, isLoading: bool)
    ensures SendBlocked(input, isLoading) <==> isLoading || Blank(input)
  {
    BlankIsEmptyTrim(input);
  }

  /** The message appended for the user's text at time `now`. */
  function UserMessage(input: string, now: nat): ChatMessage {
    ChatMessage(NatToString(now), User, Trim(input))
  }

  /** The bot message appended once the service answers or fails. */
  function BotMessage(reply: Result<string, string>, now: nat): (m: ChatMessage)
    ensures m.sender == Bot
    ensures reply.Ok? ==> m.text == reply.value
    ensures reply.Err? ==> m.text == Apology
  {
    match reply
    case Ok(text) => ChatMessage(NatToString(now + 1), Bot, text)
    case Err(_) => ChatMessage(NatToString(now), Bot, Apology)
  }

  /** Enter without Shift sends; Shift+Enter and every other key do not. */
  predicate SendsOnKey(key: string, shift: bool) {
    key == "Enter" && !shift
  }

  class ChatWidget {
    var messages: seq<ChatMessage>
    var input: string
    var isLoading: bool
    var isTyping: bool

    /** The greeting stays first and the two flags always move together. */
    ghost predicate Valid()
      reads this
    {
      |messages| >= 1 && messages[0] == Greeting && isTyping == isLoading
    }

    constructor ()
      ensures messages == [Greeting] && input == "" && !isLoading && !isTyping
      ensures Valid()
    {
      messages := [Greeting];
      input := "";
      isLoading := false;
      isTyping := false;
    }

    predicate SendDisabled()
      reads this
    {
      SendBlocked(input, isLoading)
    }

    /** Typing into the box (`onChange`). The box is disabled while a reply
        is pending, so no change reaches the state then. */
    method SetInput(v: string)
      modifies this
      requires Valid()
      ensures Valid()
      ensures input == if old(isLoading) then old(input) else v
      ensures messages == old(messages) && isLoading == old(isLoading) && isTyping == old(isTyping)
    {
      if !isLoading {
        input := v;
      }
    }

    /** `handleSend` up to its `await`: when not blocked, the trimmed text is
        appended as a user message, the box is cleared, both flags are set,
        and the untrimmed input is returned as the request to send. */
    method Send(now: nat) returns (request: Option<string>)
      modifies this
      requires Valid()
      ensures Valid()
      ensures old(SendDisabled()) ==> request == None && unchanged(this)
      ensures !old(SendDisabled()) ==>
        && request == Some(old(input))
        && messages == old(messages) + [UserMessage(old(input), now)]
        && input == "" && isLoading && isTyping
    {
      if SendDisabled() {
        return None;
      }
      request := Some(input);
      messages := messages + [UserMessage(input, now)];
      input := "";
      isLoading := true;
      isTyping := true;
    }

    /** `handleSend` after its `await`: one bot message with the reply or
        the apology, then both flags cleared by `finally`. */
    method Receive(reply: Result<string, string>, now: nat)
      modifies this
      requires Valid()
      ensures Valid()
      ensures messages == old(messages) + [BotMessage(reply, now)]
      ensures !isLoading && !isTyping && input == old(input)
    {
      messages := messages + [BotMessage(reply, now)];
      isLoading := false;
      isTyping := false;
    }

    /** `handleKeyPress`. */
    method KeyPress(key: string, shift: bool, now: nat) returns (request: Option<string>)
      modifies this
      requires Valid()
      ensures Valid()
      ensures !SendsOnKey(key, shift) ==> request == None && unchanged(this)
      ensures SendsOnKey(key, shift) && old(SendDisabled()) ==> request == None && unchanged(this)
      ensures SendsOnKey(key, shift) && !old(SendDisabled()) ==>
        && request == Some(old(input))
        && messages == old(messages) + [UserMessage(old(input), now)]
        && input == "" && isLoading && isTyping
    {
      if SendsOnKey(key, shift) {
        request := Send(now);
      } else {
        request := None;
      }
    }
  }

  /** While the first send is pending, typing is ignored and a second send
      (a click or Enter) is refused; once the reply arrives the history has
      grown by exactly the user message and the bot message, in that order,
      with the box empty and both flags cleared. */
  method SendCycle(w: ChatWidget, sentAt: nat, typed: string, reply: Result<string, string>, repliedAt: nat)
    returns (request: Option<string>, second: Option<string>)
    modifies w
    requires w.Valid() && !w.SendDisabled()
    ensures w.Valid()
    ensures request == Some(old(w.input)) && second == None
    ensures w.messages == old(w.messages) + [UserMessage(old(w.input), sentAt), BotMessage(reply, repliedAt)]
    ensures w.messages[|w.messages| - 2].sender == User && w.messages[|w.messages| - 1].sender == Bot
    ensures w.input == "" && !w.isLoading && !w.isTyping
  {
    request := w.Send(sentAt);
    w.SetInput(typed);
    second := w.Send(sentAt);
    w.Receive(reply, repliedAt);
  }
}
