/**
 * The community chat page: a fixed list of messages and a draft input whose
 * send handler clears the draft when it holds more than whitespace.
 */
module CommunityChat {
  import opened JsText

  datatype Message = Message(
    id: int,
    username: string,
    message: string,
    timestamp: string,
    likes: int,
    isOwn: bool)

  // Two messages end in emoji stored mis-decoded (UTF-8 bytes read as
  // Windows-1254); the texts keep the characters the source holds.
  const InitialMessages: seq<Message> := [
    Message(1, "Sarah92",
      "Day 15 smoke-free! The cravings are getting easier to manage \U{11F}\U{178}\U{2019}\U{AA}",
      "10:30 AM", 12, false),
    Message(2, "MikeQuits",
      "Having a tough morning. Any tips for dealing with stress without cigarettes?",
      "11:15 AM", 3, false),
    Message(3, "HealthyLiving",
      "@MikeQuits Try deep breathing exercises! I use the 4-7-8 technique when I feel stressed.",
      "11:22 AM", 8, false),
    Message(4, "You",
      "Just starting my journey today. Feeling nervous but determined!",
      "12:05 PM", 15, true),
    Message(5, "QuitterWins",
      "Welcome! You've got this! The first few days are tough but it gets so much better \U{11F}\U{178}\U{152}\U{178}",
      "12:08 PM", 6, false)
  ]

  /** The send button's `disabled` attribute. */
  predicate SendDisabled(draft: string): (disabled: bool)
    ensures disabled <==> AllWhitespace(draft)
  {
    TrimEmptyIff(draft);
    Trim(draft) == ""
  }

  /** The draft after `handleSendMessage`: cleared when there was something to send. */
  function AfterSend(draft: string): (next: string)
    ensures SendDisabled(draft) ==> next == draft
    ensures !SendDisabled(draft) ==> next == ""
    ensures SendDisabled(next)
  {
    if Trim(draft) != "" then "" else draft
  }

  /** The button is disabled exactly when pressing it would change nothing. */
  lemma DisabledIffSendIsNoOp(draft: string)
    ensures SendDisabled(draft) <==> AfterSend(draft) == draft
  {
    if !SendDisabled(draft) {
      assert draft != "" by { TrimOfEmpty(); }
    }
  }

  /** Of two sends in a row, the second does nothing. */
  lemma SecondSendIsNoOp(draft: string)
    ensures AfterSend(AfterSend(draft)) == AfterSend(draft)
  {
    DisabledIffSendIsNoOp(AfterSend(draft));
  }

  class ChatPage {
    var newMessage: string
    /** A `useState` with no setter: no handler can add, remove or edit a message. */
    const messages: seq<Message> := InitialMessages

    constructor ()
      ensures newMessage == ""
    {
      newMessage := "";
    }

    /** The header's "N members online": the length of a list nothing changes. */
    function OnlineCount(): (n: nat)
      ensures n == 5
    {
      |messages|
    }

    /** The input's `onChange`. */
    method SetNewMessage(text: string)
      modifies this
      ensures newMessage == text
    {
      newMessage := text;
    }

    method HandleSendMessage()
      modifies this
      ensures newMessage == AfterSend(old(newMessage))
    {
      if Trim(newMessage) != "" {
        newMessage := "";
      }
    }

    /** The input's `onKeyPress`: Enter runs the send handler, other keys do nothing here. */
    method OnKeyPress(key: string)
      modifies this
      ensures newMessage == if key == "Enter" then AfterSend(old(newMessage)) else old(newMessage)
    {
      if key == "Enter" {
        HandleSendMessage();
      }
    }
  }
}
