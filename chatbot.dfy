/**
 * The chat window (components/shared/chatbot.tsx): the conversation, the
 * input box and the request to the chat flow.
 *
 * `handleSendMessage` runs in two halves with the flow's answer in between:
 * `Send` is everything up to the `await`, `Receive` everything after it, with
 * the flow's reply as a parameter (`None` when the call throws). Between the
 * two the window is responding and ignores further sends. Message ids and
 * timestamps come from the clock and are left out.
 */
module Chatbot {
  import opened Text
  import opened Farm
  import opened NameInitials

  datatype Role = FarmerRole | AssistantRole

  /** A message of the conversation; `canBeSaved` is false where the source leaves it unset. */
  datatype Message = Message(role: Role, text: string, canBeSaved: bool)

  /** One entry of the history the flow receives. */
  datatype HistoryEntry = HistoryEntry(role: string, content: string)

  /** The flow's input: the conversation so far and the new message. */
  datatype ChatInput = ChatInput(history: seq<HistoryEntry>, message: string)

  /** The flow's role names: `user` for the farmer, `model` for everything else. */
  function RoleName(role: Role): string {
    match role
    case FarmerRole => "user"
    case AssistantRole => "model"
  }

  function HistoryOf(m: Message): HistoryEntry {
    HistoryEntry(RoleName(m.role), m.text)
  }

  /** The conversation as the flow receives it: one entry per message, in order. */
  function History(messages: seq<Message>): (r: seq<HistoryEntry>)
    ensures |r| == |messages|
    ensures forall k :: 0 <= k < |r| ==> r[k] == HistoryOf(messages[k])
  {
    seq(|messages|, k requires 0 <= k < |messages| => HistoryOf(messages[k]))
  }

  /**
   * After a completed exchange the next request's history holds the earlier
   * history, then the farmer's text as `user`, then the reply as `model`.
   */
  lemma HistoryAfterExchange(messages: seq<Message>, text: string, reply: string, saved: bool)
    ensures History(messages + [Message(FarmerRole, text, false), Message(AssistantRole, reply, saved)])
      == History(messages) + [HistoryEntry("user", text), HistoryEntry("model", reply)]
  {
  }

  /** The "save as log" heuristic: the reply mentions `log` in any case. */
  predicate CanBeSaved(reply: string) {
    Contains(ToLower(reply), "log")
  }

  /** The heuristic ignores case: upper- or lower-casing a reply does not change it. */
  lemma CanBeSavedIgnoresCase(reply: string)
    ensures CanBeSaved(ToUpper(reply)) == CanBeSaved(reply)
    ensures CanBeSaved(ToLower(reply)) == CanBeSaved(reply)
  {
    assert ToLower(ToUpper(reply)) == ToLower(reply);
    ToLowerIdempotent(reply);
  }

  /** A reply without the letter g, in either case, is never offered for saving. */
  lemma WithoutGNotSaved(reply: string)
    requires 'g' !in reply && 'G' !in reply
    ensures !CanBeSaved(reply)
  {
    assert 'g' !in ToLower(reply) by {
      forall i | 0 <= i < |reply|
        ensures ToLower(reply)[i] != 'g'
      {
        assert reply[i] != 'g' && reply[i] != 'G';
      }
    }
    MissingCharNotContained(ToLower(reply), "log", 2);
  }

  /** A reply that says `Log` is offered for saving. */
  lemma LogReplySaved()
    ensures CanBeSaved("Log it?")
  {
    assert ToLower("Log it?") == "log it?";
    assert OccursAt("log it?", "log", 0);
    OccursContains("log it?", "log", 0);
  }

  /** A send goes ahead only with text that is not blank and no response in flight. */
  predicate Accepted(text: string, isResponding: bool) {
    !IsBlank(text) && !isResponding
  }

  /**
   * The letters in the farmer's avatar in the chat: `F` without a name. The
   * model uses the corrected helper; on a well-spaced name it shows what the
   * page's helper as written shows.
   */
  function AvatarInitials(profile: Option<FarmerProfile>): (r: string)
    ensures profile.None? ==> r == "F"
    ensures profile.Some? ==> r == Initials(Some(profile.value.name), "F")
    ensures profile.Some? && WellSpaced(profile.value.name) ==>
      r == InitialsAsWritten(Some(profile.value.name), "F")
  {
    if profile.None? then "F"
    else
      var name := profile.value.name;
      if WellSpaced(name) then AgreeOnWellSpaced(name, "F"); Initials(Some(name), "F")
      else Initials(Some(name), "F")
  }

  class ChatWindow {
    /** The translated greeting the conversation opens with. */
    const greeting: string
    var messages: seq<Message>
    var inputValue: string
    var isResponding: bool
    /** The request awaiting the flow's answer. */
    var pending: Option<ChatInput>

    /**
     * The greeting stays first; a request is in flight exactly while the
     * window is responding, and then the farmer's message ends the
     * conversation and the request's history is what came before it.
     */
    predicate Valid()
      reads this
    {
      |messages| >= 1 && messages[0] == Message(AssistantRole, greeting, false)
      && (isResponding <==> pending.Some?)
      && (pending.Some? ==>
            |messages| >= 2
            && messages[|messages| - 1] == Message(FarmerRole, pending.value.message, false)
            && pending.value.history == History(messages[..|messages| - 1]))
    }

    constructor(greeting: string)
      ensures Valid()
      ensures this.greeting == greeting && messages == [Message(AssistantRole, greeting, false)]
      ensures inputValue == "" && !isResponding
    {
      this.greeting := greeting;
      messages := [Message(AssistantRole, greeting, false)];
      inputValue := "";
      isResponding := false;
      pending := None;
    }

    /** The text box's `onChange`. */
    method Type(text: string)
      modifies this
      ensures inputValue == text
      ensures messages == old(messages) && isResponding == old(isResponding) && pending == old(pending)
    {
      inputValue := text;
    }

    /**
     * `handleSendMessage` up to the flow call, for the text box, a quick
     * reply or the microphone's placeholder text: a blank text or a send
     * while responding changes nothing; otherwise the farmer's message is
     * appended, the box cleared, and the conversation before it goes to the
     * flow with the text.
     */
    method Send(text: string)
      requires Valid()
      modifies this
      ensures Valid()
      ensures !Accepted(text, old(isResponding)) ==>
        messages == old(messages) && inputValue == old(inputValue)
        && isResponding == old(isResponding) && pending == old(pending)
      ensures Accepted(text, old(isResponding)) ==>
        messages == old(messages) + [Message(FarmerRole, text, false)]
        && inputValue == "" && isResponding
        && pending == Some(ChatInput(History(old(messages)), text))
    {
      if IsBlank(text) || isResponding {
        return;
      }
      var before := messages;
      messages := messages + [Message(FarmerRole, text, false)];
      inputValue := "";
      isResponding := true;
      pending := Some(ChatInput(History(before), text));
      assert messages[..|messages| - 1] == before;
    }

    /**
     * The rest of `handleSendMessage`: a reply is appended as the
     * assistant's, flagged when it mentions `log`; a failure drops the last
     * message, the farmer's own, restoring the conversation the request was
     * made from. Responding ends either way.
     */
    method Receive(reply: Option<string>)
      requires Valid() && isResponding
      modifies this
      ensures Valid() && !isResponding && inputValue == old(inputValue)
      ensures reply.Some? ==>
        messages == old(messages) + [Message(AssistantRole, reply.value, CanBeSaved(reply.value))]
      ensures reply.None? ==> messages == old(messages)[..|old(messages)| - 1]
      ensures reply.None? ==> History(messages) == old(pending).value.history
    {
      if reply.Some? {
        messages := messages + [Message(AssistantRole, reply.value, CanBeSaved(reply.value))];
      } else {
        messages := messages[..|messages| - 1];
      }
      isResponding := false;
      pending := None;
    }
  }

  /**
   * A first exchange in a fresh window: a blank text sends nothing; any
   * other text sends the greeting as history, and the conversation ends
   * with the reply, or is back to the greeting alone when the flow fails.
   */
  method FirstExchange(greeting: string, text: string, reply: Option<string>)
    returns (conversation: seq<Message>, request: Option<ChatInput>)
    ensures IsBlank(text) ==> request.None? && conversation == [Message(AssistantRole, greeting, false)]
    ensures !IsBlank(text) ==> request == Some(ChatInput([HistoryEntry("model", greeting)], text))
    ensures !IsBlank(text) && reply.Some? ==>
      conversation == [Message(AssistantRole, greeting, false), Message(FarmerRole, text, false),
                       Message(AssistantRole, reply.value, CanBeSaved(reply.value))]
    ensures reply.None? ==> conversation == [Message(AssistantRole, greeting, false)]
  {
    var w := new ChatWindow(greeting);
    assert History(w.messages) == [HistoryEntry("model", greeting)];
    w.Send(text);
    request := w.pending;
    if w.isResponding {
      w.Receive(reply);
    }
    conversation := w.messages;
  }
}
