/**
 * The conversation state of the chat screen (src/app/App.tsx, `ChatInterface`):
 * the record `{messages, isLoading, error}` and the handlers that update it.
 * Each asynchronous handler is split into the step before its `await` and the
 * step after it, each taken as one atomic transition; what the awaited call
 * settled to is a parameter, as are the fresh id and timestamp of a message.
 */
module Chat {
  import opened Wrappers
  import opened Js
  import opened AgentService

  datatype Role = User | Assistant

  /** A chat message; `id` and `timestamp` are opaque. */
  datatype Message = Message(id: string, role: Role, content: string, timestamp: int)

  const SendFallback := "Failed to send message. Please try again."
  const RegenerateFallback := "Failed to regenerate response. Please try again."

  /** The index of the last user message, searching from the end. */
  function LastUserIndex(msgs: seq<Message>): (k: Option<nat>)
    ensures k.Some? ==> k.value < |msgs| && msgs[k.value].role == User
    ensures k.Some? ==> forall j :: k.value < j < |msgs| ==> msgs[j].role != User
    ensures k.None? <==> forall j :: 0 <= j < |msgs| ==> msgs[j].role != User
  {
    if msgs == [] then None
    else if msgs[|msgs| - 1].role == User then Some(|msgs| - 1)
    else LastUserIndex(msgs[..|msgs| - 1])
  }

  /** When the regenerate button is offered. */
  predicate CanShowRegenerate(msgs: seq<Message>, isLoading: bool) {
    msgs != [] && msgs[|msgs| - 1].role == Assistant && !isLoading
  }

  /**
   * When the button is offered and regenerating goes ahead, the user message it
   * resends lies before the last message, so dropping the last message keeps it.
   */
  lemma OfferedRegenerateKeepsPrompt(msgs: seq<Message>)
    requires CanShowRegenerate(msgs, false)
    requires LastUserIndex(msgs).Some?
    ensures LastUserIndex(msgs).value < |msgs| - 1
    ensures msgs[..|msgs| - 1][LastUserIndex(msgs).value] == msgs[LastUserIndex(msgs).value]
    ensures LastUserIndex(msgs[..|msgs| - 1]) == LastUserIndex(msgs)
  {
  }

  /** After an exchange `[user, assistant]` the search finds that user message. */
  lemma LastUserAfterExchange(msgs: seq<Message>, u: Message, a: Message)
    requires u.role == User && a.role == Assistant
    ensures LastUserIndex(msgs + [u, a]) == Some(|msgs|)
  {
    var s := msgs + [u, a];
    assert s[..|s| - 1] == msgs + [u];
  }

  class ChatInterface {
    var messages: seq<Message>
    var isLoading: bool
    var error: Option<string>

    /** `useState({messages: [], isLoading: false})` */
    constructor ()
      ensures messages == [] && !isLoading && error == None
    {
      messages := [];
      isLoading := false;
      error := None;
    }

    /**
     * `showRegenerateButton`: a last message from the assistant and no request
     * in flight; the message regenerating would drop is then never a user's.
     */
    function ShowRegenerateButton(): (shown: bool)
      reads this
      ensures shown <==> messages != [] && messages[|messages| - 1].role == Assistant && !isLoading
      ensures shown && LastUserIndex(messages).Some? ==> LastUserIndex(messages).value < |messages| - 1
    {
      CanShowRegenerate(messages, isLoading)
    }

    /**
     * `handleSendMessage` up to its `await`: nothing happens while loading;
     * otherwise the error is cleared, the user message appended and loading set.
     */
    method StartSend(content: string, id: string, timestamp: int) returns (started: bool)
      modifies this
      ensures started == !old(isLoading)
      ensures !started ==> messages == old(messages) && isLoading == old(isLoading) && error == old(error)
      ensures started ==> messages == old(messages) + [Message(id, User, content, timestamp)]
      ensures started ==> isLoading && error == None
    {
      if isLoading {
        return false;
      }
      error := None;
      messages := messages + [Message(id, User, content, timestamp)];
      isLoading := true;
      started := true;
    }

    /** What follows the `await`: an assistant reply is appended, or the error is shown and the messages kept. */
    method Complete(outcome: Result<AgentResponse, Thrown>, fallback: string, id: string, timestamp: int)
      modifies this
      ensures !isLoading
      ensures outcome.Success? ==> messages == old(messages) + [Message(id, Assistant, outcome.value.output_text, timestamp)]
      ensures outcome.Success? ==> error == None
      ensures outcome.Failure? ==> messages == old(messages) && error == Some(MessageOr(outcome.error, fallback))
    {
      match outcome
      case Success(response) =>
        messages := messages + [Message(id, Assistant, response.output_text, timestamp)];
        isLoading := false;
        error := None;
      case Failure(e) =>
        isLoading := false;
        error := Some(MessageOr(e, fallback));
    }

    /** `handleSendMessage` after its `await`. */
    method CompleteSend(outcome: Result<AgentResponse, Thrown>, id: string, timestamp: int)
      modifies this
      ensures !isLoading
      ensures outcome.Success? ==> messages == old(messages) + [Message(id, Assistant, outcome.value.output_text, timestamp)]
      ensures outcome.Success? ==> error == None
      ensures outcome.Failure? ==> messages == old(messages) && error == Some(MessageOr(outcome.error, SendFallback))
    {
      Complete(outcome, SendFallback, id, timestamp);
    }

    /**
     * `handleRegenerateLastResponse` up to its `await`: with at least two
     * messages, not loading and some user message, the last message is dropped,
     * the error cleared, loading set, and the content of the last user message
     * returned for resending; otherwise nothing changes.
     */
    method StartRegenerate() returns (resend: Option<string>)
      modifies this
      ensures resend.None? <==> |old(messages)| < 2 || old(isLoading) || LastUserIndex(old(messages)).None?
      ensures resend.None? ==> messages == old(messages) && isLoading == old(isLoading) && error == old(error)
      ensures resend.Some? ==> resend.value == old(messages)[LastUserIndex(old(messages)).value].content
      ensures resend.Some? ==> messages == old(messages)[..|old(messages)| - 1] && isLoading && error == None
    {
      if |messages| < 2 || isLoading {
        return None;
      }

      var lastUser: Option<Message> := None;
      var i := |messages| - 1;
      while i >= 0
        invariant -1 <= i < |messages|
        invariant forall j :: i < j < |messages| ==> messages[j].role != User
        invariant lastUser == None
        decreases i
      {
        if messages[i].role == User {
          lastUser := Some(messages[i]);
          assert LastUserIndex(messages) == Some(i as nat) by {
            LastUserIsLastFound(messages, i);
          }
          break;
        }
        i := i - 1;
      }
      if lastUser.None? {
        assert LastUserIndex(messages).None?;
        return None;
      }

      error := None;
      messages := messages[..|messages| - 1];
      isLoading := true;
      resend := Some(lastUser.value.content);
    }

    /** `handleRegenerateLastResponse` after its `await`. */
    method CompleteRegenerate(outcome: Result<AgentResponse, Thrown>, id: string, timestamp: int)
      modifies this
      ensures !isLoading
      ensures outcome.Success? ==> messages == old(messages) + [Message(id, Assistant, outcome.value.output_text, timestamp)]
      ensures outcome.Success? ==> error == None
      ensures outcome.Failure? ==> messages == old(messages) && error == Some(MessageOr(outcome.error, RegenerateFallback))
    {
      Complete(outcome, RegenerateFallback, id, timestamp);
    }

    /** `handleClearChat`: back to the initial state, from any state. */
    method Clear()
      modifies this
      ensures messages == [] && !isLoading && error == None
    {
      messages := [];
      isLoading := false;
      error := None;
    }
  }

  /** A user message at i with none after it is the one the search finds. */
  lemma {:induction false} LastUserIsLastFound(msgs: seq<Message>, i: int)
    requires 0 <= i < |msgs| && msgs[i].role == User
    requires forall j :: i < j < |msgs| ==> msgs[j].role != User
    ensures LastUserIndex(msgs) == Some(i as nat)
    decreases |msgs|
  {
    if i < |msgs| - 1 {
      LastUserIsLastFound(msgs[..|msgs| - 1], i);
    }
  }

  /**
   * From any chat that is not loading, a send that succeeds is followed by the
   * regenerate button, and regenerating then resends the same content and leaves
   * the earlier messages with the user message last.
   */
  method SendThenRegenerate(chat: ChatInterface, content: string, reply: string, id1: string, id2: string, t1: int, t2: int)
    returns (shown: bool, resent: Option<string>)
    requires !chat.isLoading
    modifies chat
    ensures shown
    ensures resent == Some(content)
    ensures chat.messages == old(chat.messages) + [Message(id1, User, content, t1)]
    ensures chat.isLoading && chat.error == None
  {
    var before := chat.messages;
    var u := Message(id1, User, content, t1);
    var a := Message(id2, Assistant, reply, t2);
    var started := chat.StartSend(content, id1, t1);
    chat.CompleteSend(Success(AgentResponse(reply)), id2, t2);
    shown := chat.ShowRegenerateButton();
    assert chat.messages == before + [u, a];
    LastUserAfterExchange(before, u, a);
    resent := chat.StartRegenerate();
    assert (before + [u, a])[..|before| + 1] == before + [u];
  }
}
