/**
 * components/timeline/TimelineChatSidebar.tsx: the client's chat beside a
 * shared timeline. The component's state is a class; each handler is given
 * the outcome of its request and the clock readings it takes (`Date.now()` in
 * milliseconds, with the matching ISO timestamp), and returns the request it
 * made. Scrolling and rendering are not modelled.
 */
module ChatSidebar {
  import opened Js
  import opened Seqs
  import UseToast
  import ProposalComparison
  import opened Url
  import Sanitize

  type Proposal = ProposalComparison.Proposal

  datatype Role = User | Assistant | System

  datatype Message = Message(id: string, role: Role, content: string, createdAt: string)

  // ---------------------------------------------------------------------------
  // The email check of `handleEmailSubmit`: the same regular expression as
  // `isValidEmail` in lib/sanitize.ts, so `Sanitize.IsValidEmail` decides it.

  /** The `clientEmail &&` guard adds nothing: the empty string never matches. */
  lemma EmptyEmailRejected()
    ensures !Sanitize.IsValidEmail("")
  {
  }

  // ---------------------------------------------------------------------------
  // Pure pieces of `sendMessage`

  /** The body of the POST: the message, and the email only once it was submitted. */
  datatype ChatRequest = ChatRequest(message: string, clientEmail: Option<string>)

  /** What the chat endpoint answered. */
  datatype ChatResponse =
    | Replied(message: string, proposal: Option<Proposal>, sessionId: Option<string>)
    | Refused(error: Option<string>)
    | Thrown(reason: string)

  function TempId(now: nat): string {
    "temp-" + NatToString(now)
  }

  function AssistantId(now: nat): string {
    "assistant-" + NatToString(now)
  }

  /** The test the failure path's `filter` applies. */
  function OtherId(id: string): Message -> bool {
    (m: Message) => m.id != id
  }

  /** `data.sessionId && !sessionId`: a received id is taken only when none is held. */
  function NextSessionId(held: Option<string>, received: Option<string>): (r: Option<string>)
    ensures r == held || r == received
  {
    if IsSet(received) && !IsSet(held) then received else held
  }

  /** A held session id is never overwritten; an unset one is replaced only by a set one. */
  lemma SessionIdKept(held: Option<string>, received: Option<string>)
    ensures IsSet(held) ==> NextSessionId(held, received) == held
    ensures !IsSet(held) ==> NextSessionId(held, received) == (if IsSet(received) then received else held)
    ensures IsSet(held) || IsSet(received) ==> IsSet(NextSessionId(held, received))
  {
  }

  /** The error toast's text: the endpoint's `error`, else the thrown error's message. */
  function FailureText(response: ChatResponse): string
    requires !response.Replied?
  {
    match response
    case Refused(error) => if IsSet(error) then error.value else "Failed to send message"
    case Thrown(reason) => reason
  }

  /**
   * The failure path removes messages whose id is `temp-` and the time of the
   * failure, not the time of sending: the optimistic message survives whenever
   * the clock moved between the two readings, and only goes when it did not.
   */
  lemma {:induction false} FailureKeepsOptimisticMessage(prior: seq<Message>, m: Message, sentAt: nat, failedAt: nat)
    requires m.id == TempId(sentAt)
    ensures m in Filter(prior + [m], OtherId(TempId(failedAt))) <==> sentAt != failedAt
  {
    if sentAt != failedAt && TempId(sentAt) == TempId(failedAt) {
      assert NatToString(sentAt) == TempId(sentAt)[5..];
      assert NatToString(failedAt) == TempId(failedAt)[5..];
      NatToStringInjective(sentAt, failedAt);
    }
  }

  /** Loading's view of the history body. */
  datatype History = History(
    messages: Option<seq<Message>>,
    proposals: Option<seq<Proposal>>,
    sessionId: Option<string>,
    sessionEmail: Option<string>)

  class ChatSidebarState {
    var messages: seq<Message>
    var proposals: seq<Proposal>
    var input: string
    var clientEmail: string
    var emailSubmitted: bool
    var isLoading: bool
    var sessionId: Option<string>
    /** Every toast raised, in order. */
    var toasts: seq<UseToast.ToastProps>
    /** Every call of `onEmailUpdate`, in order. */
    var emailUpdates: seq<string>

    constructor()
      ensures messages == [] && proposals == [] && input == "" && clientEmail == ""
      ensures !emailSubmitted && !isLoading && sessionId.None?
      ensures toasts == [] && emailUpdates == []
    {
      messages := [];
      proposals := [];
      input := "";
      clientEmail := "";
      emailSubmitted := false;
      isLoading := false;
      sessionId := None;
      toasts := [];
      emailUpdates := [];
    }

    /**
     * `loadChatHistory`: an ok response replaces the messages and proposals
     * (missing lists become empty) and the session id; an email on the session
     * is adopted, marked submitted and reported. Anything else changes nothing.
     */
    method LoadChatHistory(response: Option<History>)
      modifies this
      ensures response.None? ==> unchanged(this)
      ensures response.Some? ==>
        && messages == OrEmpty(response.value.messages)
        && proposals == OrEmpty(response.value.proposals)
        && sessionId == response.value.sessionId
        && (IsSet(response.value.sessionEmail) ==>
              clientEmail == response.value.sessionEmail.value && emailSubmitted
              && emailUpdates == old(emailUpdates) + [clientEmail])
        && (!IsSet(response.value.sessionEmail) ==>
              clientEmail == old(clientEmail) && emailSubmitted == old(emailSubmitted)
              && emailUpdates == old(emailUpdates))
      ensures input == old(input) && isLoading == old(isLoading) && toasts == old(toasts)
    {
      if response.None? {
        return;
      }
      var data := response.value;
      messages := OrEmpty(data.messages);
      proposals := OrEmpty(data.proposals);
      sessionId := data.sessionId;
      if IsSet(data.sessionEmail) {
        clientEmail := data.sessionEmail.value;
        emailSubmitted := true;
        emailUpdates := emailUpdates + [clientEmail];
      }
    }

    /**
     * `handleEmailSubmit`: a valid email is marked submitted and reported; any
     * other value raises the "Invalid email" toast and changes nothing else.
     */
    method SubmitEmail()
      modifies this
      ensures Sanitize.IsValidEmail(old(clientEmail)) ==>
        emailSubmitted && emailUpdates == old(emailUpdates) + [old(clientEmail)] && toasts == old(toasts)
      ensures !Sanitize.IsValidEmail(old(clientEmail)) ==>
        && emailSubmitted == old(emailSubmitted) && emailUpdates == old(emailUpdates)
        && toasts == old(toasts) + [UseToast.ToastProps(Some("Invalid email"), Some("Please enter a valid email address."),
                                                        Some(UseToast.Destructive))]
      ensures clientEmail == old(clientEmail) && messages == old(messages) && proposals == old(proposals)
      ensures input == old(input) && isLoading == old(isLoading) && sessionId == old(sessionId)
    {
      if clientEmail != "" && Sanitize.IsValidEmail(clientEmail) {
        emailSubmitted := true;
        emailUpdates := emailUpdates + [clientEmail];
      } else {
        toasts := toasts + [UseToast.ToastProps(Some("Invalid email"), Some("Please enter a valid email address."),
                                                Some(UseToast.Destructive))];
      }
    }

    /**
     * `sendMessage`. Input that trims to nothing sends nothing and changes
     * nothing. Otherwise the trimmed text is appended as a `user` message with
     * a `temp-` id and sent, with the email only once submitted, and the input
     * is cleared. A reply appends exactly one `assistant` message, appends the
     * proposal (with a toast) only when there is one, and takes the session id
     * only when none is held. A failure raises the error toast and filters
     * out messages with a `temp-` id taken at the time of the failure.
     */
    method SendMessage(response: ChatResponse, sentAt: nat, sentIso: string, repliedAt: nat, repliedIso: string,
                       failedAt: nat)
      returns (request: Option<ChatRequest>)
      modifies this
      ensures Trim(old(input)) == "" ==> request.None? && unchanged(this)
      ensures Trim(old(input)) != "" ==>
        var userMessage := Message(TempId(sentAt), User, Trim(old(input)), sentIso);
        && request == Some(ChatRequest(Trim(old(input)), if old(emailSubmitted) then Some(old(clientEmail)) else None))
        && input == "" && !isLoading
        && (response.Replied? ==>
              && messages == old(messages) + [userMessage, Message(AssistantId(repliedAt), Assistant, response.message, repliedIso)]
              && proposals == old(proposals) + (if response.proposal.Some? then [response.proposal.value] else [])
              && toasts == old(toasts) + (if response.proposal.Some?
                                           then [UseToast.ToastProps(Some("New proposal generated"), Some(response.proposal.value.summary), None)]
                                           else [])
              && sessionId == NextSessionId(old(sessionId), response.sessionId))
        && (!response.Replied? ==>
              && messages == Filter(old(messages) + [userMessage], OtherId(TempId(failedAt)))
              && proposals == old(proposals) && sessionId == old(sessionId)
              && toasts == old(toasts) + [UseToast.ToastProps(Some("Error"), Some(FailureText(response)), Some(UseToast.Destructive))])
      ensures clientEmail == old(clientEmail) && emailSubmitted == old(emailSubmitted) && emailUpdates == old(emailUpdates)
    {
      var userMessage := Trim(input);
      if userMessage == "" {
        return None;
      }
      input := "";
      isLoading := true;
      messages := messages + [Message(TempId(sentAt), User, userMessage, sentIso)];
      request := Some(ChatRequest(userMessage, if emailSubmitted then Some(clientEmail) else None));
      if response.Replied? {
        TakeReply(response, repliedAt, repliedIso);
      } else {
        TakeFailure(response, failedAt);
      }
      isLoading := false;
    }

    /** The `try` block after an ok response: one assistant message, the proposal if any, the session id if none is held. */
    method TakeReply(response: ChatResponse, repliedAt: nat, repliedIso: string)
      requires response.Replied?
      modifies this
      ensures messages == old(messages) + [Message(AssistantId(repliedAt), Assistant, response.message, repliedIso)]
      ensures proposals == old(proposals) + (if response.proposal.Some? then [response.proposal.value] else [])
      ensures toasts == old(toasts) + (if response.proposal.Some?
                                       then [UseToast.ToastProps(Some("New proposal generated"), Some(response.proposal.value.summary), None)]
                                       else [])
      ensures sessionId == NextSessionId(old(sessionId), response.sessionId)
      ensures input == old(input) && isLoading == old(isLoading)
      ensures clientEmail == old(clientEmail) && emailSubmitted == old(emailSubmitted) && emailUpdates == old(emailUpdates)
    {
      messages := messages + [Message(AssistantId(repliedAt), Assistant, response.message, repliedIso)];
      if response.proposal.Some? {
        proposals := proposals + [response.proposal.value];
        toasts := toasts + [UseToast.ToastProps(Some("New proposal generated"), Some(response.proposal.value.summary), None)];
      }
      if IsSet(response.sessionId) && !IsSet(sessionId) {
        sessionId := response.sessionId;
      }
    }

    /** The `catch` block: the error toast, then the filter on a `temp-` id taken now. */
    method TakeFailure(response: ChatResponse, failedAt: nat)
      requires !response.Replied?
      modifies this
      ensures messages == Filter(old(messages), OtherId(TempId(failedAt)))
      ensures toasts == old(toasts) + [UseToast.ToastProps(Some("Error"), Some(FailureText(response)), Some(UseToast.Destructive))]
      ensures proposals == old(proposals) && sessionId == old(sessionId)
      ensures input == old(input) && isLoading == old(isLoading)
      ensures clientEmail == old(clientEmail) && emailSubmitted == old(emailSubmitted) && emailUpdates == old(emailUpdates)
    {
      toasts := toasts + [UseToast.ToastProps(Some("Error"), Some(FailureText(response)), Some(UseToast.Destructive))];
      messages := Filter(messages, OtherId(TempId(failedAt)));
    }
  }

  /**
   * Two replies in a row: each send adds its user message and one assistant
   * message, and the session id of the first reply is the one kept.
   */
  method TwoReplies(chat: ChatSidebarState, first: string, second: string, sessionA: string, sessionB: string, t: nat)
    requires Trim(first) != "" && Trim(second) != "" && sessionA != "" && chat.sessionId.None?
    modifies chat
    ensures |chat.messages| == |old(chat.messages)| + 4
    ensures chat.sessionId == Some(sessionA)
  {
    chat.input := first;
    var _ := chat.SendMessage(Replied("a", None, Some(sessionA)), t, "", t, "", t);
    chat.input := second;
    var _ := chat.SendMessage(Replied("b", None, Some(sessionB)), t + 1, "", t + 1, "", t + 1);
  }
}
