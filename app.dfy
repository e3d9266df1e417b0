/**
 * The deployed frontend src/App.tsx: a message list, the input box, the loading flag and the
 * connection indicator. Its backend answers in one JSON document rather than a stream.
 */
module DeployedApp {
  import opened Wrappers
  import opened Text
  import opened Http
  import opened Chat

  datatype AppState = AppState(
    messages: seq<Message>,
    inputValue: string,
    isLoading: bool,
    connectionStatus: ConnectionStatus)

  const GreetingText: string :=
    "\U{1F64F} Namaste! Welcome to Law GPT - your AI legal assistant for Indian law.\n\n"
    + "\U{1F4DA} I can help you with:\n\U{2022} Constitutional Law (Articles, Fundamental Rights)\n"
    + "\U{2022} Indian Penal Code (IPC Sections)\n\U{2022} Criminal Procedure Code (CrPC)\n"
    + "\U{2022} Civil Procedure Code (CPC)\n\U{2022} Contract Law, Property Law, Family Law\n"
    + "\U{2022} Legal procedures and case law\n\n"
    + "\U{1F4A1} Try asking: \"What is Section 302 IPC?\" or \"Explain Article 21 of Constitution\"\n\n"
    + "How can I assist you today?"

  function InitialState(now: int): AppState {
    AppState([Message("1", Assistant, GreetingText, now, None, None)], "", false, Checking)
  }

  /** `checkConnection` */
  method CheckConnection(s: AppState, probe: Probe) returns (s': AppState)
    ensures s' == s.(connectionStatus := if probe.ProbeReplied? && IsOk(probe.status) then ConnectionStatus.Connected else ConnectionStatus.Disconnected)
  {
    s' := s.(connectionStatus := StatusOf(probe));
  }

  /**
   * What the request settles to: `Right` text is `data.response || 'No response received'`; a
   * `Left` carries the text of the error thrown (the rejection, the status error, or the parser's).
   * The JSON's `response` field is the payload; `None` when absent.
   */
  datatype Settled = Left(error: string) | Right(text: string)

  function Settle(reply: Reply<Json<Option<string>>>): (r: Settled)
    ensures r.Right? <==> reply.Responded? && IsOk(reply.status) && reply.body.Parsed?
    ensures r.Right? ==> r.text == OrElse(reply.body.value, "No response received")
    ensures reply.Responded? && !IsOk(reply.status) ==> r == Left(HttpErrorText(reply.status))
  {
    match reply
    case NetworkFailure(e) => Left(e)
    case Responded(status, body) =>
      if !IsOk(status) then Left(HttpErrorText(status))
      else match body
        case Malformed(e) => Left(e)
        case Parsed(response) => Right(OrElse(response, "No response received"))
  }

  function AssistantMessage(text: string, now: nat): Message {
    Message(Decimal(now + 1), Assistant, text, now, None, None)
  }

  function ErrorMessage(error: string, now: nat): Message {
    Message(Decimal(now + 2), Assistant, "Sorry, I encountered an error: " + error + ". Please try again.", now, None, None)
  }

  /**
   * The `catch` block's list, as written: `[...prev.slice(0, -1), errorMessage]`, where `prev`
   * ends with the question just asked, so the question is what gets replaced.
   */
  function AfterError(messages: seq<Message>, user: Message, error: Message): (r: seq<Message>)
    ensures r == messages + [error]
  {
    var prev := messages + [user];
    assert prev[..|prev| - 1] == messages;
    prev[..|prev| - 1] + [error]
  }

  /** The list the error evidently should leave: the question kept, the error answer after it. */
  function AfterErrorKept(messages: seq<Message>, user: Message, error: Message): (r: seq<Message>)
    ensures |r| == |messages| + 2 && r[..|messages|] == messages && r[|messages|] == user && r[|messages| + 1] == error
  {
    messages + [user] + [error]
  }

  /** A concrete case: after a failed request the question asked is no longer on screen. */
  lemma ErrorLosesQuestion(now: nat)
    ensures var user := UserMessage(Decimal(now), "Explain Article 21", now);
            var error := ErrorMessage("TypeError: Failed to fetch", now);
            && user !in AfterError([], user, error)
            && user in AfterErrorKept([], user, error)
  {
    var user := UserMessage(Decimal(now), "Explain Article 21", now);
    var error := ErrorMessage("TypeError: Failed to fetch", now);
    assert user.role != error.role;
    assert AfterError([], user, error) == [error];
    assert AfterErrorKept([], user, error)[0] == user;
  }

  /**
   * `sendMessage`. A blank input or a request in flight does nothing. Otherwise the question is
   * appended, the input cleared and loading started (`pending`); then the answer is appended, or
   * on failure the last message is replaced by the error message (AfterError), which drops the
   * question just asked, so the list grows by one only. Loading stops either way.
   */
  method SendMessage(s: AppState, reply: Reply<Json<Option<string>>>, now: nat)
    returns (pending: AppState, s': AppState)
    ensures IsBlank(s.inputValue) || s.isLoading ==> pending == s && s' == s
    ensures !IsBlank(s.inputValue) && !s.isLoading ==>
              pending == s.(messages := s.messages + [UserMessage(Decimal(now), Trim(s.inputValue), now)],
                            inputValue := "", isLoading := true)
    ensures !IsBlank(s.inputValue) && !s.isLoading && Settle(reply).Right? ==>
              s' == pending.(messages := pending.messages + [AssistantMessage(Settle(reply).text, now)], isLoading := false)
              && |s'.messages| == |s.messages| + 2
    ensures !IsBlank(s.inputValue) && !s.isLoading && Settle(reply).Left? ==>
              s' == s.(messages := s.messages + [ErrorMessage(Settle(reply).error, now)], inputValue := "", isLoading := false)
              && |s'.messages| == |s.messages| + 1
  {
    if IsBlank(s.inputValue) || s.isLoading {
      return s, s;
    }
    var user := UserMessage(Decimal(now), Trim(s.inputValue), now);
    pending := s.(messages := s.messages + [user], inputValue := "", isLoading := true);
    match Settle(reply)
    case Right(text) =>
      s' := pending.(messages := pending.messages + [AssistantMessage(text, now)], isLoading := false);
    case Left(error) =>
      s' := pending.(messages := AfterError(s.messages, user, ErrorMessage(error, now)), isLoading := false);
  }

  /**
   * The handler as evidently intended: the same, except that a failure keeps the question and
   * appends the error message after it (AfterErrorKept), so every send grows the list by two.
   */
  method SendMessageKept(s: AppState, reply: Reply<Json<Option<string>>>, now: nat)
    returns (pending: AppState, s': AppState)
    ensures IsBlank(s.inputValue) || s.isLoading ==> pending == s && s' == s
    ensures !IsBlank(s.inputValue) && !s.isLoading ==>
              pending == s.(messages := s.messages + [UserMessage(Decimal(now), Trim(s.inputValue), now)],
                            inputValue := "", isLoading := true)
    ensures !IsBlank(s.inputValue) && !s.isLoading && Settle(reply).Right? ==>
              s' == pending.(messages := pending.messages + [AssistantMessage(Settle(reply).text, now)], isLoading := false)
    ensures !IsBlank(s.inputValue) && !s.isLoading && Settle(reply).Left? ==>
              s' == pending.(messages := pending.messages + [ErrorMessage(Settle(reply).error, now)], isLoading := false)
    ensures !IsBlank(s.inputValue) && !s.isLoading ==> |s'.messages| == |s.messages| + 2
  {
    pending, s' := SendMessage(s, reply, now);
    if !IsBlank(s.inputValue) && !s.isLoading && Settle(reply).Left? {
      var user := UserMessage(Decimal(now), Trim(s.inputValue), now);
      s' := pending.(messages := AfterErrorKept(s.messages, user, ErrorMessage(Settle(reply).error, now)), isLoading := false);
    }
  }
}
