/**
 * The streaming frontend law-gpt-frontend/src/App_Simple.tsx: a message list, the input box, the
 * loading flag and the connection indicator, updated by the send handler as the stream is read.
 */
module SimpleApp {
  import opened Wrappers
  import opened Text
  import opened Http
  import opened Chat
  import opened EventStream

  datatype SimpleState = SimpleState(
    messages: seq<Message>,
    inputValue: string,
    isLoading: bool,
    connectionStatus: ConnectionStatus)

  const GreetingText: string := "Hello! I'm your AI legal assistant. How can I help you with Indian law today?"

  /** The state on mount; `now` is the clock then. This screen's messages carry no sources or spinner flag. */
  function InitialState(now: int): SimpleState {
    SimpleState([Message("1", Assistant, GreetingText, now, None, None)], "", false, Checking)
  }

  /** `checkConnection` */
  method CheckConnection(s: SimpleState, probe: Probe) returns (s': SimpleState)
    ensures s' == s.(connectionStatus := if probe.ProbeReplied? && IsOk(probe.status) then ConnectionStatus.Connected else ConnectionStatus.Disconnected)
  {
    s' := s.(connectionStatus := StatusOf(probe));
  }

  /** The message the `catch` block shows, with the thrown error's text and an id two past the clock. */
  function ErrorMessage(error: string, now: nat): Message {
    Message(Decimal(now + 2), Assistant, "Sorry, I encountered an error: " + error + ". Please try again.", now, None, None)
  }

  /** `[...prev.slice(0, -1), m]`: the last message, if there is one, is replaced by `m`. */
  function ReplaceLast(ms: seq<Message>, m: Message): (r: seq<Message>)
    ensures |ms| > 0 ==> |r| == |ms| && r[..|ms| - 1] == ms[..|ms| - 1] && r[|ms| - 1] == m
    ensures ms == [] ==> r == [m]
  {
    if ms == [] then [m] else ms[..|ms| - 1] + [m]
  }

  /**
   * The list after a request that fails before reading starts, as written: the user's message has
   * just been appended and is the last one, so it is the one replaced, and the question vanishes.
   */
  function AfterEarlyError(messages: seq<Message>, user: Message, error: Message): (r: seq<Message>)
    ensures r == messages + [error]
  {
    assert (messages + [user])[..|messages|] == messages;
    ReplaceLast(messages + [user], error)
  }

  /** The list the early error evidently should leave: the question kept, the error after it. */
  function AfterEarlyErrorKept(messages: seq<Message>, user: Message, error: Message): (r: seq<Message>)
    ensures |r| == |messages| + 2 && r[..|messages|] == messages && r[|messages|] == user && r[|messages| + 1] == error
  {
    messages + [user] + [error]
  }

  /** A concrete case: the question sent is nowhere in the list the failed request leaves behind. */
  lemma EarlyErrorLosesQuestion(now: nat)
    ensures var user := UserMessage(Decimal(now), "What is bail?", now);
            var error := ErrorMessage(HttpErrorText(500), now);
            && user !in AfterEarlyError([], user, error)
            && user in AfterEarlyErrorKept([], user, error)
  {
    var user := UserMessage(Decimal(now), "What is bail?", now);
    var error := ErrorMessage(HttpErrorText(500), now);
    assert user.role != error.role;
    assert AfterEarlyError([], user, error) == [error];
    assert AfterEarlyErrorKept([], user, error)[0] == user;
  }

  /** The empty assistant message added once the body's reader is available. */
  function StreamingMessage(now: nat): Message {
    Message(Decimal(now + 1), Assistant, "", now, None, None)
  }

  /**
   * `sendMessage`. A blank input or a request already in flight does nothing. Otherwise the user's
   * trimmed message is added and the input cleared (`pending`); an error before reading starts
   * replaces the last message, which is the question itself, by the error message
   * (AfterEarlyError), so the list grows by one only; else an empty assistant message is added and
   * rewritten with the accumulated text at every fragment. Either way loading stops.
   */
  method SendMessage(s: SimpleState, reply: StreamReply, parse: string -> Option<Event>, now: nat)
    returns (pending: SimpleState, s': SimpleState)
    ensures IsBlank(s.inputValue) || s.isLoading ==> pending == s && s' == s
    ensures !IsBlank(s.inputValue) && !s.isLoading ==>
              pending == s.(messages := s.messages + [UserMessage(Decimal(now), Trim(s.inputValue), now)],
                            inputValue := "", isLoading := true)
    ensures !IsBlank(s.inputValue) && !s.isLoading && StreamFailure(reply).Some? ==>
              s' == s.(messages := s.messages + [ErrorMessage(StreamFailure(reply).value, now)], inputValue := "", isLoading := false)
              && |s'.messages| == |s.messages| + 1
    ensures !IsBlank(s.inputValue) && !s.isLoading && StreamFailure(reply).None? ==>
              s' == pending.(messages := pending.messages
                                         + [StreamingMessage(now).(content := Consume(AllLines(reply.body.value), parse).text)],
                             isLoading := false)
  {
    if IsBlank(s.inputValue) || s.isLoading {
      return s, s;
    }
    var user := UserMessage(Decimal(now), Trim(s.inputValue), now);
    pending := s.(messages := s.messages + [user], inputValue := "", isLoading := true);
    var failure := StreamFailure(reply);
    if failure.Some? {
      s' := pending.(messages := AfterEarlyError(s.messages, user, ErrorMessage(failure.value, now)), isLoading := false);
      return;
    }
    var messages := pending.messages + [StreamingMessage(now)];
    var text, updates, stopped := Ingest(reply.body.value, parse);
    // Every update rewrites the same last message, so the last one pushed is the one that remains.
    if updates != [] {
      messages := UpdateLast(messages, Patch(Some(updates[|updates| - 1]), None, None));
    }
    UpdatesExtend(AllLines(reply.body.value), parse);
    s' := pending.(messages := messages, isLoading := false);
  }

  /**
   * The handler as evidently intended: the same, except that an early error keeps the question and
   * appends the error message after it (AfterEarlyErrorKept).
   */
  method SendMessageKept(s: SimpleState, reply: StreamReply, parse: string -> Option<Event>, now: nat)
    returns (pending: SimpleState, s': SimpleState)
    ensures IsBlank(s.inputValue) || s.isLoading ==> pending == s && s' == s
    ensures !IsBlank(s.inputValue) && !s.isLoading ==>
              pending == s.(messages := s.messages + [UserMessage(Decimal(now), Trim(s.inputValue), now)],
                            inputValue := "", isLoading := true)
    ensures !IsBlank(s.inputValue) && !s.isLoading && StreamFailure(reply).Some? ==>
              s' == pending.(messages := pending.messages + [ErrorMessage(StreamFailure(reply).value, now)], isLoading := false)
              && |s'.messages| == |s.messages| + 2
    ensures !IsBlank(s.inputValue) && !s.isLoading && StreamFailure(reply).None? ==>
              s' == pending.(messages := pending.messages
                                         + [StreamingMessage(now).(content := Consume(AllLines(reply.body.value), parse).text)],
                             isLoading := false)
  {
    pending, s' := SendMessage(s, reply, parse, now);
    if !IsBlank(s.inputValue) && !s.isLoading && StreamFailure(reply).Some? {
      var user := UserMessage(Decimal(now), Trim(s.inputValue), now);
      s' := pending.(messages := AfterEarlyErrorKept(s.messages, user, ErrorMessage(StreamFailure(reply).value, now)), isLoading := false);
    }
  }
}
