/**
 * The diagnostics screen law-gpt-frontend/src/ConnectionTest.tsx: a health probe and a one-shot
 * streamed chat whose reply text is shown as it arrives.
 */
module ConnectionTest {
  import opened Wrappers
  import opened Text
  import opened Http
  import opened EventStream

  datatype TestState = TestState(
    backendStatus: ConnectionStatus,
    testMessage: string,
    response: string,
    isLoading: bool)

  const InitialState: TestState := TestState(Checking, "", "", false)

  /** `checkBackendConnection` */
  method CheckBackendConnection(s: TestState, probe: Probe) returns (s': TestState)
    ensures s' == s.(backendStatus := if probe.ProbeReplied? && IsOk(probe.status) then Connected else Disconnected)
  {
    s' := s.(backendStatus := StatusOf(probe));
  }

  /**
   * `testChat`. A blank test message does nothing. Otherwise loading starts and the shown response
   * is cleared (`pending`); an error before reading starts shows `Error: ` before the error's own
   * text (which for a status error already starts with `Error: `); else the shown response follows
   * the accumulated text. Either way loading stops; the test message itself is kept.
   */
  method TestChat(s: TestState, reply: StreamReply, parse: string -> Option<Event>)
    returns (pending: TestState, s': TestState)
    ensures IsBlank(s.testMessage) ==> pending == s && s' == s
    ensures !IsBlank(s.testMessage) ==> pending == s.(isLoading := true, response := "")
    ensures !IsBlank(s.testMessage) && StreamFailure(reply).Some? ==>
              s' == s.(response := "Error: " + StreamFailure(reply).value, isLoading := false)
    ensures !IsBlank(s.testMessage) && StreamFailure(reply).None? ==>
              s' == s.(response := Consume(AllLines(reply.body.value), parse).text, isLoading := false)
  {
    if IsBlank(s.testMessage) {
      return s, s;
    }
    pending := s.(isLoading := true, response := "");
    var failure := StreamFailure(reply);
    if failure.Some? {
      s' := pending.(response := "Error: " + failure.value, isLoading := false);
      return;
    }
    var text, updates, stopped := Ingest(reply.body.value, parse);
    var shown := pending.response;
    if updates != [] {
      shown := updates[|updates| - 1];
    }
    UpdatesExtend(AllLines(reply.body.value), parse);
    s' := pending.(response := shown, isLoading := false);
  }

  /** A status error is shown with the prefix twice: once from the template, once from the error. */
  lemma StatusErrorShown(status: nat)
    ensures "Error: " + HttpErrorText(status) == "Error: Error: HTTP error! status: " + Decimal(status)
  {
  }
}
