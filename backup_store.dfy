/**
 * The chat-state store of the full frontend (src/App_Original_Backup.tsx): its state, the reducer
 * over the action vocabulary, the API status check and the send handler that drives the reducer.
 */
module BackupStore {
  import opened Wrappers
  import opened Text
  import opened Http
  import opened Chat
  import Seqs

  datatype ChatState = ChatState(
    messages: seq<Message>,
    isLoading: bool,
    error: Option<string>,
    apiStatus: ApiStatus,
    currentChatId: Option<string>,
    chatStartTime: Option<int>)

  const WelcomeText: string :=
    "Hello! I'm your AI legal assistant. I can help you with legal questions, document analysis, "
    + "and provide citations from relevant legal sources. How can I assist you today?"

  const WelcomeSources: seq<string> := ["Legal Knowledge Base", "Case Law Database"]

  /** The greeting every fresh conversation starts with; `now` is the clock at creation. */
  function Welcome(now: int): Message {
    Message("1", Assistant, WelcomeText, now, Some(WelcomeSources), None)
  }

  function InitialState(now: int): ChatState {
    ChatState([Welcome(now)], false, None, Connecting, None, Some(now))
  }

  /** `chatReducer`; `now` is the clock reading `CLEAR_MESSAGES` takes for its fresh greeting. */
  function Reduce(s: ChatState, a: Action, now: int): ChatState {
    match a
    case AddMessage(m) => s.(messages := s.messages + [m])
    case SetLoading(b) => s.(isLoading := b)
    case SetError(e) => s.(error := e, isLoading := false)
    case SetApiStatus(st) => s.(apiStatus := st)
    case UpdateLastMessage(p) => s.(messages := UpdateLast(s.messages, p))
    case ClearMessages => s.(messages := [Welcome(now)], currentChatId := None, chatStartTime := Some(now))
    case LoadMessages(ms) => s.(messages := ms)
    case SetChatStartTime(t) => s.(chatStartTime := t)
    case Unrecognised(_) => s
  }

  /** The state fields, so that each action can be said to own some of them. */
  datatype Field = MessagesField | LoadingField | ErrorField | StatusField | ChatIdField | StartTimeField

  /** The fields each action is designed to write; every other field must survive it. */
  function Writes(a: Action): set<Field> {
    match a
    case AddMessage(_) => {MessagesField}
    case SetLoading(_) => {LoadingField}
    case SetError(_) => {ErrorField, LoadingField}
    case SetApiStatus(_) => {StatusField}
    case UpdateLastMessage(_) => {MessagesField}
    case ClearMessages => {MessagesField, ChatIdField, StartTimeField}
    case LoadMessages(_) => {MessagesField}
    case SetChatStartTime(_) => {StartTimeField}
    case Unrecognised(_) => {}
  }

  predicate Agree(s: ChatState, t: ChatState, f: Field) {
    match f
    case MessagesField => s.messages == t.messages
    case LoadingField => s.isLoading == t.isLoading
    case ErrorField => s.error == t.error
    case StatusField => s.apiStatus == t.apiStatus
    case ChatIdField => s.currentChatId == t.currentChatId
    case StartTimeField => s.chatStartTime == t.chatStartTime
  }

  /** Every action leaves alone every field it does not own. */
  lemma ReduceFrame(s: ChatState, a: Action, now: int, f: Field)
    requires f !in Writes(a)
    ensures Agree(s, Reduce(s, a, now), f)
  {
  }

  /** `ADD_MESSAGE` makes its payload the new last message and keeps all earlier ones. */
  lemma AddAppends(s: ChatState, m: Message, now: int)
    ensures var t := Reduce(s, AddMessage(m), now);
            |t.messages| == |s.messages| + 1 && t.messages[|s.messages|] == m
            && t.messages[..|s.messages|] == s.messages
  {
  }

  /** `UPDATE_LAST_MESSAGE` keeps the length, touches only the last index, and leaves `[]` alone. */
  lemma UpdateTouchesOnlyLast(s: ChatState, p: Patch, now: int)
    ensures var t := Reduce(s, UpdateLastMessage(p), now);
            && |t.messages| == |s.messages|
            && (forall i :: 0 <= i < |s.messages| - 1 ==> t.messages[i] == s.messages[i])
            && (|s.messages| > 0 ==> t.messages[|s.messages| - 1] == Merge(s.messages[|s.messages| - 1], p))
            && (s.messages == [] ==> t.messages == [])
  {
  }

  /** `SET_ERROR` records the error and always stops the loading indicator. */
  lemma ErrorStopsLoading(s: ChatState, e: Option<string>, now: int)
    ensures var t := Reduce(s, SetError(e), now);
            t.error == e && !t.isLoading && t.messages == s.messages && t.apiStatus == s.apiStatus
  {
  }

  /**
   * Whatever the prior state, `CLEAR_MESSAGES` leaves only the greeting (id `1`, from the assistant,
   * with the two stock sources, stamped now), forgets the chat id and restarts the chat clock.
   */
  lemma ClearLeavesGreeting(s: ChatState, now: int)
    ensures var t := Reduce(s, ClearMessages, now);
            && t.messages == [Welcome(now)]
            && t.messages[0].id == "1" && t.messages[0].role == Assistant && t.messages[0].content == WelcomeText
            && t.messages[0].timestamp == now && t.messages[0].sources == Some(["Legal Knowledge Base", "Case Law Database"])
            && t.currentChatId == None && t.chatStartTime == Some(now)
            && t.isLoading == s.isLoading && t.apiStatus == s.apiStatus && t.error == s.error
  {
  }

  /** The value each single-field action writes: the action's payload, with nothing else changed. */
  lemma ReduceWrites(s: ChatState, a: Action, now: int)
    ensures var t := Reduce(s, a, now);
            && (a.SetLoading? ==> t == s.(isLoading := a.loading))
            && (a.SetApiStatus? ==> t == s.(apiStatus := a.status))
            && (a.LoadMessages? ==> t == s.(messages := a.messages))
            && (a.SetChatStartTime? ==> t == s.(chatStartTime := a.start))
            && (a.Unrecognised? ==> t == s)
  {
  }

  /** `dispatch` applied to each action in turn. */
  function ReduceAll(s: ChatState, actions: seq<Action>, now: int): ChatState
    decreases |actions|
  {
    if actions == [] then s
    else Reduce(ReduceAll(s, actions[..|actions| - 1], now), actions[|actions| - 1], now)
  }

  lemma ReduceAllSnoc(s: ChatState, actions: seq<Action>, a: Action, now: int)
    ensures ReduceAll(s, actions + [a], now) == Reduce(ReduceAll(s, actions, now), a, now)
  {
    assert (actions + [a])[..|actions|] == actions;
  }

  /** Replaying a concatenation is replaying the parts one after the other. */
  lemma {:induction false} ReduceAllAppend(s: ChatState, xs: seq<Action>, ys: seq<Action>, now: int)
    ensures ReduceAll(s, xs + ys, now) == ReduceAll(ReduceAll(s, xs, now), ys, now)
    decreases |ys|
  {
    if ys == [] {
      assert xs + ys == xs;
    } else {
      var last := ys[|ys| - 1];
      assert xs + ys == (xs + ys[..|ys| - 1]) + [last];
      ReduceAllSnoc(s, xs + ys[..|ys| - 1], last, now);
      ReduceAllAppend(s, xs, ys[..|ys| - 1], now);
    }
  }

  /** The part of the state the send handler never touches survives any replay of its actions. */
  predicate SendAction(a: Action) {
    a.AddMessage? || a.SetLoading? || a.UpdateLastMessage? || a.SetApiStatus?
  }

  lemma {:induction false} SendActionsKeepSession(s: ChatState, actions: seq<Action>, now: int)
    requires forall i :: 0 <= i < |actions| ==> SendAction(actions[i])
    ensures var t := ReduceAll(s, actions, now);
            t.error == s.error && t.currentChatId == s.currentChatId && t.chatStartTime == s.chatStartTime
            && |t.messages| == |s.messages| + |Seqs.Filter(actions, (a: Action) => a.AddMessage?)|
    decreases |actions|
  {
    if actions != [] {
      var init := actions[..|actions| - 1];
      var last := actions[|actions| - 1];
      SendActionsKeepSession(s, init, now);
      assert actions == init + [last];
      Seqs.FilterAppend(init, [last], (a: Action) => a.AddMessage?);
    }
  }

  /** `checkApiStatus`: `connecting` while the probe is out, then the probe's verdict. */
  method CheckApiStatus(s: ChatState, probe: Probe, now: int) returns (pending: ChatState, s': ChatState)
    ensures pending == s.(apiStatus := Connecting)
    ensures s' == s.(apiStatus := if probe.ProbeReplied? && IsOk(probe.status) then ApiStatus.Connected else ApiStatus.Disconnected)
  {
    pending := Reduce(s, SetApiStatus(Connecting), now);
    if probe.ProbeReplied? && IsOk(probe.status) {
      s' := Reduce(pending, SetApiStatus(ApiStatus.Connected), now);
    } else {
      s' := Reduce(pending, SetApiStatus(ApiStatus.Disconnected), now);
    }
  }

  /** The reply the send handler reaches `response.json()` with, or `None` when it throws. */
  function Answer(reply: Reply<Json<ChatPayload>>): (r: Option<ChatPayload>)
    ensures r.Some? <==> reply.Responded? && IsOk(reply.status) && reply.body.Parsed?
    ensures r.Some? ==> r.value == reply.body.value
  {
    if reply.Responded? && IsOk(reply.status) && reply.body.Parsed? then Some(reply.body.value) else None
  }

  const OfflineSource: string := "Offline Mode - General Legal Principles"

  const ApologyOpening: string :=
    "I apologize, but I'm currently unable to connect to the legal database. However, regarding your "
    + "question about \""

  const ApologyClosing: string :=
    "...\", here are some general legal principles that might be relevant:\n\n"
    + "\U{2022} Always consult with a qualified attorney for specific legal advice\n"
    + "\U{2022} Legal matters often depend on jurisdiction and specific circumstances\n"
    + "\U{2022} Documentation and evidence are crucial in legal proceedings\n\n"
    + "Please try again later when the connection is restored, or consult with a legal professional "
    + "for immediate assistance."

  /** The apology shown when the backend cannot be reached; it quotes the first 40 characters typed. */
  function Fallback(content: string): string {
    ApologyOpening + Seqs.Take(content, 40) + ApologyClosing
  }

  /** How a template literal prints the result count: its digits, or `undefined` when the field is absent. */
  function CountText(count: Option<nat>): string {
    match count
    case Some(n) => Decimal(n)
    case None => "undefined"
  }

  const WebSearchOpening: string := "\U{1F310} Web Search ("

  /** `data.sources || ['Legal Knowledge Base']`, with the web-search label put in front when reported. */
  function ReplySources(data: ChatPayload): seq<string> {
    var sources := data.sources.GetOr(["Legal Knowledge Base"]);
    if data.webSearchPerformed
    then [WebSearchOpening + CountText(data.webResultsCount) + " results)"] + sources
    else sources
  }

  /** `data.response || data.message || 'No response received'` */
  function ReplyText(data: ChatPayload): string {
    if Truthy(data.response) then data.response.value else OrElse(data.message, "No response received")
  }

  /**
   * The sources shown are the reply's own list, or the knowledge-base default when it has none,
   * behind one web-search label exactly when a search was reported; a missing count prints as
   * `undefined`. The text is the first truthy of `response` and `message`, else the fixed notice.
   */
  lemma ReplyFacts(data: ChatPayload)
    ensures var shown := if data.sources.Some? then data.sources.value else ["Legal Knowledge Base"];
            && (data.webSearchPerformed ==> |ReplySources(data)| == |shown| + 1 && ReplySources(data)[1..] == shown)
            && (!data.webSearchPerformed ==> ReplySources(data) == shown)
    ensures data.webSearchPerformed && data.webResultsCount.None? ==>
              ReplySources(data)[0] == WebSearchOpening + "undefined results)"
    ensures data.webSearchPerformed && data.webResultsCount.Some? ==>
              ReplySources(data)[0] == WebSearchOpening + Decimal(data.webResultsCount.value) + " results)"
    ensures Truthy(data.response) ==> ReplyText(data) == data.response.value
    ensures !Truthy(data.response) && Truthy(data.message) ==> ReplyText(data) == data.message.value
    ensures !Truthy(data.response) && !Truthy(data.message) ==> ReplyText(data) == "No response received"
  {
    if data.webSearchPerformed {
      var banner := WebSearchOpening + CountText(data.webResultsCount) + " results)";
      assert ReplySources(data) == [banner] + data.sources.GetOr(["Legal Knowledge Base"]);
    }
  }

  /** What the `try` block (on success) or the `catch` block (on any failure) writes into the placeholder. */
  function Outcome(reply: Reply<Json<ChatPayload>>, content: string): Patch {
    match Answer(reply)
    case Some(data) => Patch(Some(ReplyText(data)), Some(false), Some(ReplySources(data)))
    case None => Patch(Some(Fallback(content)), Some(false), Some([OfflineSource]))
  }

  /** The connection status the send handler leaves behind. */
  function OutcomeStatus(reply: Reply<Json<ChatPayload>>): ApiStatus {
    if Answer(reply).Some? then ApiStatus.Connected else ApiStatus.Disconnected
  }

  /**
   * What settles the placeholder: on an ok, parsed reply the answer text with its sources, otherwise
   * the apology quoting the question with the single offline source; either way loading stops.
   */
  lemma OutcomeShape(reply: Reply<Json<ChatPayload>>, content: string)
    ensures var p := Outcome(reply, content);
            && p.isLoading == Some(false) && p.content.Some? && p.sources.Some?
            && (reply.Responded? && IsOk(reply.status) && reply.body.Parsed? ==>
                  p.content.value == ReplyText(reply.body.value) && p.sources.value == ReplySources(reply.body.value))
            && (!(reply.Responded? && IsOk(reply.status) && reply.body.Parsed?) ==>
                  p.content.value == Fallback(content) && p.sources.value == [OfflineSource])
  {
  }

  /**
   * The `try`/`catch`/`finally` part of `sendMessage`, run once the placeholder is showing. On
   * success the placeholder is settled and then the status set to connected; on failure the status
   * is set to disconnected first and the placeholder settled after; loading stops in both cases.
   */
  method Settle(pending: ChatState, succeeded: bool, patch: Patch, now: nat)
    returns (s': ChatState, dispatched: seq<Action>)
    ensures s' == pending.(messages := UpdateLast(pending.messages, patch),
                           apiStatus := if succeeded then ApiStatus.Connected else ApiStatus.Disconnected,
                           isLoading := false)
    ensures s' == ReduceAll(pending, dispatched, now) && dispatched != [] && dispatched[|dispatched| - 1] == SetLoading(false)
  {
    var st := pending;
    var a: Action;
    dispatched := [];
    if succeeded {
      a := UpdateLastMessage(patch);
      ReduceAllSnoc(pending, dispatched, a, now);
      st, dispatched := st.(messages := UpdateLast(st.messages, patch)), dispatched + [a];
      assert ReduceAll(pending, dispatched, now) == st;
      a := SetApiStatus(ApiStatus.Connected);
      ReduceAllSnoc(pending, dispatched, a, now);
      st, dispatched := st.(apiStatus := ApiStatus.Connected), dispatched + [a];
      assert ReduceAll(pending, dispatched, now) == st;
    } else {
      a := SetApiStatus(ApiStatus.Disconnected);
      ReduceAllSnoc(pending, dispatched, a, now);
      st, dispatched := st.(apiStatus := ApiStatus.Disconnected), dispatched + [a];
      assert ReduceAll(pending, dispatched, now) == st;
      a := UpdateLastMessage(patch);
      ReduceAllSnoc(pending, dispatched, a, now);
      st, dispatched := st.(messages := UpdateLast(st.messages, patch)), dispatched + [a];
      assert ReduceAll(pending, dispatched, now) == st;
    }
    a := SetLoading(false);
    ReduceAllSnoc(pending, dispatched, a, now);
    st, dispatched := st.(isLoading := false), dispatched + [a];
    assert ReduceAll(pending, dispatched, now) == st;
    s' := st;
  }

  /**
   * The synchronous start of `sendMessage` for an accepted input: the trimmed text as the user's
   * message, the loading flag, then an empty assistant placeholder one millisecond-id later.
   */
  method Submit(s: ChatState, content: string, now: nat) returns (pending: ChatState, dispatched: seq<Action>)
    ensures pending == s.(messages := s.messages + [UserMessage(Decimal(now), Trim(content), now)] + [Placeholder(Decimal(now + 1), now)],
                          isLoading := true)
    ensures pending == ReduceAll(s, dispatched, now)
  {
    var user := UserMessage(Decimal(now), Trim(content), now);
    var loading := Placeholder(Decimal(now + 1), now);
    var st := s;
    var a: Action;
    dispatched := [];
    a := AddMessage(user);
    ReduceAllSnoc(s, dispatched, a, now);
    st, dispatched := st.(messages := st.messages + [user]), dispatched + [a];
    assert ReduceAll(s, dispatched, now) == st;
    a := SetLoading(true);
    ReduceAllSnoc(s, dispatched, a, now);
    st, dispatched := st.(isLoading := true), dispatched + [a];
    assert ReduceAll(s, dispatched, now) == st;
    a := AddMessage(loading);
    ReduceAllSnoc(s, dispatched, a, now);
    st, dispatched := st.(messages := st.messages + [loading]), dispatched + [a];
    assert ReduceAll(s, dispatched, now) == st;
    pending := st;
  }

  /**
   * `sendMessage`: a blank input does nothing; otherwise the input box is cleared, the request is
   * submitted and then settled. `pending` is the state while the request is in flight, `dispatched`
   * the actions in the order they reach the reducer.
   */
  method SendMessage(s: ChatState, input: string, content: string, reply: Reply<Json<ChatPayload>>, now: nat)
    returns (pending: ChatState, s': ChatState, input': string, dispatched: seq<Action>)
    ensures IsBlank(content) ==> pending == s && s' == s && input' == input && dispatched == []
    ensures !IsBlank(content) ==> input' == ""
    ensures !IsBlank(content) ==>
      pending == s.(messages := s.messages + [UserMessage(Decimal(now), Trim(content), now)] + [Placeholder(Decimal(now + 1), now)],
                    isLoading := true)
    ensures !IsBlank(content) ==>
      s' == s.(messages := s.messages + [UserMessage(Decimal(now), Trim(content), now)]
                                      + [Merge(Placeholder(Decimal(now + 1), now), Outcome(reply, content))],
               apiStatus := OutcomeStatus(reply), isLoading := false)
    ensures !IsBlank(content) ==> s' == ReduceAll(s, dispatched, now) && dispatched[|dispatched| - 1] == SetLoading(false)
  {
    if IsBlank(content) {
      return s, s, input, [];
    }
    input' := "";
    var first, rest;
    pending, first := Submit(s, content, now);
    s', rest := Settle(pending, Answer(reply).Some?, Outcome(reply, content), now);
    UpdateLastSnoc(s.messages + [UserMessage(Decimal(now), Trim(content), now)], Placeholder(Decimal(now + 1), now), Outcome(reply, content));
    ReduceAllAppend(s, first, rest, now);
    dispatched := first + rest;
  }
}
