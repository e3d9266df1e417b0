/**
 * The chat screen of the redesigned frontend (law-gpt-frontend/src/LegalChatbot.tsx): a smaller
 * store than the full frontend's, the request helper, the send handler and the saved-chat sidebar.
 */
module Chatbot {
  import opened Wrappers
  import opened Text
  import opened Http
  import opened Chat
  import Seqs

  /** This store has no chat id and no start time. */
  datatype ChatbotState = ChatbotState(
    messages: seq<Message>,
    isLoading: bool,
    error: Option<string>,
    apiStatus: ApiStatus)

  const GreetingText: string :=
    "\U{2696}\U{FE0F} Welcome to **Law GPT** - Your Advanced AI Legal Assistant!\n\n"
    + "I'm here to help you navigate the complex world of Indian law with:\n\n"
    + "\U{1F50D} **Legal Research & Analysis**\n\U{1F4DA} **Case Law References** \n"
    + "\U{1F4CB} **Document Review**\n\U{2696}\U{FE0F} **Legal Procedure Guidance**\n"
    + "\U{1F3DB}\U{FE0F} **Constitutional Matters**\n\n"
    + "How can I assist you with your legal inquiry today?"

  const GreetingSources: seq<string> := ["Legal Knowledge Base", "Indian Case Law Database", "Legal Statutes"]

  /**
   * `initialState.messages[0]`. The object is built once, when the module loads, so its timestamp
   * is that moment, `loadedAt`, and every clear brings back the very same message.
   */
  function Greeting(loadedAt: int): Message {
    Message("1", Assistant, GreetingText, loadedAt, Some(GreetingSources), None)
  }

  function InitialState(loadedAt: int): ChatbotState {
    ChatbotState([Greeting(loadedAt)], false, None, ApiStatus.Connected)
  }

  /** `chatReducer`; it has no case for `SET_CHAT_START_TIME`, which falls to the default. */
  function Reduce(s: ChatbotState, a: Action, loadedAt: int): ChatbotState {
    match a
    case AddMessage(m) => s.(messages := s.messages + [m])
    case SetLoading(b) => s.(isLoading := b)
    case SetError(e) => s.(error := e, isLoading := false)
    case SetApiStatus(st) => s.(apiStatus := st)
    case UpdateLastMessage(p) => s.(messages := UpdateLast(s.messages, p))
    case ClearMessages => s.(messages := [Greeting(loadedAt)])
    case LoadMessages(ms) => s.(messages := ms)
    case SetChatStartTime(_) => s
    case Unrecognised(_) => s
  }

  /** `CLEAR_MESSAGES` leaves exactly the initial greeting, whatever came before, and nothing else changes. */
  lemma ClearRestoresGreeting(s: ChatbotState, loadedAt: int)
    ensures var t := Reduce(s, ClearMessages, loadedAt);
            t.messages == InitialState(loadedAt).messages
            && t.(messages := s.messages) == s
  {
  }

  /** Only the message list is written by the message actions, only one flag by each flag action. */
  lemma ReduceFrame(s: ChatbotState, a: Action, loadedAt: int)
    ensures var t := Reduce(s, a, loadedAt);
            && (a.AddMessage? || a.UpdateLastMessage? || a.ClearMessages? || a.LoadMessages? ==> t.(messages := s.messages) == s)
            && (a.SetLoading? ==> t == s.(isLoading := a.loading))
            && (a.SetError? ==> t == s.(error := a.error, isLoading := false))
            && (a.SetApiStatus? ==> t == s.(apiStatus := a.status))
            && (a.SetChatStartTime? || a.Unrecognised? ==> t == s)
  {
  }

  /** `UPDATE_LAST_MESSAGE` keeps the length and touches only the last index. */
  lemma UpdateTouchesOnlyLast(s: ChatbotState, p: Patch, loadedAt: int)
    ensures var t := Reduce(s, UpdateLastMessage(p), loadedAt);
            && |t.messages| == |s.messages|
            && (forall i :: 0 <= i < |s.messages| - 1 ==> t.messages[i] == s.messages[i])
            && (|s.messages| > 0 ==> t.messages[|s.messages| - 1] == Merge(s.messages[|s.messages| - 1], p))
  {
  }

  function ReduceAll(s: ChatbotState, actions: seq<Action>, loadedAt: int): ChatbotState
    decreases |actions|
  {
    if actions == [] then s
    else Reduce(ReduceAll(s, actions[..|actions| - 1], loadedAt), actions[|actions| - 1], loadedAt)
  }

  lemma ReduceAllSnoc(s: ChatbotState, actions: seq<Action>, a: Action, loadedAt: int)
    ensures ReduceAll(s, actions + [a], loadedAt) == Reduce(ReduceAll(s, actions, loadedAt), a, loadedAt)
  {
    assert (actions + [a])[..|actions|] == actions;
  }

  lemma {:induction false} ReduceAllAppend(s: ChatbotState, xs: seq<Action>, ys: seq<Action>, loadedAt: int)
    ensures ReduceAll(s, xs + ys, loadedAt) == ReduceAll(ReduceAll(s, xs, loadedAt), ys, loadedAt)
    decreases |ys|
  {
    if ys == [] {
      assert xs + ys == xs;
    } else {
      var last := ys[|ys| - 1];
      assert xs + ys == (xs + ys[..|ys| - 1]) + [last];
      ReduceAllSnoc(s, xs + ys[..|ys| - 1], last, loadedAt);
      ReduceAllAppend(s, xs, ys[..|ys| - 1], loadedAt);
    }
  }

  /**
   * `getKanoonResponse`: the `response` field of the reply's JSON, or `None` where the helper throws,
   * that is on a failed request, on any status outside 200-299, or on a body that will not parse.
   */
  function KanoonResponse(reply: Reply<Json<string>>): (r: Option<string>)
    ensures r.Some? <==> reply.Responded? && IsOk(reply.status) && reply.body.Parsed?
    ensures r.Some? ==> r.value == reply.body.value
  {
    if reply.Responded? && IsOk(reply.status) && reply.body.Parsed? then Some(reply.body.value) else None
  }

  const AnswerSources: seq<string> :=
    ["Indian Legal Database", "Supreme Court Cases", "Legal Statutes", "Law Commission Reports"]

  const OfflineSource: string := "Offline Mode - General Legal Principles"

  const ApologyOpening: string :=
    "\U{26A0}\U{FE0F} **Connection Issue**\n\nI apologize, but I'm currently unable to access the legal "
    + "database. However, regarding your question about \""

  const ApologyClosing: string :=
    "...\":\n\n\U{2022} **Always consult** with a qualified attorney for specific legal advice\n"
    + "\U{2022} **Legal matters** often depend on jurisdiction and specific circumstances  \n"
    + "\U{2022} **Documentation** and evidence are crucial in legal proceedings\n\n"
    + "Please try again when connection is restored, or consult with a legal professional for "
    + "immediate assistance."

  /** The offline answer: it quotes the first 50 characters of the question as typed. */
  function Fallback(content: string): string {
    ApologyOpening + Seqs.Take(content, 50) + ApologyClosing
  }

  /** What the `try` block (on success) or the `catch` block writes into the placeholder. */
  function Outcome(reply: Reply<Json<string>>, content: string): Patch {
    match KanoonResponse(reply)
    case Some(text) => Patch(Some(text), Some(false), Some(AnswerSources))
    case None => Patch(Some(Fallback(content)), Some(false), Some([OfflineSource]))
  }

  /** Success writes the answer with the four fixed sources, failure the offline answer; loading ends. */
  lemma OutcomeShape(reply: Reply<Json<string>>, content: string)
    ensures var p := Outcome(reply, content);
            && p.isLoading == Some(false)
            && (reply.Responded? && IsOk(reply.status) && reply.body.Parsed? ==>
                  p.content == Some(reply.body.value) && p.sources == Some(AnswerSources))
            && (!(reply.Responded? && IsOk(reply.status) && reply.body.Parsed?) ==>
                  p.content == Some(Fallback(content)) && p.sources == Some([OfflineSource]))
  {
  }

  /** The synchronous start of `sendMessage`: the user's trimmed message, loading on, the placeholder. */
  method Submit(s: ChatbotState, content: string, now: nat, loadedAt: int)
    returns (pending: ChatbotState, dispatched: seq<Action>)
    ensures pending == s.(messages := s.messages + [UserMessage(Decimal(now), Trim(content), now)] + [Placeholder(Decimal(now + 1), now)],
                          isLoading := true)
    ensures pending == ReduceAll(s, dispatched, loadedAt)
  {
    var user := UserMessage(Decimal(now), Trim(content), now);
    var loading := Placeholder(Decimal(now + 1), now);
    var st := s;
    var a: Action;
    dispatched := [];
    a := AddMessage(user);
    ReduceAllSnoc(s, dispatched, a, loadedAt);
    st, dispatched := st.(messages := st.messages + [user]), dispatched + [a];
    assert ReduceAll(s, dispatched, loadedAt) == st;
    a := SetLoading(true);
    ReduceAllSnoc(s, dispatched, a, loadedAt);
    st, dispatched := st.(isLoading := true), dispatched + [a];
    assert ReduceAll(s, dispatched, loadedAt) == st;
    a := AddMessage(loading);
    ReduceAllSnoc(s, dispatched, a, loadedAt);
    st, dispatched := st.(messages := st.messages + [loading]), dispatched + [a];
    assert ReduceAll(s, dispatched, loadedAt) == st;
    pending := st;
  }

  /** The `try`/`catch`/`finally` part: the placeholder is settled, then loading stops. */
  method Settle(pending: ChatbotState, patch: Patch, loadedAt: int)
    returns (s': ChatbotState, dispatched: seq<Action>)
    ensures s' == pending.(messages := UpdateLast(pending.messages, patch), isLoading := false)
    ensures s' == ReduceAll(pending, dispatched, loadedAt) && dispatched == [UpdateLastMessage(patch), SetLoading(false)]
  {
    var st := pending;
    var a: Action;
    dispatched := [];
    a := UpdateLastMessage(patch);
    ReduceAllSnoc(pending, dispatched, a, loadedAt);
    st, dispatched := st.(messages := UpdateLast(st.messages, patch)), dispatched + [a];
    assert ReduceAll(pending, dispatched, loadedAt) == st;
    a := SetLoading(false);
    ReduceAllSnoc(pending, dispatched, a, loadedAt);
    st, dispatched := st.(isLoading := false), dispatched + [a];
    assert ReduceAll(pending, dispatched, loadedAt) == st;
    s' := st;
  }

  /**
   * `sendMessage`: a blank input does nothing; otherwise the input box is cleared, two messages are
   * appended and the second is settled with the outcome. The connection status is never touched.
   */
  method SendMessage(s: ChatbotState, input: string, content: string, reply: Reply<Json<string>>, now: nat, loadedAt: int)
    returns (pending: ChatbotState, s': ChatbotState, input': string, dispatched: seq<Action>)
    ensures IsBlank(content) ==> pending == s && s' == s && input' == input && dispatched == []
    ensures !IsBlank(content) ==> input' == ""
    ensures !IsBlank(content) ==>
      pending == s.(messages := s.messages + [UserMessage(Decimal(now), Trim(content), now)] + [Placeholder(Decimal(now + 1), now)],
                    isLoading := true)
    ensures !IsBlank(content) ==>
      s' == s.(messages := s.messages + [UserMessage(Decimal(now), Trim(content), now)]
                                      + [Merge(Placeholder(Decimal(now + 1), now), Outcome(reply, content))],
               isLoading := false)
    ensures !IsBlank(content) ==> s' == ReduceAll(s, dispatched, loadedAt) && dispatched[|dispatched| - 1] == SetLoading(false)
  {
    if IsBlank(content) {
      return s, s, input, [];
    }
    input' := "";
    var first, rest;
    pending, first := Submit(s, content, now, loadedAt);
    s', rest := Settle(pending, Outcome(reply, content), loadedAt);
    UpdateLastSnoc(s.messages + [UserMessage(Decimal(now), Trim(content), now)], Placeholder(Decimal(now + 1), now), Outcome(reply, content));
    ReduceAllAppend(s, first, rest, loadedAt);
    dispatched := first + rest;
  }

  /** A sidebar entry of this screen; the timestamp is an integer clock reading. */
  datatype SavedChat = SavedChat(
    id: string,
    name: string,
    messages: seq<Message>,
    timestamp: int,
    category: string,
    duration: int,
    messageCount: nat,
    isStarred: bool,
    preview: Option<(string, string)>)

  /** `loadChat`: a saved chat replaces the messages only when it has any. */
  function LoadChat(s: ChatbotState, chat: SavedChat, loadedAt: int): (r: ChatbotState)
    ensures chat.messages != [] ==> r == s.(messages := chat.messages)
    ensures chat.messages == [] ==> r == s
  {
    if |chat.messages| > 0 then Reduce(s, LoadMessages(chat.messages), loadedAt) else s
  }

  /** `deleteChat`: `prev.filter(chat => chat.id !== chatId)` */
  function DeleteChat(chats: seq<SavedChat>, id: string): seq<SavedChat> {
    Seqs.Filter(chats, (c: SavedChat) => c.id != id)
  }

  /** Deleting removes every entry with the id, keeps every other one, and keeps their order. */
  lemma DeleteFacts(chats: seq<SavedChat>, id: string, more: seq<SavedChat>)
    ensures forall i :: 0 <= i < |DeleteChat(chats, id)| ==> DeleteChat(chats, id)[i].id != id
    ensures forall i :: 0 <= i < |chats| && chats[i].id != id ==> chats[i] in DeleteChat(chats, id)
    ensures DeleteChat(chats + more, id) == DeleteChat(chats, id) + DeleteChat(more, id)
    ensures (forall i :: 0 <= i < |chats| ==> chats[i].id != id) ==> DeleteChat(chats, id) == chats
  {
    Seqs.FilterAppend(chats, more, (c: SavedChat) => c.id != id);
    if forall i :: 0 <= i < |chats| ==> chats[i].id != id {
      KeepAll(chats, id);
    }
  }

  lemma {:induction false} KeepAll(chats: seq<SavedChat>, id: string)
    requires forall i :: 0 <= i < |chats| ==> chats[i].id != id
    ensures DeleteChat(chats, id) == chats
    decreases |chats|
  {
    if chats != [] {
      KeepAll(chats[1..], id);
    }
  }

  /** `starChat`: `isStarred` flipped on the entries with the id, every other entry as it was. */
  function StarChat(chats: seq<SavedChat>, id: string): (r: seq<SavedChat>)
    ensures |r| == |chats|
    ensures forall i :: 0 <= i < |r| ==>
              (chats[i].id == id ==> r[i] == chats[i].(isStarred := !chats[i].isStarred))
              && (chats[i].id != id ==> r[i] == chats[i])
  {
    seq(|chats|, i requires 0 <= i < |chats| => if chats[i].id == id then chats[i].(isStarred := !chats[i].isStarred) else chats[i])
  }

  /** Starring twice restores the list. */
  lemma StarTwice(chats: seq<SavedChat>, id: string)
    ensures StarChat(StarChat(chats, id), id) == chats
  {
    var r := StarChat(StarChat(chats, id), id);
    assert forall i :: 0 <= i < |chats| ==> r[i] == chats[i];
  }

  /**
   * The "New Chat" button: with only the greeting showing it clears at once; otherwise it clears
   * only when the user confirms. Although the prompt says so, nothing is saved to history here.
   */
  function NewChat(s: ChatbotState, confirmed: bool, loadedAt: int): (r: ChatbotState)
    ensures |s.messages| <= 1 || confirmed ==> r == s.(messages := [Greeting(loadedAt)])
    ensures |s.messages| > 1 && !confirmed ==> r == s
  {
    if |s.messages| > 1 && confirmed then Reduce(s, ClearMessages, loadedAt)
    else if |s.messages| <= 1 then Reduce(s, ClearMessages, loadedAt)
    else s
  }
}
