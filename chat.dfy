/** The message model and action vocabulary shared by both chat-state reducers. */
module Chat {
  import opened Wrappers

  datatype Role = User | Assistant

  /** `ChatMessage`; the timestamp is an integer clock reading, the two optional fields may be absent. */
  datatype Message = Message(
    id: string,
    role: Role,
    content: string,
    timestamp: int,
    sources: Option<seq<string>>,
    isLoading: Option<bool>)

  /** The partial message of `UPDATE_LAST_MESSAGE`; a present field overrides, an absent one keeps. */
  datatype Patch = Patch(content: Option<string>, isLoading: Option<bool>, sources: Option<seq<string>>)

  /** `{ ...msg, ...payload }` */
  function Merge(m: Message, p: Patch): (r: Message)
    ensures r.id == m.id && r.role == m.role && r.timestamp == m.timestamp
    ensures p.content.Some? ==> r.content == p.content.value
    ensures p.content.None? ==> r.content == m.content
    ensures p.isLoading.Some? ==> r.isLoading == p.isLoading
    ensures p.isLoading.None? ==> r.isLoading == m.isLoading
    ensures p.sources.Some? ==> r.sources == p.sources
    ensures p.sources.None? ==> r.sources == m.sources
  {
    m.(content := p.content.GetOr(m.content),
       isLoading := if p.isLoading.Some? then p.isLoading else m.isLoading,
       sources := if p.sources.Some? then p.sources else m.sources)
  }

  /** `messages.map((msg, index) => index === messages.length - 1 ? merge(msg) : msg)` */
  function UpdateLast(ms: seq<Message>, p: Patch): (r: seq<Message>)
    ensures |r| == |ms|
    ensures |ms| > 0 ==> r == ms[..|ms| - 1] + [Merge(ms[|ms| - 1], p)]
  {
    seq(|ms|, i requires 0 <= i < |ms| => if i == |ms| - 1 then Merge(ms[i], p) else ms[i])
  }

  /** Patching the last message of `init + [m]` patches `m` and keeps `init`. */
  lemma UpdateLastSnoc(init: seq<Message>, m: Message, p: Patch)
    ensures UpdateLast(init + [m], p) == init + [Merge(m, p)]
  {
    assert (init + [m])[..|init|] == init;
  }

  datatype ApiStatus = Connected | Disconnected | Connecting

  /** The dispatched actions; `Unrecognised` stands for any other `type`. */
  datatype Action =
    | AddMessage(message: Message)
    | SetLoading(loading: bool)
    | SetError(error: Option<string>)
    | SetApiStatus(status: ApiStatus)
    | UpdateLastMessage(patch: Patch)
    | ClearMessages
    | LoadMessages(messages: seq<Message>)
    | SetChatStartTime(start: Option<int>)
    | Unrecognised(tag: string)

  function UserMessage(id: string, content: string, now: int): Message {
    Message(id, User, content, now, None, None)
  }

  /** The empty assistant message shown with a spinner while a request is in flight. */
  function Placeholder(id: string, now: int): Message {
    Message(id, Assistant, "", now, None, Some(true))
  }
}
