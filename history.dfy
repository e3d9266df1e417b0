/**
 * The saved-chat list of the full frontend (src/App_Original_Backup.tsx). The browser's stored
 * list is passed in and handed back; every operation is a function of that list.
 */
module BackupHistory {
  import opened Wrappers
  import opened Text
  import opened Seqs
  import opened Chat
  import opened Topics
  import BackupStore

  datatype Preview = Preview(firstQuestion: string, firstResponse: string)

  datatype Metadata = Metadata(complexity: Complexity, satisfaction: Option<int>, tags: seq<string>)

  /** One saved conversation; `timestamp` is the save time in milliseconds. */
  datatype ChatHistory = ChatHistory(
    id: string,
    name: string,
    messages: seq<Message>,
    timestamp: int,
    category: string,
    duration: int,
    messageCount: nat,
    isPinned: bool,
    isStarred: bool,
    isArchived: bool,
    preview: Preview,
    metadata: Metadata)

  /** How many entries the stored list keeps. */
  const HistoryCap: nat := 50

  const MinuteMs: nat := 60000

  /** `Math.round(a / b)` for a positive divisor: the nearest integer, halves rounded up. */
  function RoundDiv(a: int, b: int): (r: int)
    requires b > 0
    ensures 2 * a - b < 2 * (r * b) <= 2 * a + b
  {
    var q := (2 * a + b) / (2 * b);
    assert 2 * a + b == q * (2 * b) + (2 * a + b) % (2 * b);
    q
  }

  /** The minutes between `start` and `now`, as the history entry records them. */
  function Duration(start: int, now: int): int {
    RoundDiv(now - start, MinuteMs)
  }

  predicate IsUser(m: Message) {
    m.role == User
  }

  /** An assistant message other than the greeting (whose id is `'1'`). */
  predicate IsReply(m: Message) {
    m.role == Assistant && m.id != "1"
  }

  function FirstResponse(messages: seq<Message>): string {
    match FirstHit(messages, IsReply)
    case Some(k) => Truncate(messages[k].content, 150)
    case None => "No response yet"
  }

  /** The record both save paths build, for a conversation whose first user message is `user`. */
  function Entry(messages: seq<Message>, user: Message, start: int, now: nat, date: string): ChatHistory {
    var category := CategorizeLegalTopic(user.content);
    ChatHistory(
      Decimal(now), ChatName(user.content, date), messages, now, category, Duration(start, now),
      |messages|, false, false, false,
      Preview(Truncate(user.content, 100), FirstResponse(messages)),
      Metadata(CalculateComplexity(messages), None, [Tag(category)]))
  }

  /** What a fresh entry records, in terms of the conversation it was made from. */
  lemma EntryFacts(messages: seq<Message>, user: Message, start: int, now: nat, date: string)
    ensures var e := Entry(messages, user, start, now, date);
            && Value(e.id) == now && e.timestamp == now
            && e.name == ChatName(user.content, date)
            && e.category == CategorizeLegalTopic(user.content)
            && e.metadata.complexity == CalculateComplexity(messages)
            && e.messageCount == |messages| && e.messages == messages
            && !e.isPinned && !e.isStarred && !e.isArchived && e.metadata.satisfaction == None
            && e.metadata.tags == [Tag(e.category)]
            && (|user.content| <= 100 ==> e.preview.firstQuestion == user.content)
            && (|user.content| > 100 ==> |e.preview.firstQuestion| == 103
                                          && StartsWith(e.preview.firstQuestion, user.content[..100]))
            && (FirstHit(messages, IsReply).None? ==> e.preview.firstResponse == "No response yet")
            && (FirstHit(messages, IsReply).Some? ==>
                  e.preview.firstResponse == Truncate(messages[FirstHit(messages, IsReply).value].content, 150))
            && 2 * (now - start) - MinuteMs < 2 * (e.duration * MinuteMs) <= 2 * (now - start) + MinuteMs
  {
    DecimalValue(now);
    TruncateShape(user.content, 100);
  }

  /** `existing.unshift(entry); existing.slice(0, cap)`: the new entry first, the oldest ones dropped. */
  lemma PrependCapped(entry: ChatHistory, stored: seq<ChatHistory>, cap: nat)
    requires cap > 0
    ensures var r := Take([entry] + stored, cap);
            && |r| == (if |stored| + 1 <= cap then |stored| + 1 else cap)
            && r[0] == entry && r[1..] == Take(stored, cap - 1)
  {
    var r := Take([entry] + stored, cap);
    assert r[1..] == ([entry] + stored)[1..|r|];
    assert ([entry] + stored)[1..|r|] == stored[..|r| - 1];
  }

  /** The notice `saveHistoryToStorage` shows after saving. */
  function SavedNotice(name: string): string {
    "Chat saved as: \"" + name + "\""
  }

  /**
   * `saveHistoryToStorage`: refused, with the stored list untouched, when only the greeting is showing
   * or no user message exists; otherwise the conversation is put in front of the stored list, which
   * is cut to its first 50 entries. `notice` is the alert text.
   */
  method SaveHistory(messages: seq<Message>, stored: seq<ChatHistory>, now: nat, date: string)
    returns (stored': seq<ChatHistory>, notice: string)
    ensures |messages| <= 1 ==> stored' == stored && notice == "No conversation to save!"
    ensures |messages| > 1 && FirstHit(messages, IsUser).None? ==>
              stored' == stored && notice == "No user messages to save!"
    ensures |messages| > 1 && FirstHit(messages, IsUser).Some? ==>
              stored' == Take([Entry(messages, messages[FirstHit(messages, IsUser).value], messages[0].timestamp, now, date)] + stored, HistoryCap)
    ensures |messages| > 1 && FirstHit(messages, IsUser).Some? ==>
              notice == SavedNotice(ChatName(messages[FirstHit(messages, IsUser).value].content, date))
    ensures |messages| > 1 && FirstHit(messages, IsUser).Some? ==>
              |stored'| == (if |stored| + 1 <= HistoryCap then |stored| + 1 else HistoryCap)
              && stored'[0].messages == messages && stored'[1..] == Take(stored, HistoryCap - 1)
  {
    if |messages| <= 1 {
      return stored, "No conversation to save!";
    }
    var first := FirstHit(messages, IsUser);
    if first.None? {
      return stored, "No user messages to save!";
    }
    var user := messages[first.value];
    var chatName := GenerateChatName(user.content, date);
    var entry := Entry(messages, user, messages[0].timestamp, now, date);
    var existing := stored;
    existing := [entry] + existing;
    stored' := Take(existing, HistoryCap);
    PrependCapped(entry, stored, HistoryCap);
    notice := SavedNotice(chatName);
  }

  /** `chatStartTime?.getTime() || now`: a missing start, or the epoch itself, reads as now. */
  function StartOr(start: Option<int>, now: int): int {
    if start.Some? && start.value != 0 then start.value else now
  }

  /**
   * The new-chat button: with more than the greeting showing it asks first; once confirmed the
   * conversation is saved (when it has a user message) and the chat cleared. With only the greeting
   * it clears at once. Declining changes nothing.
   */
  method NewChat(s: BackupStore.ChatState, confirmed: bool, stored: seq<ChatHistory>, now: nat, date: string)
    returns (s': BackupStore.ChatState, stored': seq<ChatHistory>)
    ensures |s.messages| <= 1 ==> s' == BackupStore.Reduce(s, ClearMessages, now) && stored' == stored
    ensures |s.messages| > 1 && !confirmed ==> s' == s && stored' == stored
    ensures |s.messages| > 1 && confirmed ==> s' == BackupStore.Reduce(s, ClearMessages, now)
    ensures |s.messages| > 1 && confirmed && FirstHit(s.messages, IsUser).None? ==> stored' == stored
    ensures |s.messages| > 1 && confirmed && FirstHit(s.messages, IsUser).Some? ==>
              stored' == Take([Entry(s.messages, s.messages[FirstHit(s.messages, IsUser).value],
                                     StartOr(s.chatStartTime, now), now, date)] + stored, HistoryCap)
  {
    s', stored' := s, stored;
    if |s.messages| > 1 && confirmed {
      var first := FirstHit(s.messages, IsUser);
      if first.Some? {
        var entry := Entry(s.messages, s.messages[first.value], StartOr(s.chatStartTime, now), now, date);
        var existing := stored;
        existing := [entry] + existing;
        stored' := Take(existing, HistoryCap);
      }
      s' := BackupStore.Reduce(s, ClearMessages, now);
    } else if |s.messages| <= 1 {
      s' := BackupStore.Reduce(s, ClearMessages, now);
    }
  }

  /** "Clear Current Chat": once confirmed, the chat is cleared as `CLEAR_MESSAGES` clears it. */
  function ClearCurrentChat(s: BackupStore.ChatState, confirmed: bool, now: int): (r: BackupStore.ChatState)
    ensures confirmed ==> r == BackupStore.Reduce(s, ClearMessages, now)
    ensures !confirmed ==> r == s
  {
    if confirmed then BackupStore.Reduce(s, ClearMessages, now) else s
  }

  /** "Delete All History": once confirmed, the stored list is removed, which later reads see as empty. */
  function DeleteAllHistory(stored: seq<ChatHistory>, confirmed: bool): (r: seq<ChatHistory>)
    ensures confirmed ==> r == [] && Active(r) == [] && Archived(r) == []
    ensures !confirmed ==> r == stored
  {
    if confirmed then [] else stored
  }

  /** `loadHistoryFromStorage`: the entries not archived, in stored order. */
  function Active(stored: seq<ChatHistory>): seq<ChatHistory> {
    Filter(stored, (c: ChatHistory) => !c.isArchived)
  }

  /** `getArchivedChats`: the archived entries, in stored order. */
  function Archived(stored: seq<ChatHistory>): seq<ChatHistory> {
    Filter(stored, (c: ChatHistory) => c.isArchived)
  }

  /** The two views split the stored list: every entry is in exactly one of them. */
  lemma ActiveArchivedPartition(stored: seq<ChatHistory>)
    ensures multiset(Active(stored)) + multiset(Archived(stored)) == multiset(stored)
    ensures |Active(stored)| + |Archived(stored)| == |stored|
    ensures forall i :: 0 <= i < |Active(stored)| ==> !Active(stored)[i].isArchived
    ensures forall i :: 0 <= i < |Archived(stored)| ==> Archived(stored)[i].isArchived
  {
    FilterPartition(stored, (c: ChatHistory) => !c.isArchived, (c: ChatHistory) => c.isArchived);
  }

  /** The "Load Latest Chat" button: the first entry not archived, if any, replaces the chat. */
  method LoadLatest(s: BackupStore.ChatState, stored: seq<ChatHistory>, now: int)
    returns (s': BackupStore.ChatState, notice: string)
    ensures Active(stored) != [] ==> s' == s.(messages := Active(stored)[0].messages)
                                     && notice == "Latest chat history loaded!"
    ensures Active(stored) == [] ==> s' == s && notice == "No saved chat history found."
  {
    var history := Active(stored);
    if |history| > 0 {
      s' := BackupStore.Reduce(s, LoadMessages(history[0].messages), now);
      notice := "Latest chat history loaded!";
    } else {
      s', notice := s, "No saved chat history found.";
    }
  }

  /** `history.map(chat => chat.id === id ? f(chat) : chat)` */
  function UpdateWhere(stored: seq<ChatHistory>, id: string, f: ChatHistory -> ChatHistory): (r: seq<ChatHistory>)
    ensures |r| == |stored|
    ensures forall i :: 0 <= i < |r| ==> r[i] == if stored[i].id == id then f(stored[i]) else stored[i]
  {
    seq(|stored|, i requires 0 <= i < |stored| => if stored[i].id == id then f(stored[i]) else stored[i])
  }

  /** `togglePinChat` */
  function TogglePin(stored: seq<ChatHistory>, id: string): seq<ChatHistory> {
    UpdateWhere(stored, id, (c: ChatHistory) => c.(isPinned := !c.isPinned))
  }

  /** `toggleStarChat` */
  function ToggleStar(stored: seq<ChatHistory>, id: string): seq<ChatHistory> {
    UpdateWhere(stored, id, (c: ChatHistory) => c.(isStarred := !c.isStarred))
  }

  /** `renameChat` */
  function Rename(stored: seq<ChatHistory>, id: string, newName: string): seq<ChatHistory> {
    UpdateWhere(stored, id, (c: ChatHistory) => c.(name := newName))
  }

  /** Pinning flips `isPinned` on the entries with that id and changes nothing else anywhere. */
  lemma TogglePinOnlyFlips(stored: seq<ChatHistory>, id: string)
    ensures var r := TogglePin(stored, id);
            && |r| == |stored|
            && forall i :: 0 <= i < |r| ==>
                 r[i].(isPinned := stored[i].isPinned) == stored[i]
                 && (r[i].isPinned != stored[i].isPinned <==> stored[i].id == id)
  {
  }

  /** Starring flips `isStarred` on the entries with that id and changes nothing else anywhere. */
  lemma ToggleStarOnlyFlips(stored: seq<ChatHistory>, id: string)
    ensures var r := ToggleStar(stored, id);
            && |r| == |stored|
            && forall i :: 0 <= i < |r| ==>
                 r[i].(isStarred := stored[i].isStarred) == stored[i]
                 && (r[i].isStarred != stored[i].isStarred <==> stored[i].id == id)
  {
  }

  /** Pinning twice, or starring twice, restores the list. */
  lemma ToggleTwice(stored: seq<ChatHistory>, id: string)
    ensures TogglePin(TogglePin(stored, id), id) == stored
    ensures ToggleStar(ToggleStar(stored, id), id) == stored
  {
    var p := TogglePin(TogglePin(stored, id), id);
    assert forall i :: 0 <= i < |stored| ==> p[i] == stored[i];
    var q := ToggleStar(ToggleStar(stored, id), id);
    assert forall i :: 0 <= i < |stored| ==> q[i] == stored[i];
  }

  /** Renaming sets the name of exactly the matching entries; a second rename overrides the first. */
  lemma RenameFacts(stored: seq<ChatHistory>, id: string, a: string, b: string)
    ensures forall i :: 0 <= i < |stored| ==>
              Rename(stored, id, a)[i] == (if stored[i].id == id then stored[i].(name := a) else stored[i])
    ensures Rename(Rename(stored, id, a), id, b) == Rename(stored, id, b)
  {
    var x := Rename(Rename(stored, id, a), id, b);
    var y := Rename(stored, id, b);
    assert forall i :: 0 <= i < |stored| ==> x[i] == y[i];
  }

  /** `rateChatSatisfaction`: records the rating on the matching entries; `notice` is the alert. */
  method RateSatisfaction(stored: seq<ChatHistory>, id: string, rating: nat)
    returns (stored': seq<ChatHistory>, notice: string)
    ensures |stored'| == |stored|
    ensures forall i :: 0 <= i < |stored| ==>
              stored'[i] == if stored[i].id == id
                            then stored[i].(metadata := stored[i].metadata.(satisfaction := Some(rating)))
                            else stored[i]
    ensures notice == "Rated " + Decimal(rating) + "/5 stars!"
  {
    stored' := UpdateWhere(stored, id, (c: ChatHistory) => c.(metadata := c.metadata.(satisfaction := Some(rating))));
    notice := "Rated " + Decimal(rating) + "/5 stars!";
  }

  const ThirtyDaysMs: nat := 30 * 24 * 60 * 60 * 1000

  /** `archiveOldChats`: every entry saved more than thirty days before `now` becomes archived. */
  function ArchiveOld(stored: seq<ChatHistory>, now: int): (r: seq<ChatHistory>)
    ensures |r| == |stored|
    ensures forall i :: 0 <= i < |r| ==>
              r[i] == if stored[i].timestamp < now - ThirtyDaysMs then stored[i].(isArchived := true) else stored[i]
  {
    seq(|stored|, i requires 0 <= i < |stored| =>
      if stored[i].timestamp < now - ThirtyDaysMs then stored[i].(isArchived := true) else stored[i])
  }

  /** After archiving, the active view holds only recent entries, and every recent active one stays. */
  lemma ArchiveOldFacts(stored: seq<ChatHistory>, now: int)
    ensures ArchiveOld(ArchiveOld(stored, now), now) == ArchiveOld(stored, now)
    ensures forall i :: 0 <= i < |Active(ArchiveOld(stored, now))| ==>
              Active(ArchiveOld(stored, now))[i].timestamp >= now - ThirtyDaysMs
    ensures forall i :: 0 <= i < |stored| && !stored[i].isArchived && stored[i].timestamp >= now - ThirtyDaysMs ==>
              stored[i] in Active(ArchiveOld(stored, now))
  {
    var a := ArchiveOld(stored, now);
    var aa := ArchiveOld(a, now);
    assert forall i :: 0 <= i < |stored| ==> aa[i] == a[i];
    var act := Active(a);
    forall i | 0 <= i < |act|
      ensures act[i].timestamp >= now - ThirtyDaysMs
    {
      assert act[i] in a;
      var j :| 0 <= j < |a| && a[j] == act[i];
    }
    forall i | 0 <= i < |stored| && !stored[i].isArchived && stored[i].timestamp >= now - ThirtyDaysMs
      ensures stored[i] in act
    {
      assert a[i] == stored[i];
    }
  }

  /** The copy `duplicateChat` makes: a new id and timestamp, the name marked, a `duplicated` tag. */
  function Copy(chat: ChatHistory, now: nat): ChatHistory {
    chat.(id := Decimal(now), name := chat.name + " (Copy)", timestamp := now,
          metadata := chat.metadata.(tags := chat.metadata.tags + ["duplicated"]))
  }

  /**
   * `duplicateChat`: the copy goes in front of the stored list, and the list is NOT cut to 50
   * entries as a save would cut it.
   */
  method Duplicate(chat: ChatHistory, stored: seq<ChatHistory>, now: nat)
    returns (stored': seq<ChatHistory>, notice: string)
    ensures stored' == [Copy(chat, now)] + stored && |stored'| == |stored| + 1
    ensures stored'[0].messages == chat.messages && stored'[0].category == chat.category
    ensures stored'[0].metadata.tags[|chat.metadata.tags|] == "duplicated"
    ensures notice == "Chat duplicated as: \"" + chat.name + " (Copy)\""
  {
    var copy := Copy(chat, now);
    var existing := stored;
    existing := [copy] + existing;
    stored' := existing;
    notice := "Chat duplicated as: \"" + copy.name + "\"";
  }

  /** The role as stored in a message: `'user'` or `'assistant'`. */
  function RoleName(role: Role): string {
    match role
    case User => "user"
    case Assistant => "assistant"
  }

  /** `msg.role.toUpperCase()` */
  function RoleLabel(role: Role): string {
    ToUpper(RoleName(role))
  }

  /** The role labels the export prints. */
  lemma RoleLabels()
    ensures RoleLabel(User) == "USER" && RoleLabel(Assistant) == "ASSISTANT"
  {
    var u := ToUpper("user");
    assert u[0] == 'U' && u[1] == 'S' && u[2] == 'E' && u[3] == 'R';
    var a := ToUpper("assistant");
    assert a[0] == 'A' && a[1] == 'S' && a[2] == 'S' && a[3] == 'I' && a[4] == 'S';
    assert a[5] == 'T' && a[6] == 'A' && a[7] == 'N' && a[8] == 'T';
  }

  /** One message of the exported text: role, content, the sources line if any, a blank line. */
  function Block(m: Message): string {
    RoleLabel(m.role) + ": " + m.content + "\n"
    + (if m.sources.Some? then "Sources: " + Join(m.sources.value, ", ") + "\n" else "")
    + "\n"
  }

  function Blocks(messages: seq<Message>): (r: seq<string>)
    ensures |r| == |messages| && forall i :: 0 <= i < |r| ==> r[i] == Block(messages[i])
  {
    seq(|messages|, i requires 0 <= i < |messages| => Block(messages[i]))
  }

  /** `exportChatAsText`'s file content: the message blocks joined with newlines. */
  function ExportText(chat: ChatHistory): string {
    Join(Blocks(chat.messages), "\n")
  }

  /** The export is one block per message in order: adding a message adds a newline and its block. */
  lemma ExportAppend(chat: ChatHistory, m: Message)
    ensures ExportText(chat.(messages := [])) == ""
    ensures chat.messages != [] ==>
              ExportText(chat.(messages := chat.messages + [m])) == ExportText(chat) + "\n" + Block(m)
  {
    if chat.messages != [] {
      assert Blocks(chat.messages + [m]) == Blocks(chat.messages) + [Block(m)];
      JoinSnoc(Blocks(chat.messages), Block(m), "\n");
    }
  }

  /** Every block opens with the role and the content and closes with a blank line. */
  lemma BlockShape(m: Message)
    ensures StartsWith(Block(m), RoleLabel(m.role) + ": " + m.content + "\n")
    ensures |Block(m)| >= 2 && Block(m)[|Block(m)| - 1] == '\n'
  {
  }

  predicate IsAsciiAlnum(c: char) {
    'a' <= c <= 'z' || 'A' <= c <= 'Z' || '0' <= c <= '9'
  }

  /** `name.replace(/[^a-z0-9]/gi, '_')`: each character that is not an ASCII letter or digit becomes `_`. */
  function SanitizeFileName(name: string): (r: string)
    ensures |r| == |name|
    ensures forall i :: 0 <= i < |r| ==> (IsAsciiAlnum(name[i]) ==> r[i] == name[i]) && (!IsAsciiAlnum(name[i]) ==> r[i] == '_')
  {
    seq(|name|, i requires 0 <= i < |name| => if IsAsciiAlnum(name[i]) then name[i] else '_')
  }

  /** The download name of an export. */
  function ExportFileName(chat: ChatHistory): string {
    SanitizeFileName(chat.name) + ".txt"
  }

  /** A sanitised name holds only letters, digits and underscores, and sanitising again changes nothing. */
  lemma SanitizeFacts(name: string)
    ensures forall i :: 0 <= i < |SanitizeFileName(name)| ==>
              IsAsciiAlnum(SanitizeFileName(name)[i]) || SanitizeFileName(name)[i] == '_'
    ensures SanitizeFileName(SanitizeFileName(name)) == SanitizeFileName(name)
  {
    var r := SanitizeFileName(name);
    var rr := SanitizeFileName(r);
    assert forall i :: 0 <= i < |r| ==> rr[i] == r[i];
  }

  /** The sidebar's filter: the chosen category (or `all`) and the search text in the name or question. */
  predicate Matches(chat: ChatHistory, category: string, query: string) {
    (category == "all" || chat.category == category)
    && (query == ""
        || Contains(ToLower(chat.name), ToLower(query))
        || Contains(ToLower(chat.preview.firstQuestion), ToLower(query)))
  }

  /** The sidebar's comparator, as written: pinned first, then starred, then newer first. */
  function Compare(a: ChatHistory, b: ChatHistory): int {
    if a.isPinned && !b.isPinned then -1
    else if !a.isPinned && b.isPinned then 1
    else if a.isStarred && !b.isStarred then -1
    else if !a.isStarred && b.isStarred then 1
    else b.timestamp - a.timestamp
  }

  /** The comparator is antisymmetric and its `<= 0` is a total preorder. */
  lemma CompareIsPreorder(a: ChatHistory, b: ChatHistory, c: ChatHistory)
    ensures Compare(a, b) == -Compare(b, a)
    ensures Compare(a, b) <= 0 || Compare(b, a) <= 0
    ensures Compare(a, b) <= 0 && Compare(b, c) <= 0 ==> Compare(a, c) <= 0
  {
  }

  predicate Sorted(s: seq<ChatHistory>) {
    forall i, j :: 0 <= i < j < |s| ==> Compare(s[i], s[j]) <= 0
  }

  /** Whatever precedes the head of a sorted list precedes all of it. */
  lemma BeforeHead(x: ChatHistory, s: seq<ChatHistory>)
    requires Sorted(s) && s != [] && Compare(x, s[0]) <= 0
    ensures forall j :: 0 <= j < |s| ==> Compare(x, s[j]) <= 0
  {
    forall j | 0 <= j < |s| ensures Compare(x, s[j]) <= 0 {
      CompareIsPreorder(x, s[0], s[j]);
    }
  }

  /** A bound on every element of a list, and on `x`, bounds every element of a permutation of both. */
  lemma BeforeAll(h: ChatHistory, x: ChatHistory, t: seq<ChatHistory>, rest: seq<ChatHistory>)
    requires forall j :: 0 <= j < |t| ==> Compare(h, t[j]) <= 0
    requires Compare(h, x) <= 0
    requires multiset(rest) == multiset(t) + multiset{x}
    ensures forall j :: 0 <= j < |rest| ==> Compare(h, rest[j]) <= 0
  {
    forall j | 0 <= j < |rest| ensures Compare(h, rest[j]) <= 0 {
      assert rest[j] in multiset(rest);
      if rest[j] != x {
        assert rest[j] in multiset(t);
        var k :| 0 <= k < |t| && t[k] == rest[j];
      }
    }
  }

  /** Insert `x` before the first element it does not come after. */
  function Insert(x: ChatHistory, s: seq<ChatHistory>): (r: seq<ChatHistory>)
    requires Sorted(s)
    ensures Sorted(r) && multiset(r) == multiset(s) + multiset{x}
    decreases |s|
  {
    if s == [] then [x]
    else if Compare(x, s[0]) <= 0 then
      BeforeHead(x, s);
      [x] + s
    else
      var rest := Insert(x, s[1..]);
      assert s == [s[0]] + s[1..];
      CompareIsPreorder(x, s[0], x);
      BeforeAll(s[0], x, s[1..], rest);
      [s[0]] + rest
  }

  /** `Array.prototype.sort` with the sidebar's comparator: sorted, and a permutation of its input. */
  function SortChats(s: seq<ChatHistory>): (r: seq<ChatHistory>)
    ensures Sorted(r) && multiset(r) == multiset(s) && |r| == |s|
    decreases |s|
  {
    if s == [] then []
    else
      assert s == [s[0]] + s[1..];
      Insert(s[0], SortChats(s[1..]))
  }

  /** In a sorted list pinned entries come first, then starred ones, and newer ones ahead of older ones. */
  lemma SortedOrder(s: seq<ChatHistory>, i: nat, j: nat)
    requires Sorted(s) && i < j < |s|
    ensures s[j].isPinned ==> s[i].isPinned
    ensures s[i].isPinned == s[j].isPinned && s[j].isStarred ==> s[i].isStarred
    ensures s[i].isPinned == s[j].isPinned && s[i].isStarred == s[j].isStarred ==> s[i].timestamp >= s[j].timestamp
  {
    assert Compare(s[i], s[j]) <= 0;
  }

  /** The pool the sidebar draws from. */
  function Pool(stored: seq<ChatHistory>, showArchived: bool): seq<ChatHistory> {
    if showArchived then Archived(stored) else Active(stored)
  }

  /** The sidebar list: the pool filtered, sorted, and cut to its first ten. */
  function Visible(stored: seq<ChatHistory>, showArchived: bool, category: string, query: string): seq<ChatHistory> {
    Take(SortChats(Filter(Pool(stored, showArchived), (c: ChatHistory) => Matches(c, category, query))), 10)
  }

  /** Every entry of the pool is stored, and archived exactly when the archived pool was asked for. */
  lemma PoolFacts(stored: seq<ChatHistory>, showArchived: bool)
    ensures forall i :: 0 <= i < |Pool(stored, showArchived)| ==>
              Pool(stored, showArchived)[i] in stored && Pool(stored, showArchived)[i].isArchived == showArchived
  {
  }

  /** A permutation keeps every element's membership. */
  lemma PermutationMembers(a: seq<ChatHistory>, b: seq<ChatHistory>)
    requires multiset(a) == multiset(b)
    ensures forall i :: 0 <= i < |a| ==> a[i] in b
  {
    forall i | 0 <= i < |a| ensures a[i] in b {
      assert a[i] in multiset(a);
    }
  }

  /**
   * At most ten entries are shown, all from the chosen pool and all matching, in comparator order;
   * when ten or fewer match, every match is shown.
   */
  lemma VisibleFacts(stored: seq<ChatHistory>, showArchived: bool, category: string, query: string)
    ensures var v := Visible(stored, showArchived, category, query);
            && |v| <= 10 && Sorted(v)
            && (forall i :: 0 <= i < |v| ==> v[i] in stored && v[i].isArchived == showArchived
                                              && Matches(v[i], category, query))
    ensures var m := Filter(Pool(stored, showArchived), (c: ChatHistory) => Matches(c, category, query));
            |m| <= 10 ==> multiset(Visible(stored, showArchived, category, query)) == multiset(m)
  {
    var pool := Pool(stored, showArchived);
    var m := Filter(pool, (c: ChatHistory) => Matches(c, category, query));
    var sorted := SortChats(m);
    var v := Take(sorted, 10);
    PoolFacts(stored, showArchived);
    PermutationMembers(sorted, m);
    forall i | 0 <= i < |v|
      ensures v[i] in stored && v[i].isArchived == showArchived && Matches(v[i], category, query)
    {
      assert v[i] == sorted[i] && sorted[i] in m;
      var k :| 0 <= k < |m| && m[k] == sorted[i];
      var l :| 0 <= l < |pool| && pool[l] == m[k];
    }
  }
}
