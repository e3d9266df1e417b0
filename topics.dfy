/**
 * The keyword helpers of the full frontend (src/App_Original_Backup.tsx): naming a saved chat,
 * filing it under a legal topic, grading its complexity and deriving its tag.
 */
module Topics {
  import opened Wrappers
  import opened Text
  import opened Seqs
  import opened Chat

  const GeneralLegal: string := "General Legal"

  /** `generateChatName`'s keyword table, in declaration order (the scan order of `Object.entries`). */
  const NameKeywords: seq<(string, string)> := [
    ("contract", "Contract Law"), ("property", "Property Law"), ("marriage", "Family Law"),
    ("divorce", "Family Law"), ("criminal", "Criminal Law"), ("labor", "Labor Law"),
    ("employment", "Labor Law"), ("consumer", "Consumer Law"), ("tax", "Tax Law"),
    ("company", "Corporate Law"), ("business", "Corporate Law"), ("intellectual", "IP Law"),
    ("patent", "IP Law"), ("copyright", "IP Law"), ("constitutional", "Constitutional Law"),
    ("civil", "Civil Law"), ("tort", "Tort Law"), ("evidence", "Evidence Law"),
    ("procedure", "Procedural Law")]

  /** `categorizeLegalTopic`'s table: each category's keywords and the category, in declaration order. */
  const TopicKeywords: seq<(seq<string>, string)> := [
    (["contract", "agreement", "breach", "consideration", "offer", "acceptance"], "Contract Law"),
    (["property", "real estate", "land", "ownership", "title", "deed"], "Property Law"),
    (["marriage", "divorce", "custody", "alimony", "adoption", "domestic"], "Family Law"),
    (["criminal", "crime", "theft", "murder", "assault", "bail"], "Criminal Law"),
    (["employment", "labor", "worker", "salary", "termination", "workplace"], "Labor Law"),
    (["consumer", "product", "warranty", "refund", "complaint", "service"], "Consumer Law"),
    (["company", "business", "corporate", "shares", "director", "partnership"], "Corporate Law"),
    (["constitutional", "fundamental rights", "article", "amendment", "supreme court"], "Constitutional Law"),
    (["tax", "income tax", "gst", "return", "assessment", "penalty"], "Tax Law"),
    (["intellectual property", "patent", "copyright", "trademark", "design"], "IP Law")]

  /**
   * The first-match scan over a table of (key, category) rows: the category of the first row whose
   * key `hit` accepts, and `General Legal` when no row's key does.
   */
  function FirstMatch<K>(table: seq<(K, string)>, hit: K -> bool): (r: string)
    ensures (forall j :: 0 <= j < |table| ==> !hit(table[j].0)) ==> r == GeneralLegal
    ensures forall k :: (0 <= k < |table| && hit(table[k].0)
                         && forall j :: 0 <= j < k ==> !hit(table[j].0)) ==> r == table[k].1
    decreases |table|
  {
    if table == [] then GeneralLegal
    else if hit(table[0].0) then table[0].1
    else
      var r := FirstMatch(table[1..], hit);
      assert forall k :: 1 <= k < |table| ==> table[k] == table[1..][k - 1];
      r
  }

  /** The category `generateChatName` files `text` under: the first keyword it contains wins. */
  function NameCategory(text: string): string {
    var lower := ToLower(text);
    FirstMatch(NameKeywords, (keyword: string) => Contains(lower, keyword))
  }

  /** The source's `for ... of Object.entries(keywords)` loop with its `break`, over any table. */
  method ScanKeywords(table: seq<(string, string)>, message: string) returns (category: string)
    ensures category == FirstMatch(table, (keyword: string) => Contains(message, keyword))
  {
    category := GeneralLegal;
    var i := 0;
    while i < |table|
      invariant 0 <= i <= |table|
      invariant forall j :: 0 <= j < i ==> !Contains(message, table[j].0)
      invariant category == GeneralLegal
    {
      if Contains(message, table[i].0) {
        category := table[i].1;
        break;
      }
      i := i + 1;
    }
  }

  /** The name `generateChatName` gives a chat opened by `firstUserMessage` on `date`. */
  function ChatName(firstUserMessage: string, date: string): string {
    NameCategory(firstUserMessage) + ": " + Truncate(firstUserMessage, 30) + " - " + date
  }

  lemma FourParts(a: string, b: string, c: string, d: string)
    ensures |a + b + c + d| == |a| + |b| + |c| + |d|
    ensures (a + b + c + d)[..|a|] == a && (a + b + c + d)[|a|..|a| + |b|] == b
  {
    var s := a + b + c + d;
    assert forall i :: 0 <= i < |a| ==> s[i] == a[i];
    assert forall i :: 0 <= i < |b| ==> s[|a| + i] == b[i];
  }

  /**
   * A chat name opens with its category and a colon; the message follows whole when it has at most
   * 30 characters, and otherwise its first 30 characters and an ellipsis.
   */
  lemma ChatNameShape(firstUserMessage: string, date: string)
    ensures StartsWith(ChatName(firstUserMessage, date), NameCategory(firstUserMessage) + ": ")
    ensures |firstUserMessage| <= 30 ==>
              ChatName(firstUserMessage, date) == NameCategory(firstUserMessage) + ": " + firstUserMessage + " - " + date
    ensures |firstUserMessage| > 30 ==>
              var k := |NameCategory(firstUserMessage)| + 2;
              && |ChatName(firstUserMessage, date)| == k + 36 + |date|
              && ChatName(firstUserMessage, date)[k..k + 30] == firstUserMessage[..30]
              && ChatName(firstUserMessage, date)[k + 30..k + 33] == "..."
  {
    var head := NameCategory(firstUserMessage) + ": ";
    var t := Truncate(firstUserMessage, 30);
    FourParts(head, t, " - ", date);
    TruncateShape(firstUserMessage, 30);
    if |firstUserMessage| > 30 {
      var name := ChatName(firstUserMessage, date);
      var k := |head|;
      assert name[k..k + 33] == t;
      assert name[k..k + 30] == t[..30];
      assert name[k + 30..k + 33] == t[30..];
    }
  }

  /**
   * `generateChatName`: the first matching keyword's category, then the message cut to 30 characters,
   * then the locale date (a parameter here).
   */
  method GenerateChatName(firstUserMessage: string, date: string) returns (name: string)
    ensures name == ChatName(firstUserMessage, date)
  {
    var message := ToLower(firstUserMessage);
    var category := ScanKeywords(NameKeywords, message);
    name := category + ": " + Truncate(firstUserMessage, 30) + " - " + date;
  }

  /** `keywords.some(keyword => text.includes(keyword))` */
  predicate MentionsAny(text: string, keywords: seq<string>) {
    exists i :: 0 <= i < |keywords| && Contains(text, keywords[i])
  }

  /**
   * `categorizeLegalTopic`: the first category, in declared order, one of whose keywords occurs in
   * the lower-cased content; `General Legal` when none does.
   */
  function CategorizeLegalTopic(content: string): string {
    var lower := ToLower(content);
    FirstMatch(TopicKeywords, (keywords: seq<string>) => MentionsAny(lower, keywords))
  }

  /**
   * The topic is the category of the first row, in declared order, that has a keyword occurring in
   * the lower-cased content; `General Legal` when no row does.
   */
  lemma TopicIsFirstMatch(content: string, k: nat)
    ensures (forall j :: 0 <= j < |TopicKeywords| ==> !MentionsAny(ToLower(content), TopicKeywords[j].0)) ==>
              CategorizeLegalTopic(content) == GeneralLegal
    ensures k < |TopicKeywords| && MentionsAny(ToLower(content), TopicKeywords[k].0)
            && (forall j :: 0 <= j < k ==> !MentionsAny(ToLower(content), TopicKeywords[j].0)) ==>
              CategorizeLegalTopic(content) == TopicKeywords[k].1
  {
  }

  /** The naming category is the first keyword, in declared order, occurring in the lower-cased message. */
  lemma NameCategoryIsFirstMatch(text: string, k: nat)
    ensures (forall j :: 0 <= j < |NameKeywords| ==> !Contains(ToLower(text), NameKeywords[j].0)) ==>
              NameCategory(text) == GeneralLegal
    ensures k < |NameKeywords| && Contains(ToLower(text), NameKeywords[k].0)
            && (forall j :: 0 <= j < k ==> !Contains(ToLower(text), NameKeywords[j].0)) ==>
              NameCategory(text) == NameKeywords[k].1
  {
  }

  datatype Complexity = Simple | Medium | Complex

  /** `messages.reduce((sum, msg) => sum + msg.content.length, 0)` */
  function TotalLength(messages: seq<Message>): nat {
    if messages == [] then 0 else TotalLength(messages[..|messages| - 1]) + |messages[|messages| - 1].content|
  }

  /**
   * `calculateComplexity` on integers: the average is below 100 exactly when the total is below
   * 100 per message. With no messages the average is `NaN`, every comparison fails, and the
   * answer is `complex`.
   */
  function CalculateComplexity(messages: seq<Message>): Complexity {
    Classify(TotalLength(messages), |messages|)
  }

  /** The banding of `total / n` that `calculateComplexity` does, in integers. */
  function Classify(total: nat, n: nat): Complexity {
    if n > 0 && total < 100 * n then Simple
    else if n > 0 && total < 300 * n then Medium
    else Complex
  }

  lemma RealQuotientBelow(t: real, n: real, c: real)
    requires n > 0.0
    ensures t / n < c <==> t < c * n
  {
    var q := t / n;
    assert t == q * n;
    if q < c {
      assert (c - q) * n > 0.0;
    } else {
      assert (q - c) * n >= 0.0;
    }
  }

  /** The integer bands agree with the bands of the real quotient. */
  lemma ClassifyByQuotient(total: nat, n: nat)
    requires n > 0
    ensures var avg := total as real / n as real;
            && (Classify(total, n) == Simple <==> avg < 100.0)
            && (Classify(total, n) == Medium <==> 100.0 <= avg < 300.0)
            && (Classify(total, n) == Complex <==> 300.0 <= avg)
  {
    RealQuotientBelow(total as real, n as real, 100.0);
    RealQuotientBelow(total as real, n as real, 300.0);
    assert (100 * n) as real == 100.0 * n as real;
    assert (300 * n) as real == 300.0 * n as real;
  }

  /** The integer tests agree with the source's floating-point average `totalLength / messages.length`. */
  lemma ComplexityByAverage(messages: seq<Message>)
    requires |messages| > 0
    ensures var avg := TotalLength(messages) as real / |messages| as real;
            && (CalculateComplexity(messages) == Simple <==> avg < 100.0)
            && (CalculateComplexity(messages) == Medium <==> 100.0 <= avg < 300.0)
            && (CalculateComplexity(messages) == Complex <==> 300.0 <= avg)
  {
    ClassifyByQuotient(TotalLength(messages), |messages|);
  }

  /** With no messages the chat is always `complex`. */
  lemma EmptyIsComplex()
    ensures CalculateComplexity([]) == Complex
  {
  }

  /** `category.toLowerCase().replace(' ', '-')`: only the first space becomes a hyphen. */
  function Tag(category: string): (r: string)
    ensures |r| == |category|
    ensures forall i :: 0 <= i < |r| ==>
              r[i] == if i == IndexOf(ToLower(category), ' ') then '-' else LowerChar(category[i])
  {
    ReplaceFirstAt(ToLower(category), ' ', '-');
    ReplaceFirst(ToLower(category), ' ', '-')
  }
}
