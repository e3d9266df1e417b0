/**
 * The typing effect law-gpt-frontend/src/components/TypingAnimation.tsx: the text is cut into
 * pieces (characters or space-separated words) and one piece is revealed per timer tick. Each
 * timer firing is one method call; the delays themselves are not modelled.
 */
module Typing {
  import opened Text

  datatype Mode = Character | Word

  /** `text.split('')` (no pieces at all for the empty text) or `text.split(' ')`. */
  function Pieces(text: string, mode: Mode): (r: seq<string>)
    ensures mode == Character ==> |r| == |text| && forall i :: 0 <= i < |r| ==> r[i] == [text[i]]
  {
    match mode
    case Character => seq(|text|, i requires 0 <= i < |text| => [text[i]])
    case Word => Split(text, ' ')
  }

  /** What a tick appends: in word mode a space first, unless nothing is showing yet. */
  function Reveal(shown: string, piece: string, mode: Mode): string {
    match mode
    case Character => shown + piece
    case Word => shown + (if shown != "" then " " else "") + piece
  }

  /** The text showing after `k` ticks. */
  function Shown(pieces: seq<string>, mode: Mode, k: nat): string
    requires k <= |pieces|
  {
    if k == 0 then "" else Reveal(Shown(pieces, mode, k - 1), pieces[k - 1], mode)
  }

  /** In character mode, `k` ticks show exactly the first `k` characters. */
  lemma {:induction false} CharacterShown(text: string, k: nat)
    requires k <= |text|
    ensures Shown(Pieces(text, Character), Character, k) == text[..k]
  {
    if k > 0 {
      CharacterShown(text, k - 1);
      assert text[..k] == text[..k - 1] + [text[k - 1]];
    }
  }

  /** A word-mode display is empty only while nothing but empty words has been revealed. */
  lemma {:induction false} ShownNonEmpty(pieces: seq<string>, k: nat)
    requires 1 <= k <= |pieces| && pieces[0] != ""
    ensures Shown(pieces, Word, k) != ""
  {
    if k > 1 {
      ShownNonEmpty(pieces, k - 1);
    }
  }

  /**
   * In word mode, when the first word is not empty, `k` ticks show the first `k` words joined by
   * single spaces.
   */
  lemma {:induction false} WordShown(pieces: seq<string>, k: nat)
    requires k <= |pieces| && (|pieces| > 0 ==> pieces[0] != "")
    ensures Shown(pieces, Word, k) == Join(pieces[..k], " ")
  {
    if k > 1 {
      WordShown(pieces, k - 1);
      ShownNonEmpty(pieces, k - 1);
      JoinSnoc(pieces[..k - 1], pieces[k - 1], " ");
      assert pieces[..k] == pieces[..k - 1] + [pieces[k - 1]];
    } else if k == 1 {
      assert pieces[..1] == [pieces[0]];
    }
  }

  /**
   * Once every piece is revealed the whole text shows; in word mode when the text is empty or does
   * not start with a space.
   */
  lemma Finished(text: string, mode: Mode)
    requires mode == Word ==> text == "" || Split(text, ' ')[0] != ""
    ensures Shown(Pieces(text, mode), mode, |Pieces(text, mode)|) == text
  {
    var pieces := Pieces(text, mode);
    if mode == Character {
      CharacterShown(text, |text|);
    } else if text == "" {
      assert pieces == [""];
    } else {
      WordShown(pieces, |pieces|);
      assert pieces[..|pieces|] == pieces;
      JoinSplit(text, ' ');
    }
  }

  /** A leading space is lost in word mode: the empty first word suppresses the separator. */
  lemma LeadingSpaceDropped()
    ensures Pieces(" a", Word) == ["", "a"]
    ensures Shown(Pieces(" a", Word), Word, 2) == "a"
  {
    SplitJoin(["", "a"], ' ');
    assert Join(["", "a"], " ") == " a" by {
      assert ["", "a"][1..] == ["a"];
    }
  }

  class TypingAnimation {
    var text: string
    var mode: Mode
    var textArray: seq<string>
    var displayedText: string
    var currentIndex: nat
    var hasStarted: bool

    /** The pieces belong to the current text, and what shows is what the ticks so far revealed. */
    ghost predicate Valid()
      reads this
    {
      textArray == Pieces(text, mode)
      && currentIndex <= |textArray|
      && displayedText == Shown(textArray, mode, currentIndex)
    }

    /** A fresh component: nothing shown, waiting for the start delay. */
    constructor (text: string, mode: Mode)
      ensures Valid()
      ensures this.text == text && this.mode == mode && textArray == Pieces(text, mode)
      ensures displayedText == "" && currentIndex == 0 && !hasStarted
    {
      this.text := text;
      this.mode := mode;
      textArray := Pieces(text, mode);
      displayedText := "";
      currentIndex := 0;
      hasStarted := false;
    }

    /** The start-delay timer firing. */
    method Start()
      requires Valid()
      modifies this
      ensures Valid() && hasStarted
      ensures text == old(text) && mode == old(mode) && textArray == old(textArray)
      ensures displayedText == old(displayedText) && currentIndex == old(currentIndex)
    {
      hasStarted := true;
    }

    /** The cursor shows while typing is under way. */
    function ShowsCursor(): bool
      reads this
    {
      hasStarted && currentIndex < |textArray|
    }

    /** `onComplete` is called (whether or not typing has started) once every piece is out. */
    function CompletionDue(): bool
      reads this
    {
      currentIndex >= |textArray|
    }

    /** One typing timer firing: the next piece is revealed and the index moves on, if any is left. */
    method Tick()
      requires Valid()
      modifies this
      ensures Valid()
      ensures text == old(text) && mode == old(mode) && textArray == old(textArray) && hasStarted == old(hasStarted)
      ensures old(ShowsCursor()) ==>
                currentIndex == old(currentIndex) + 1
                && displayedText == Reveal(old(displayedText), textArray[old(currentIndex)], mode)
      ensures !old(ShowsCursor()) ==> currentIndex == old(currentIndex) && displayedText == old(displayedText)
    {
      if hasStarted && currentIndex < |textArray| {
        displayedText := Reveal(displayedText, textArray[currentIndex], mode);
        currentIndex := currentIndex + 1;
      }
    }

    /** A new `text`: the pieces are recut and the display, the index and the start flag reset. */
    method ChangeText(t: string)
      requires Valid()
      modifies this
      ensures Valid()
      ensures text == t && mode == old(mode) && textArray == Pieces(t, mode)
      ensures displayedText == "" && currentIndex == 0 && !hasStarted
    {
      text := t;
      textArray := Pieces(t, mode);
      displayedText := "";
      currentIndex := 0;
      hasStarted := false;
    }
  }

  /** Ticking from the start reveals the text piece by piece, and the cursor goes once it is all out. */
  method TypeOut(text: string, mode: Mode) returns (shown: string)
    requires mode == Word ==> text == "" || Split(text, ' ')[0] != ""
    ensures shown == text
  {
    var t := new TypingAnimation(text, mode);
    t.Start();
    while t.ShowsCursor()
      invariant t.Valid() && t.hasStarted && t.text == text && t.mode == mode
      decreases |t.textArray| - t.currentIndex
    {
      t.Tick();
    }
    Finished(text, mode);
    shown := t.displayedText;
  }
}
