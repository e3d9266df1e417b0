/**
 * The streaming reader shared by law-gpt-frontend/src/App_Simple.tsx and
 * law-gpt-frontend/src/ConnectionTest.tsx: each decoded chunk is split on newlines, every
 * `data: ` line is parsed as JSON, `response` fragments are accumulated, and `done` stops reading.
 * `JSON.parse` is a parameter; `None` stands for a line it rejects (or whose value has no fields).
 */
module EventStream {
  import opened Wrappers
  import opened Text
  import opened Http

  /** The fields of a streamed event the readers look at. */
  datatype Event = Event(response: Option<string>, done: bool)

  const DataPrefix: string := "data: "

  /** `line.startsWith('data: ') ? line.slice(6) : skipped` */
  function Payload(line: string): (r: Option<string>)
    ensures r.Some? <==> StartsWith(line, DataPrefix)
    ensures r.Some? ==> line == DataPrefix + r.value
  {
    if StartsWith(line, DataPrefix) then Some(line[6..]) else None
  }

  /** The event a line carries, if it is a `data: ` line that parses. */
  function LineEvent(line: string, parse: string -> Option<Event>): Option<Event> {
    match Payload(line)
    case None => None
    case Some(p) => parse(p)
  }

  /** The text an event adds: its `response` when truthy, nothing otherwise. */
  function Fragment(e: Event): string {
    if Truthy(e.response) then e.response.value else ""
  }

  /**
   * What the reader has after some lines: `fullResponse`, the successive values it pushed to the
   * screen (one per truthy fragment), and whether a `done` event has ended the reading.
   */
  datatype Progress = Progress(text: string, updates: seq<string>, stopped: bool)

  const Start: Progress := Progress("", [], false)

  /** The body of the inner `for`: one line read in the state so far. */
  function Feed(p: Progress, line: string, parse: string -> Option<Event>): Progress {
    if p.stopped then p
    else
      match LineEvent(line, parse)
      case None => p
      case Some(e) =>
        if Truthy(e.response) then Progress(p.text + e.response.value, p.updates + [p.text + e.response.value], e.done)
        else Progress(p.text, p.updates, e.done)
  }

  /** The lines read, in order: the reader's whole history is a left fold of `Feed`. */
  function Consume(lines: seq<string>, parse: string -> Option<Event>): Progress
    decreases |lines|
  {
    if lines == [] then Start
    else Feed(Consume(lines[..|lines| - 1], parse), lines[|lines| - 1], parse)
  }

  /** Every line of every chunk, each chunk split on its own. */
  function AllLines(chunks: seq<string>): seq<string>
    decreases |chunks|
  {
    if chunks == [] then []
    else AllLines(chunks[..|chunks| - 1]) + Split(chunks[|chunks| - 1], '\n')
  }

  lemma ConsumeSnoc(lines: seq<string>, line: string, parse: string -> Option<Event>)
    ensures Consume(lines + [line], parse) == Feed(Consume(lines, parse), line, parse)
  {
    assert (lines + [line])[..|lines|] == lines;
  }

  /** Once `done` has been seen, no later line changes anything. */
  lemma {:induction false} ConsumeStopped(xs: seq<string>, ys: seq<string>, parse: string -> Option<Event>)
    requires Consume(xs, parse).stopped
    ensures Consume(xs + ys, parse) == Consume(xs, parse)
    decreases |ys|
  {
    if ys == [] {
      assert xs + ys == xs;
    } else {
      var init := ys[..|ys| - 1];
      assert xs + ys == (xs + init) + [ys[|ys| - 1]];
      ConsumeStopped(xs, init, parse);
      ConsumeSnoc(xs + init, ys[|ys| - 1], parse);
    }
  }

  lemma AllLinesSnoc(chunks: seq<string>, i: nat)
    requires i < |chunks|
    ensures AllLines(chunks[..i + 1]) == AllLines(chunks[..i]) + Split(chunks[i], '\n')
  {
    assert chunks[..i + 1][..i] == chunks[..i];
  }

  lemma {:induction false} AllLinesAppend(xs: seq<string>, ys: seq<string>)
    ensures AllLines(xs + ys) == AllLines(xs) + AllLines(ys)
    decreases |ys|
  {
    if ys == [] {
      assert xs + ys == xs;
    } else {
      var init := ys[..|ys| - 1];
      assert (xs + ys)[..|xs + ys| - 1] == xs + init;
      AllLinesAppend(xs, init);
    }
  }

  /** A line that is not a `data: ` line, or that does not parse, leaves the reader as it was. */
  lemma SkippedLine(lines: seq<string>, line: string, parse: string -> Option<Event>)
    requires !StartsWith(line, DataPrefix) || parse(line[6..]).None?
    ensures Consume(lines + [line], parse) == Consume(lines, parse)
  {
    ConsumeSnoc(lines, line, parse);
  }

  /**
   * A parsed line before any `done`: its truthy fragment is appended (and pushed to the screen), and
   * a `done` on the same line stops the reader after that fragment is taken.
   */
  lemma AcceptedLine(lines: seq<string>, line: string, parse: string -> Option<Event>)
    requires !Consume(lines, parse).stopped && LineEvent(line, parse).Some?
    ensures var p := Consume(lines, parse);
            var e := LineEvent(line, parse).value;
            var q := Consume(lines + [line], parse);
            && q.text == p.text + Fragment(e) && q.stopped == e.done
            && (Truthy(e.response) ==> q.updates == p.updates + [q.text])
            && (!Truthy(e.response) ==> q.updates == p.updates)
  {
    ConsumeSnoc(lines, line, parse);
  }

  /**
   * The screen only ever grows by extension: every value pushed extends every earlier one, and the
   * last value pushed is the accumulated text (which is empty when nothing was pushed).
   */
  lemma {:induction false} UpdatesExtend(lines: seq<string>, parse: string -> Option<Event>)
    ensures var p := Consume(lines, parse);
            && (p.updates == [] ==> p.text == "")
            && (p.updates != [] ==> p.updates[|p.updates| - 1] == p.text)
            && (forall i, j :: 0 <= i <= j < |p.updates| ==> StartsWith(p.updates[j], p.updates[i]))
    decreases |lines|
  {
    if lines != [] {
      var init := lines[..|lines| - 1];
      UpdatesExtend(init, parse);
      var p := Consume(init, parse);
      var q := Consume(lines, parse);
      if !p.stopped && LineEvent(lines[|lines| - 1], parse).Some? && q.updates != p.updates {
        forall i, j | 0 <= i <= j < |q.updates| ensures StartsWith(q.updates[j], q.updates[i]) {
          if j == |p.updates| && i < j {
            assert StartsWith(p.text, p.updates[i]);
            assert q.updates[j] == p.text + Fragment(LineEvent(lines[|lines| - 1], parse).value);
            assert q.updates[j][..|p.updates[i]|] == p.text[..|p.updates[i]|];
          }
        }
      }
    }
  }

  /**
   * An independent reading of the same protocol, front to back: the fragments of the parsed lines up
   * to and including the first `done`.
   */
  function Transcript(lines: seq<string>, parse: string -> Option<Event>): string
    decreases |lines|
  {
    if lines == [] then ""
    else
      match LineEvent(lines[0], parse)
      case None => Transcript(lines[1..], parse)
      case Some(e) => Fragment(e) + (if e.done then "" else Transcript(lines[1..], parse))
  }

  /** Whether some `data: ` line parses to an event with `done` set. */
  predicate SaysDone(lines: seq<string>, parse: string -> Option<Event>) {
    exists i :: 0 <= i < |lines| && LineEvent(lines[i], parse).Some? && LineEvent(lines[i], parse).value.done
  }

  /** What the front-to-back reading still adds after a reader in state `p`, with `ys` unread. */
  function Remaining(p: Progress, ys: seq<string>, parse: string -> Option<Event>): string {
    if p.stopped then "" else Transcript(ys, parse)
  }

  lemma TranscriptCons(l: string, ys: seq<string>, parse: string -> Option<Event>)
    ensures LineEvent(l, parse).None? ==> Transcript([l] + ys, parse) == Transcript(ys, parse)
    ensures LineEvent(l, parse).Some? && LineEvent(l, parse).value.done ==>
              Transcript([l] + ys, parse) == Fragment(LineEvent(l, parse).value)
    ensures LineEvent(l, parse).Some? && !LineEvent(l, parse).value.done ==>
              Transcript([l] + ys, parse) == Fragment(LineEvent(l, parse).value) + Transcript(ys, parse)
  {
    assert ([l] + ys)[0] == l && ([l] + ys)[1..] == ys;
  }

  /** Reading one more line moves its contribution from the unread part to the reader's text. */
  lemma ReadOneLine(p: Progress, l: string, ys: seq<string>, parse: string -> Option<Event>)
    ensures p.text + Remaining(p, [l] + ys, parse) == Feed(p, l, parse).text + Remaining(Feed(p, l, parse), ys, parse)
  {
    TranscriptCons(l, ys, parse);
    var e := LineEvent(l, parse);
    if !p.stopped && e.Some? {
      var f := Fragment(e.value);
      var q := Feed(p, l, parse);
      assert q.text == p.text + f && q.stopped == e.value.done;
      if e.value.done {
        assert (p.text + f) + "" == p.text + f;
      } else {
        assert p.text + (f + Transcript(ys, parse)) == (p.text + f) + Transcript(ys, parse);
      }
    }
  }

  lemma {:induction false} ConsumeThenTranscript(xs: seq<string>, ys: seq<string>, parse: string -> Option<Event>)
    ensures Transcript(xs + ys, parse) == Consume(xs, parse).text + Remaining(Consume(xs, parse), ys, parse)
    decreases |xs|
  {
    if xs == [] {
      assert xs + ys == ys;
    } else {
      var init := xs[..|xs| - 1];
      var l := xs[|xs| - 1];
      ConsumeThenTranscript(init, [l] + ys, parse);
      assert xs == init + [l];
      assert xs + ys == init + ([l] + ys);
      ConsumeSnoc(init, l, parse);
      ReadOneLine(Consume(init, parse), l, ys, parse);
    }
  }

  lemma {:induction false} StoppedIffDone(lines: seq<string>, parse: string -> Option<Event>)
    ensures Consume(lines, parse).stopped <==> SaysDone(lines, parse)
    decreases |lines|
  {
    if lines != [] {
      var n := |lines| - 1;
      var init := lines[..n];
      StoppedIffDone(init, parse);
      assert forall i :: 0 <= i < n ==> init[i] == lines[i];
      if SaysDone(lines, parse) {
        var i :| 0 <= i < |lines| && LineEvent(lines[i], parse).Some? && LineEvent(lines[i], parse).value.done;
        assert i < n ==> SaysDone(init, parse);
      }
    }
  }

  /**
   * The reader agrees with the front-to-back reading: its text is the fragments up to the first
   * `done`, and it stops exactly when some line says `done`.
   */
  lemma ConsumeMatchesTranscript(lines: seq<string>, parse: string -> Option<Event>)
    ensures Consume(lines, parse).text == Transcript(lines, parse)
    ensures Consume(lines, parse).stopped <==> SaysDone(lines, parse)
  {
    ConsumeThenTranscript(lines, [], parse);
    assert lines + [] == lines;
    assert Consume(lines, parse).text + "" == Consume(lines, parse).text;
    StoppedIffDone(lines, parse);
  }

  /** A reader stopped inside chunk `i` at line `j` has already got what the whole stream gives. */
  lemma StopEarly(chunks: seq<string>, i: nat, j: nat, parse: string -> Option<Event>)
    requires i < |chunks| && j < |Split(chunks[i], '\n')|
    requires Consume(AllLines(chunks[..i]) + Split(chunks[i], '\n')[..j + 1], parse).stopped
    ensures Consume(AllLines(chunks), parse) == Consume(AllLines(chunks[..i]) + Split(chunks[i], '\n')[..j + 1], parse)
  {
    var lines := Split(chunks[i], '\n');
    var done, rest := AllLines(chunks[..i]), AllLines(chunks[i + 1..]);
    var l1, l2 := lines[..j + 1], lines[j + 1..];
    AllLinesSnoc(chunks, i);
    assert chunks == chunks[..i + 1] + chunks[i + 1..];
    AllLinesAppend(chunks[..i + 1], chunks[i + 1..]);
    assert AllLines(chunks) == done + lines + rest;
    assert lines == l1 + l2;
    SeqRegroup(done, l1, l2, rest);
    ConsumeStopped(done + l1, l2 + rest, parse);
  }

  lemma ExtendSlice(a: seq<string>, s: seq<string>, j: nat)
    requires j < |s|
    ensures a + s[..j] + [s[j]] == a + s[..j + 1]
  {
    assert s[..j + 1] == s[..j] + [s[j]];
  }

  lemma SeqRegroup(a: seq<string>, b: seq<string>, c: seq<string>, d: seq<string>)
    ensures a + (b + c) + d == (a + b) + (c + d)
  {
  }

  /**
   * The `while (true)` reader loop with its inner `for` over lines; on `done` it returns at once.
   * `chunks` are the decoded reads of the body, in order.
   */
  method Ingest(chunks: seq<string>, parse: string -> Option<Event>)
    returns (text: string, updates: seq<string>, stopped: bool)
    ensures Progress(text, updates, stopped) == Consume(AllLines(chunks), parse)
  {
    text, updates, stopped := "", [], false;
    var i := 0;
    while i < |chunks|
      invariant 0 <= i <= |chunks|
      invariant Consume(AllLines(chunks[..i]), parse) == Progress(text, updates, false)
    {
      var lines := Split(chunks[i], '\n');
      var j := 0;
      assert AllLines(chunks[..i]) + lines[..0] == AllLines(chunks[..i]);
      while j < |lines|
        invariant 0 <= j <= |lines|
        invariant Consume(AllLines(chunks[..i]) + lines[..j], parse) == Progress(text, updates, false)
      {
        var line := lines[j];
        var before := AllLines(chunks[..i]) + lines[..j];
        ExtendSlice(AllLines(chunks[..i]), lines, j);
        ConsumeSnoc(before, line, parse);
        if StartsWith(line, DataPrefix) {
          var data := parse(line[6..]);
          if data.Some? {
            if Truthy(data.value.response) {
              text := text + data.value.response.value;
              updates := updates + [text];
            }
            if data.value.done {
              stopped := true;
              StopEarly(chunks, i, j, parse);
              return;
            }
          }
        }
        j := j + 1;
      }
      AllLinesSnoc(chunks, i);
      assert lines[..j] == lines;
      i := i + 1;
    }
    assert chunks[..i] == chunks;
  }

  /** A stream of single-line chunks reads as those lines, one per chunk. */
  lemma {:induction false} LinesOfLineChunks(chunks: seq<string>)
    requires forall i :: 0 <= i < |chunks| ==> '\n' !in chunks[i]
    ensures AllLines(chunks) == chunks
    decreases |chunks|
  {
    if chunks != [] {
      var n := |chunks| - 1;
      LinesOfLineChunks(chunks[..n]);
      OneLine(chunks[n]);
      assert chunks == chunks[..n] + [chunks[n]];
    }
  }

  /** Two lines that neither parse nor say `done` leave the reader at its start. */
  lemma TwoSkipped(a: string, b: string, parse: string -> Option<Event>)
    requires LineEvent(a, parse).None? && LineEvent(b, parse).None?
    ensures Consume([a, b], parse) == Start
  {
    assert [a, b][..1] == [a] && [a][..0] == [];
    assert Consume([a], parse) == Start;
  }

  /**
   * Each chunk is split on its own, so a `data: ` line that arrives in two reads is lost: sent whole
   * it yields its fragment, cut after `dat` nothing at all is taken from it.
   */
  lemma SplitLineIsLost(payload: string, parse: string -> Option<Event>)
    requires '\n' !in payload && parse(payload).Some?
    ensures Consume(AllLines([DataPrefix + payload]), parse).text == Fragment(parse(payload).value)
    ensures Consume(AllLines(["dat", "a: " + payload]), parse) == Start
  {
    var whole, first, second := DataPrefix + payload, "dat", "a: " + payload;
    assert whole[..6] == DataPrefix && whole[6..] == payload;
    assert '\n' !in whole && '\n' !in second by {
      assert forall k :: 0 <= k < |whole| ==> whole[k] != '\n' by {
        forall k | 0 <= k < |whole| ensures whole[k] != '\n' {
          if k >= 6 { assert whole[k] == payload[k - 6]; }
        }
      }
      assert forall k :: 0 <= k < |second| ==> second[k] != '\n' by {
        forall k | 0 <= k < |second| ensures second[k] != '\n' {
          if k >= 3 { assert second[k] == payload[k - 3]; }
        }
      }
    }
    LinesOfLineChunks([whole]);
    LinesOfLineChunks([first, second]);
    assert [whole][..0] == [];
    assert Consume([whole], parse) == Feed(Start, whole, parse);
    assert second[0] == 'a';
    assert !StartsWith(first, DataPrefix) && !StartsWith(second, DataPrefix);
    TwoSkipped(first, second, parse);
  }

  /** A chunk without a newline is a single line. */
  lemma OneLine(s: string)
    requires '\n' !in s
    ensures Split(s, '\n') == [s]
  {
    SplitJoin([s], '\n');
  }

  /** A streamed `/chat` request: a rejected `fetch`, or a status with the body's chunks (`None`: no reader). */
  type StreamReply = Reply<Option<seq<string>>>

  /**
   * The text of the error thrown before any reading starts, if one is: the `fetch` rejection itself,
   * the `HTTP error! status: N` error on a status outside 200-299, or `No response body`.
   */
  function StreamFailure(reply: StreamReply): (r: Option<string>)
    ensures r.None? <==> reply.Responded? && IsOk(reply.status) && reply.body.Some?
    ensures reply.Responded? && !IsOk(reply.status) ==> r == Some(HttpErrorText(reply.status))
  {
    match reply
    case NetworkFailure(e) => Some(e)
    case Responded(status, body) =>
      if !IsOk(status) then Some(HttpErrorText(status))
      else if body.None? then Some(ErrorText("No response body"))
      else None
  }
}
