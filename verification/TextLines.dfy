/** Pull-based line input: lines come out the same however the decoded text is cut into chunks. */
module TextLines {
  const MaxLineBytes: nat := 1024 * 1024

  /** The length of a character's UTF-8 encoding. */
  function CharBytes(c: char): nat {
    if c as int < 0x80 then 1 else if c as int < 0x800 then 2 else if c as int < 0x10000 then 3 else 4
  }

  function Bytes(text: string): nat {
    if text == "" then 0 else Bytes(text[..|text| - 1]) + CharBytes(text[|text| - 1])
  }

  lemma {:induction false} BytesAdd(a: string, b: string)
    ensures Bytes(a + b) == Bytes(a) + Bytes(b)
    decreases |b|
  {
    if b == "" {
      assert a + b == a;
    } else {
      assert (a + b)[..|a + b| - 1] == a + b[..|b| - 1];
      BytesAdd(a, b[..|b| - 1]);
    }
  }

  // ---------------------------------------------------------------- what the lines of a text are

  predicate IsBreak(c: char) { c == '\r' || c == '\n' }

  predicate Plain(text: string) { forall i :: 0 <= i < |text| ==> !IsBreak(text[i]) }

  /** Every CRLF and every lone CR becomes one LF. */
  function Normalised(text: string): string
    decreases |text|
  {
    if text == "" then ""
    else if text[0] == '\r' then "\n" + Normalised(if |text| > 1 && text[1] == '\n' then text[2..] else text[1..])
    else [text[0]] + Normalised(text[1..])
  }

  /** The first position of LF, or the length. */
  function FirstLF(text: string): (i: nat)
    ensures i <= |text| && (i < |text| ==> text[i] == '\n') && (forall j :: 0 <= j < i ==> text[j] != '\n')
  {
    if text == "" || text[0] == '\n' then 0 else FirstLF(text[1..]) + 1
  }

  /** Splits on LF; a non-empty unterminated tail is a line, an empty one is not. */
  function SplitLF(text: string): seq<string>
    decreases |text|
  {
    var i := FirstLF(text);
    if i < |text| then [text[..i]] + SplitLF(text[i + 1..])
    else if text == "" then []
    else [text]
  }

  function Lines(text: string): seq<string> { SplitLF(Normalised(text)) }

  // ---------------------------------------------------------------- lines, one break at a time

  /** The first CR or LF, or the length. */
  function FirstBreak(text: string): (i: nat)
    ensures i <= |text| && (i < |text| ==> IsBreak(text[i])) && Plain(text[..i])
  {
    if text == "" || IsBreak(text[0]) then 0
    else
      var i := FirstBreak(text[1..]) + 1;
      assert text[..i] == [text[0]] + text[1..][..i - 1];
      i
  }

  /** What is left after a break: an LF right behind a CR belongs to it. */
  function AfterBreak(skipLF: bool, rest: string): string {
    if skipLF && rest != "" && rest[0] == '\n' then rest[1..] else rest
  }

  lemma {:induction false} NormalisedPlain(head: string, rest: string)
    requires Plain(head)
    ensures Normalised(head + rest) == head + Normalised(rest)
    decreases |head|
  {
    if head == "" {
      assert head + rest == rest;
    } else {
      assert (head + rest)[1..] == head[1..] + rest;
      NormalisedPlain(head[1..], rest);
    }
  }

  lemma {:induction false} FirstLFPlain(head: string, rest: string)
    requires Plain(head)
    ensures FirstLF(head + "\n" + rest) == |head|
    ensures FirstLF(head) == |head|
    decreases |head|
  {
    if head != "" {
      assert (head + "\n" + rest)[1..] == head[1..] + "\n" + rest;
      FirstLFPlain(head[1..], rest);
    }
  }

  lemma NormalisedBreak(rest: string)
    requires rest != "" && IsBreak(rest[0])
    ensures Normalised(rest) == "\n" + Normalised(AfterBreak(rest[0] == '\r', rest[1..]))
  {
    if rest[0] == '\r' && |rest| > 1 && rest[1] == '\n' { assert rest[2..] == rest[1..][1..]; }
  }

  lemma SplitAtLF(head: string, rest: string)
    requires Plain(head)
    ensures SplitLF(head + "\n" + rest) == [head] + SplitLF(rest)
  {
    FirstLFPlain(head, rest);
    var whole := head + "\n" + rest;
    assert whole[..|head|] == head && whole[|head| + 1..] == rest;
  }

  lemma NormalisedAt(text: string, i: nat)
    requires i < |text| && Plain(text[..i]) && IsBreak(text[i])
    ensures Normalised(text) == text[..i] + "\n" + Normalised(AfterBreak(text[i] == '\r', text[i + 1..]))
  {
    assert text == text[..i] + text[i..] && text[i..][1..] == text[i + 1..];
    NormalisedPlain(text[..i], text[i..]);
    NormalisedBreak(text[i..]);
  }

  /** The incremental view agrees with the definition: cut at the first break, continue behind it. */
  lemma NextLine(text: string)
    ensures var i := FirstBreak(text);
            Lines(text) ==
              if i < |text| then [text[..i]] + Lines(AfterBreak(text[i] == '\r', text[i + 1..]))
              else if text == "" then [] else [text]
  {
    var i := FirstBreak(text);
    if i < |text| {
      NormalisedAt(text, i);
      SplitAtLF(text[..i], Normalised(AfterBreak(text[i] == '\r', text[i + 1..])));
    } else {
      assert text[..i] == text && text + "" == text;
      NormalisedPlain(text, "");
      FirstLFPlain(text, "");
    }
  }

  lemma {:induction false} BreakBehind(head: string, rest: string)
    requires Plain(head)
    ensures FirstBreak(head + rest) == |head| + FirstBreak(rest)
    decreases |head|
  {
    if head == "" {
      assert head + rest == rest;
    } else {
      assert (head + rest)[1..] == head[1..] + rest;
      BreakBehind(head[1..], rest);
    }
  }

  /** Plain text up to a break is the first line. */
  lemma LineFound(text: string, head: string, rest: string)
    requires Plain(head) && rest != "" && IsBreak(rest[0]) && text == head + rest
    ensures FirstBreak(text) == |head|
    ensures Lines(text) == [head] + Lines(AfterBreak(rest[0] == '\r', rest[1..]))
  {
    BreakBehind(head, rest);
    NextLine(text);
    assert text[..|head|] == head && text[|head| + 1..] == rest[1..];
  }

  /** Plain text that is already too long makes the first line too long. */
  lemma LineTooLong(text: string, head: string, rest: string)
    requires Plain(head) && text == head + rest && Bytes(head) > MaxLineBytes
    ensures Lines(text) != [] && Bytes(Lines(text)[0]) > MaxLineBytes
  {
    BreakBehind(head, rest);
    NextLine(text);
    var i := FirstBreak(text);
    var more := text[|head|..i];
    assert text[..i] == head + more;
    BytesAdd(head, more);
    assert i == |text| ==> text[..i] == text;
  }

  lemma LineLast(text: string)
    requires Plain(text)
    ensures FirstBreak(text) == |text| && Lines(text) == if text == "" then [] else [text]
  {
    assert text + "" == text;
    BreakBehind(text, "");
    NextLine(text);
  }

  // ---------------------------------------------------------------- the reader

  datatype Outcome = Line(text: string) | End | Failure

  datatype Verdict = Undecided | Decided(outcome: Outcome)

  function Concat(chunks: seq<string>): string {
    if chunks == [] then "" else chunks[0] + Concat(chunks[1..])
  }

  /** What one call returns from the remaining text: its first line, unless that line is too long or, on a stream
      that breaks, not ended by a break; and what then remains. */
  ghost predicate Delivers(text: string, broken: bool, r: Outcome, left: string) {
    var lines := Lines(text);
    if broken && FirstBreak(text) == |text| then r == Failure
    else if lines == [] then r == End && Lines(left) == []
    else if Bytes(lines[0]) > MaxLineBytes then r == Failure
    else r == Line(lines[0]) && Lines(left) == lines[1..]
  }

  /** An LF skipped at the head of a non-empty buffer is the LF skipped in the whole remaining text. */
  lemma SkipOnce(pending: string, more: string)
    requires pending != ""
    ensures AfterBreak(true, pending + more) == AfterBreak(true, pending) + more
  {
  }

  lemma Unread(line: string, pending: string, boundary: nat, more: string)
    requires boundary <= |pending|
    ensures line + (pending + more) == (line + pending[..boundary]) + (pending[boundary..] + more)
  {
    assert pending == pending[..boundary] + pending[boundary..];
  }

  /** The fields that reading a line consumes. */
  datatype Buffer = Buffer(pending: string, skipLF: bool, chunks: seq<string>, tail: string, closed: bool)
  {
    /** What the stream still holds. */
    ghost function More(): string { Concat(chunks) + tail }

    /** The text that has not been returned yet. */
    ghost function Text(): string { AfterBreak(skipLF, pending + More()) }

    ghost predicate Valid(broken: bool) {
      && (broken ==> tail == "")
      && (closed ==> chunks == [] && tail == "" && !broken)
    }
  }

  lemma TooLongFails(text: string, head: string, rest: string, broken: bool, left: string)
    requires Plain(head) && text == head + rest && Bytes(head) > MaxLineBytes
    ensures Delivers(text, broken, Failure, left)
  {
    LineTooLong(text, head, rest);
  }

  lemma BreakDelivers(text: string, head: string, rest: string, broken: bool, left: string)
    requires Plain(head) && rest != "" && IsBreak(rest[0]) && text == head + rest && Bytes(head) <= MaxLineBytes
    requires left == AfterBreak(rest[0] == '\r', rest[1..])
    ensures Delivers(text, broken, Line(head), left)
  {
    LineFound(text, head, rest);
  }

  lemma EndDelivers(line: string, broken: bool)
    requires Plain(line) && Bytes(line) <= MaxLineBytes
    ensures Delivers(line, broken, if broken then Failure else if line != "" then Line(line) else End, "")
  {
    LineLast(line);
  }

  /** Cutting the buffer at its first break cuts the remaining text there. */
  lemma CutBuffer(line: string, b: Buffer, i: nat)
    requires (b.skipLF ==> b.pending == "") && i <= |b.pending|
    ensures line + b.Text() == (line + b.pending[..i]) + (if b.skipLF then b.Text() else b.pending[i..] + b.More())
    ensures i == |b.pending| ==> b.(pending := "").Text() == if b.skipLF then b.Text() else b.pending[i..] + b.More()
  {
    if b.skipLF {
      assert line + b.pending[..i] == line;
    } else {
      Unread(line, b.pending, i, b.More());
    }
  }

  /** Takes the next chunk into the empty buffer, or what the decoder held back once the stream ends. */
  method Refill(b: Buffer, broken: bool) returns (next: Buffer)
    requires b.Valid(broken) && b.pending == "" && !b.closed && (b.chunks != [] || !broken)
    ensures next.Valid(broken) && next.skipLF == b.skipLF && next.Text() == b.Text()
    ensures |next.chunks| < |b.chunks| || (next.chunks == b.chunks && next.closed)
  {
    if b.chunks != [] {
      assert "" + (Concat(b.chunks) + b.tail) == b.chunks[0] + (Concat(b.chunks[1..]) + b.tail);
      next := b.(pending := b.chunks[0], chunks := b.chunks[1..]);
    } else {
      next := b.(pending := b.tail, tail := "", closed := true);
      assert "" + (Concat(b.chunks) + b.tail) == b.tail + (Concat(b.chunks) + "");
    }
  }

  /** Drops the LF of a CRLF whose CR ended the previous line. */
  method SkipLF(b: Buffer) returns (next: Buffer)
    ensures next.Text() == b.Text() && next.chunks == b.chunks && next.tail == b.tail && next.closed == b.closed
    ensures next.skipLF ==> next.pending == ""
    ensures b.skipLF || !next.skipLF
  {
    if !b.skipLF || b.pending == "" { return b; }
    SkipOnce(b.pending, b.More());
    next := b.(pending := if b.pending[0] == '\n' then b.pending[1..] else b.pending, skipLF := false);
  }

  /** Adds the buffer up to its first break to the line.  Either the call is decided, or the buffer is used up
      and the stream has more to give. */
  method Scan(ghost text: string, line: string, bytes: nat, b: Buffer,
      broken: bool) returns (r: Verdict, longer: string, total: nat, next: Buffer)
    requires b.Valid(broken) && Plain(line) && bytes == Bytes(line) && (b.skipLF ==> b.pending == "" && line == "")
             && line + b.Text() == text
    ensures next.Valid(broken) && next.chunks == b.chunks && next.closed == b.closed
    ensures r.Decided? ==> Delivers(text, broken, r.outcome, next.Text())
    ensures r.Undecided? ==>
              Plain(longer) && total == Bytes(longer) <= MaxLineBytes && longer + next.Text() == text
              && (next.skipLF ==> longer == "")
    ensures r.Undecided? ==> next.pending == "" && !next.closed && (next.chunks != [] || !broken)
  {
    var boundary := FirstBreak(b.pending);
    var part := b.pending[..boundary];
    ghost var rest := if b.skipLF then b.Text() else b.pending[boundary..] + b.More();
    CutBuffer(line, b, boundary);
    BytesAdd(line, part);
    total, longer, next := bytes + Bytes(part), line + part, b;
    if total > MaxLineBytes {
      TooLongFails(text, longer, rest, broken, b.Text());
      return Decided(Failure), longer, total, b;
    }
    if boundary < |b.pending| {
      assert rest[1..] == b.pending[boundary + 1..] + b.More();
      next := b.(skipLF := b.pending[boundary] == '\r', pending := b.pending[boundary + 1..]);
      BreakDelivers(text, longer, rest, broken, next.Text());
      return Decided(Line(longer)), longer, total, next;
    }
    next := b.(pending := "");
    if b.closed || (b.chunks == [] && broken) {
      assert next.Text() == "" && text == longer;
      EndDelivers(longer, broken);
      r := Decided(if broken then Failure else if longer != "" then Line(longer) else End);
    } else {
      r := Undecided;
    }
  }

  /** Reads buffers until a line ends, grows too long, or the stream does. */
  method Pull(start: Buffer, broken: bool) returns (r: Outcome, b: Buffer)
    requires start.Valid(broken)
    ensures b.Valid(broken) && Delivers(start.Text(), broken, r, b.Text())
  {
    b := start;
    var line, bytes := "", 0;
    ghost var text := start.Text();
    while true
      invariant b.Valid(broken) && Plain(line) && bytes == Bytes(line)
      invariant b.skipLF ==> line == ""
      invariant line + b.Text() == text
      decreases |b.chunks|, !b.closed
    {
      b := SkipLF(b);
      var decided;
      decided, line, bytes, b := Scan(text, line, bytes, b, broken);
      if decided.Decided? { return decided.outcome, b; }
      b := Refill(b, broken);
    }
  }

  /** The reader of a stream whose decoded chunks arrive one by one; `tail` is what the decoder holds back until
      the stream ends, and `broken` streams end in an error instead. */
  class TextLineInput {
    var pending: string
    var skipLF: bool
    var closed: bool
    var disposed: bool
    var failed: bool
    var chunks: seq<string>
    var tail: string
    var broken: bool

    constructor (chunks: seq<string>, tail: string, broken: bool)
      requires broken ==> tail == ""
      ensures Valid() && !failed && !disposed && this.broken == broken && Text() == Concat(chunks) + tail
    {
      pending, skipLF, closed, disposed, failed := "", false, false, false, false;
      this.chunks, this.tail, this.broken := chunks, tail, broken;
    }

    ghost predicate Valid()
      reads this
    {
      && (broken ==> tail == "")
      && (closed && !failed ==> chunks == [] && tail == "" && !broken)
    }

    ghost function Text(): string
      reads this
    {
      Buffer(pending, skipLF, chunks, tail, closed).Text()
    }

    /** Returns the next line of the remaining text and leaves the others. */
    method Next() returns (r: Outcome)
      requires Valid()
      modifies this
      ensures Valid() && disposed == old(disposed) && broken == old(broken)
      ensures old(disposed) ==> r == End && failed == old(failed)
      ensures !old(disposed) && old(failed) ==> r == Failure && failed
      ensures !old(disposed) && !old(failed) ==> failed == r.Failure? && Delivers(old(Text()), broken, r, Text())
    {
      if disposed { return End; }
      if failed { return Failure; }
      var b;
      r, b := Pull(Buffer(pending, skipLF, chunks, tail, closed), broken);
      pending, skipLF, chunks, tail, closed := b.pending, b.skipLF, b.chunks, b.tail, b.closed;
      failed := r.Failure?;
    }

    /** An error event between two calls: from now on every call fails, also if complete lines are still buffered. */
    method OnError()
      requires Valid()
      modifies this`failed, this`closed
      ensures Valid() && failed && closed && Text() == old(Text())
    {
      failed, closed := true, true;
    }

    method Dispose()
      modifies this
      ensures disposed
    {
      disposed := true;
      pending := "";
    }
  }

  // ---------------------------------------------------------------- whole sessions

  /** The lines a session gets: all of them, or those before the first that is too long. */
  function Accepted(lines: seq<string>): seq<string> {
    if lines == [] || Bytes(lines[0]) > MaxLineBytes then [] else [lines[0]] + Accepted(lines[1..])
  }

  predicate AllFit(lines: seq<string>) { forall i :: 0 <= i < |lines| ==> Bytes(lines[i]) <= MaxLineBytes }

  lemma {:induction false} AcceptedIsPrefix(lines: seq<string>)
    ensures var got := Accepted(lines);
            && got <= lines && AllFit(got)
            && (|got| < |lines| ==> Bytes(lines[|got|]) > MaxLineBytes)
    decreases |lines|
  {
    if lines != [] && Bytes(lines[0]) <= MaxLineBytes { AcceptedIsPrefix(lines[1..]); }
  }

  /** Asking for lines until none comes, a session gets the lines of the whole decoded text, and it fails exactly
      at the first line that is too long.  Nothing depends on how the text was cut into chunks. */
  method Drain(chunks: seq<string>, tail: string) returns (lines: seq<string>, failed: bool)
    ensures lines == Accepted(Lines(Concat(chunks) + tail))
    ensures failed <==> !AllFit(Lines(Concat(chunks) + tail))
  {
    var input := new TextLineInput(chunks, tail, false);
    ghost var all := Lines(Concat(chunks) + tail);
    ghost var left := all;
    lines := [];
    while true
      invariant input.Valid() && !input.failed && !input.disposed && !input.broken && fresh(input)
      invariant Lines(input.Text()) == left
      invariant Accepted(all) == lines + Accepted(left)
      invariant !AllFit(all) <==> !AllFit(left)
      decreases |left|
    {
      var r := input.Next();
      match r
      case Line(text) =>
        assert left == [left[0]] + left[1..];
        left := left[1..];
        lines := lines + [text];
      case End => return lines, false;
      case Failure => return lines, true;
    }
  }

  datatype Ending = LF | CR | CRLF

  function Mark(e: Ending): string {
    match e case LF => "\n" case CR => "\r" case CRLF => "\r\n"
  }

  /** Lines written out, each with its own ending. */
  function Woven(lines: seq<string>, endings: seq<Ending>): string
    requires |lines| == |endings|
  {
    if lines == [] then "" else lines[0] + Mark(endings[0]) + Woven(lines[1..], endings[1..])
  }

  /** A lone CR must not be followed by a line that begins with its LF ending. */
  predicate Unambiguous(lines: seq<string>, endings: seq<Ending>)
    requires |lines| == |endings|
  {
    forall i :: 0 <= i < |lines| - 1 && endings[i].CR? && lines[i + 1] == "" ==> !endings[i + 1].LF?
  }

  predicate StartsWithLF(text: string) { text != "" && text[0] == '\n' }

  lemma AfterMark(e: Ending, rest: string)
    requires e.CR? ==> !StartsWithLF(rest)
    ensures var text := Mark(e) + rest;
            IsBreak(text[0]) && AfterBreak(text[0] == '\r', text[1..]) == rest
  {
  }

  lemma WovenStart(lines: seq<string>, endings: seq<Ending>)
    requires |lines| == |endings| && (forall i :: 0 <= i < |lines| ==> Plain(lines[i]))
    ensures StartsWithLF(Woven(lines, endings)) ==> lines != [] && lines[0] == "" && endings[0].LF?
  {
  }

  lemma OneMoreLine(head: string, e: Ending, rest: string)
    requires Plain(head) && (e.CR? ==> !StartsWithLF(rest))
    ensures Lines(head + Mark(e) + rest) == [head] + Lines(rest)
  {
    AfterMark(e, rest);
    assert head + Mark(e) + rest == head + (Mark(e) + rest);
    LineFound(head + Mark(e) + rest, head, Mark(e) + rest);
  }

  lemma UnambiguousTail(lines: seq<string>, endings: seq<Ending>)
    requires |lines| == |endings| > 0 && Unambiguous(lines, endings)
    ensures Unambiguous(lines[1..], endings[1..])
  {
    forall i | 0 <= i < |lines[1..]| - 1 && endings[1..][i].CR?
       && lines[1..][i + 1] == "" ensures !endings[1..][i + 1].LF? {
      assert endings[i + 1].CR? && lines[i + 2] == "";
    }
  }

  /** Reading back what was written gives the lines, whatever mix of endings was used. */
  lemma {:induction false} RoundTrip(lines: seq<string>, endings: seq<Ending>)
    requires |lines| == |endings| && Unambiguous(lines, endings)
    requires forall i :: 0 <= i < |lines| ==> Plain(lines[i])
    ensures Lines(Woven(lines, endings)) == lines
    decreases |lines|
  {
    if lines != [] {
      UnambiguousTail(lines, endings);
      RoundTrip(lines[1..], endings[1..]);
      WovenStart(lines[1..], endings[1..]);
      OneMoreLine(lines[0], endings[0], Woven(lines[1..], endings[1..]));
    }
  }
}
