/** The build-log writer: raw output chunks in, whole cleaned lines out. */
module LogStreaming {
  import opened Common
  import opened TextFraming

  datatype Source = Stdout | Stderr | System

  /** A line as handed to the writer. */
  datatype Line = Line(source: Source, text: string)

  const MAX_LINE_LENGTH := 2000
  const TRUNCATION_MARK := "...[truncated]"

  /** Whitespace, and the removal of escape sequences and secrets, are given. */
  datatype Cleaner = Cleaner(isSpace: char -> bool, sanitize: string -> string)

  function Clip(text: string): string {
    if |text| > MAX_LINE_LENGTH then text[..MAX_LINE_LENGTH] + TRUNCATION_MARK else text
  }

  /** The stream entries for lines handed to the writer: blank lines leave none. */
  function Stored(c: Cleaner, lines: seq<Line>): seq<Line> {
    if lines == [] then []
    else
      var last := lines[|lines| - 1];
      var rest := Stored(c, lines[..|lines| - 1]);
      if Trimmed(c.isSpace, last.text) == "" then rest
      else rest + [Line(last.source, Clip(c.sanitize(last.text)))]
  }

  predicate Blank(c: Cleaner, text: string) {
    forall ch :: ch in text ==> c.isSpace(ch)
  }

  /** The lines with something other than spaces in them, in order. */
  ghost function Written(c: Cleaner, lines: seq<Line>): seq<Line> {
    if lines == [] then []
    else
      var last := lines[|lines| - 1];
      Written(c, lines[..|lines| - 1]) + (if Blank(c, last.text) then [] else [last])
  }

  /** What the stream keeps of a line: all of its sanitised text, or the first 2000 characters and the marker. */
  predicate Keeps(c: Cleaner, line: Line, entry: Line) {
    var clean := c.sanitize(line.text);
    && entry.source == line.source
    && (|clean| <= 2000 ==> entry.text == clean)
    && (|clean| > 2000 ==> entry.text == clean[..2000] + "...[truncated]")
  }

  /** One entry for each line that is not blank, in order, with its source and its sanitised text. */
  lemma {:induction false} StoredSays(c: Cleaner, lines: seq<Line>)
    ensures |Stored(c, lines)| == |Written(c, lines)|
    ensures forall i :: 0 <= i < |Stored(c, lines)| ==> Keeps(c, Written(c, lines)[i], Stored(c, lines)[i])
  {
    if lines != [] {
      StoredSays(c, lines[..|lines| - 1]);
      BlankIff(c.isSpace, lines[|lines| - 1].text);
    }
  }

  /** What holds of every sanitised and clipped text holds of every stored one: no raw text gets through. */
  lemma NothingRawIsStored(c: Cleaner, lines: seq<Line>, safe: string -> bool)
    requires forall line: Line, entry: Line :: Keeps(c, line, entry) ==> safe(entry.text)
    ensures forall e :: e in Stored(c, lines) ==> safe(e.text)
  {
    StoredSays(c, lines);
    forall e | e in Stored(c, lines) ensures safe(e.text) {
      var i :| 0 <= i < |Stored(c, lines)| && Stored(c, lines)[i] == e;
      assert Keeps(c, Written(c, lines)[i], e);
    }
  }

  lemma {:induction false} StoredLengths(c: Cleaner, lines: seq<Line>)
    ensures forall e :: e in Stored(c, lines) ==> |e.text| <= MAX_LINE_LENGTH + |TRUNCATION_MARK|
    ensures |Stored(c, lines)| <= |lines|
  {
    if lines != [] { StoredLengths(c, lines[..|lines| - 1]); }
  }

  // ---------- The writer on values ----------

  datatype Buffers = Buffers(out: string, err: string, written: seq<Line>)

  function Tagged(source: Source, texts: seq<string>): seq<Line> {
    if texts == [] then [] else Tagged(source, texts[..|texts| - 1]) + [Line(source, texts[|texts| - 1])]
  }

  function BufferOf(b: Buffers, source: Source): string {
    if source == Stdout then b.out else if source == Stderr then b.err else ""
  }

  function WithBuffer(b: Buffers, source: Source, text: string): Buffers {
    if source == Stdout then b.(out := text) else if source == Stderr then b.(err := text) else b
  }

  function Fed(b: Buffers, source: Source, chunk: string): Buffers {
    var pieces := Split(BufferOf(b, source) + chunk, "\n");
    WithBuffer(b, source, Last(pieces)).(written := b.written + Tagged(source, Init(pieces)))
  }

  function FlushedOne(b: Buffers, source: Source): Buffers {
    if BufferOf(b, source) == "" then b
    else WithBuffer(b, source, "").(written := b.written + [Line(source, BufferOf(b, source))])
  }

  function Flushed(b: Buffers): Buffers {
    FlushedOne(FlushedOne(b, Stdout), Stderr)
  }

  datatype Input = Chunk(source: Source, text: string) | Event(text: string)

  function Take(b: Buffers, i: Input): Buffers {
    match i
    case Chunk(source, text) => if source == System then b else Fed(b, source, text)
    case Event(text) => b.(written := b.written + [Line(System, text)])
  }

  function TakeAll(b: Buffers, inputs: seq<Input>): Buffers {
    if inputs == [] then b
    else Take(TakeAll(b, inputs[..|inputs| - 1]), inputs[|inputs| - 1])
  }

  /** All text received from one source. */
  function TextFrom(source: Source, inputs: seq<Input>): string {
    if inputs == [] then ""
    else
      var last := inputs[|inputs| - 1];
      TextFrom(source, inputs[..|inputs| - 1]) + (if last.Chunk? && last.source == source then last.text else "")
  }

  function LinesFrom(source: Source, lines: seq<Line>): seq<string> {
    if lines == [] then []
    else
      var last := lines[|lines| - 1];
      LinesFrom(source, lines[..|lines| - 1]) + (if last.source == source then [last.text] else [])
  }

  function DropEmptyLast(pieces: seq<string>): seq<string>
    requires pieces != []
  {
    if Last(pieces) == "" then Init(pieces) else pieces
  }

  lemma {:induction false} LinesFromAppend(source: Source, a: seq<Line>, b: seq<Line>)
    ensures LinesFrom(source, a + b) == LinesFrom(source, a) + LinesFrom(source, b)
  {
    if b == [] {
      assert a + b == a;
    } else {
      assert (a + b)[..|a + b| - 1] == a + b[..|b| - 1];
      LinesFromAppend(source, a, b[..|b| - 1]);
    }
  }

  lemma {:induction false} LinesFromTagged(source: Source, tag: Source, texts: seq<string>)
    ensures LinesFrom(source, Tagged(tag, texts)) == if source == tag then texts else []
  {
    if texts != [] {
      var n := |texts| - 1;
      var before := Tagged(tag, texts[..n]);
      LinesFromTagged(source, tag, texts[..n]);
      assert (before + [Line(tag, texts[n])])[..|before|] == before;
      assert texts == texts[..n] + [texts[n]];
    }
  }

  /** What has been written and what is buffered are together the split of all text so far. */
  ghost predicate InStep(b: Buffers, source: Source, text: string) {
    LinesFrom(source, b.written) + [BufferOf(b, source)] == Split(text, "\n")
  }

  lemma FedLines(b: Buffers, source: Source, pieces: seq<string>)
    requires pieces != []
    ensures LinesFrom(source, b.written + Tagged(source, Init(pieces))) + [Last(pieces)]
            == LinesFrom(source, b.written) + pieces
  {
    var lines, init, last := LinesFrom(source, b.written), Init(pieces), [Last(pieces)];
    LinesFromAppend(source, b.written, Tagged(source, init));
    LinesFromTagged(source, source, init);
    assert LinesFrom(source, b.written + Tagged(source, init)) == lines + init;
    assert pieces == init + last;
    Regroup(lines, init, last);
  }

  lemma FedSame(b: Buffers, source: Source, chunk: string, text: string)
    requires source != System && InStep(b, source, text)
    ensures InStep(Fed(b, source, chunk), source, text + chunk)
  {
    SplitContinues(text, chunk, "\n", LinesFrom(source, b.written), BufferOf(b, source));
    FedLines(b, source, Split(BufferOf(b, source) + chunk, "\n"));
  }

  lemma FedOther(b: Buffers, other: Source, chunk: string, source: Source)
    requires source != System && other != System && source != other
    ensures LinesFrom(source, Fed(b, other, chunk).written) == LinesFrom(source, b.written)
    ensures BufferOf(Fed(b, other, chunk), source) == BufferOf(b, source)
  {
    var texts := Init(Split(BufferOf(b, other) + chunk, "\n"));
    LinesFromAppend(source, b.written, Tagged(other, texts));
    LinesFromTagged(source, other, texts);
  }

  lemma TakeKeepsStep(b: Buffers, i: Input, source: Source, text: string)
    requires source != System && InStep(b, source, text)
    ensures InStep(Take(b, i), source, text + if i.Chunk? && i.source == source then i.text else "")
  {
    assert text + "" == text;
    match i
    case Event(t) => LinesFromAppend(source, b.written, [Line(System, t)]);
    case Chunk(s, chunk) =>
      if s == source {
        FedSame(b, source, chunk, text);
      } else if s != System {
        FedOther(b, s, chunk, source);
      }
  }

  lemma {:induction false} AllInStep(inputs: seq<Input>, source: Source)
    requires source != System
    ensures InStep(TakeAll(Buffers("", "", []), inputs), source, TextFrom(source, inputs))
  {
    if inputs == [] {
      assert [] + [""] == Split("", "\n");
    } else {
      AllInStep(inputs[..|inputs| - 1], source);
      TakeKeepsStep(TakeAll(Buffers("", "", []), inputs[..|inputs| - 1]), inputs[|inputs| - 1], source,
                    TextFrom(source, inputs[..|inputs| - 1]));
    }
  }

  lemma FlushedLines(b: Buffers, source: Source, flushing: Source)
    requires source != System && flushing != System
    ensures LinesFrom(source, FlushedOne(b, flushing).written)
            == LinesFrom(source, b.written)
               + if source == flushing && BufferOf(b, source) != "" then [BufferOf(b, source)] else []
    ensures source != flushing ==> BufferOf(FlushedOne(b, flushing), source) == BufferOf(b, source)
  {
    LinesFromAppend(source, b.written, [Line(flushing, BufferOf(b, flushing))]);
  }

  lemma FlushedBoth(b: Buffers, source: Source)
    requires source != System
    ensures LinesFrom(source, Flushed(b).written) == DropEmptyLast(LinesFrom(source, b.written) + [BufferOf(b, source)])
  {
    FlushedLines(b, source, Stdout);
    FlushedLines(FlushedOne(b, Stdout), source, Stderr);
    DropOrKeep(LinesFrom(source, b.written), BufferOf(b, source));
  }

  lemma DropOrKeep(lines: seq<string>, last: string)
    ensures DropEmptyLast(lines + [last]) == lines + if last != "" then [last] else []
  {
    assert Init(lines + [last]) == lines && Last(lines + [last]) == last;
  }

  /**
   Chunk invariance: however the output is cut into chunks, and however chunks of the two
   sources and stage events interleave, each source's lines are its whole text split at once.
   */
  lemma LinesAreTheWholeTextSplit(inputs: seq<Input>, source: Source)
    requires source != System
    ensures LinesFrom(source, Flushed(TakeAll(Buffers("", "", []), inputs)).written)
            == DropEmptyLast(Split(TextFrom(source, inputs), "\n"))
  {
    AllInStep(inputs, source);
    FlushedBoth(TakeAll(Buffers("", "", []), inputs), source);
  }

  /** The stage events of a run, in order. */
  function EventsOf(inputs: seq<Input>): seq<string> {
    if inputs == [] then []
    else
      var last := inputs[|inputs| - 1];
      EventsOf(inputs[..|inputs| - 1]) + (if last.Event? then [last.text] else [])
  }

  lemma FedNoEvent(b: Buffers, source: Source, chunk: string)
    requires source != System
    ensures LinesFrom(System, Fed(b, source, chunk).written) == LinesFrom(System, b.written)
  {
    var texts := Init(Split(BufferOf(b, source) + chunk, "\n"));
    LinesFromAppend(System, b.written, Tagged(source, texts));
    LinesFromTagged(System, source, texts);
  }

  /** Stage events are written at once, in order, whatever is buffered, and flushing adds none. */
  lemma {:induction false} EventsAreWritten(inputs: seq<Input>)
    ensures var b := TakeAll(Buffers("", "", []), inputs);
            LinesFrom(System, b.written) == LinesFrom(System, Flushed(b).written) == EventsOf(inputs)
  {
    var b := TakeAll(Buffers("", "", []), inputs);
    FlushedNoEvent(b, Stdout);
    FlushedNoEvent(FlushedOne(b, Stdout), Stderr);
    if inputs != [] {
      var before, last := inputs[..|inputs| - 1], inputs[|inputs| - 1];
      EventsAreWritten(before);
      var a := TakeAll(Buffers("", "", []), before);
      match last
      case Event(t) => LinesFromAppend(System, a.written, [Line(System, t)]);
      case Chunk(s, chunk) => if s != System { FedNoEvent(a, s, chunk); }
    }
  }

  lemma FlushedNoEvent(b: Buffers, source: Source)
    requires source != System
    ensures LinesFrom(System, FlushedOne(b, source).written) == LinesFrom(System, b.written)
  {
    LinesFromAppend(System, b.written, [Line(source, BufferOf(b, source))]);
  }

  /** Nothing written is taken back or reordered by what comes later. */
  lemma TakeOnlyAppends(b: Buffers, i: Input)
    ensures b.written <= Take(b, i).written && b.written <= Flushed(b).written
  {
  }

  /** Flushing writes what is left of stdout, then what is left of stderr, and empties both buffers. */
  lemma FlushSays(b: Buffers)
    ensures BufferOf(Flushed(b), Stdout) == "" == BufferOf(Flushed(b), Stderr)
    ensures var out, err := BufferOf(b, Stdout), BufferOf(b, Stderr);
            Flushed(b).written
            == b.written + (if out == "" then [] else [Line(Stdout, out)])
                         + (if err == "" then [] else [Line(Stderr, err)])
  {
    assert b.written + [] == b.written;
  }

  /** A second flush finds nothing to write. */
  lemma FlushTwice(b: Buffers)
    ensures Flushed(Flushed(b)) == Flushed(b)
  {
  }

  // ---------- The writer object ----------

  class LogStreamer {
    const cleaner: Cleaner
    var stdoutBuf: string
    var stderrBuf: string
    var entries: seq<Line>
    ghost var written: seq<Line>

    ghost predicate Valid()
      reads this
    {
      entries == Stored(cleaner, written)
    }

    ghost function State(): Buffers
      reads this
    {
      Buffers(stdoutBuf, stderrBuf, written)
    }

    constructor (cleaner: Cleaner)
      ensures Valid() && State() == Buffers("", "", []) && this.cleaner == cleaner
    {
      this.cleaner := cleaner;
      stdoutBuf, stderrBuf, entries, written := "", "", [], [];
    }

    method OnStdout(chunk: string)
      requires Valid()
      modifies this
      ensures Valid() && State() == Fed(old(State()), Stdout, chunk)
    {
      stdoutBuf := stdoutBuf + chunk;
      var lines := Split(stdoutBuf, "\n");
      stdoutBuf := lines[|lines| - 1];
      WriteAll(lines[..|lines| - 1], Stdout);
    }

    method OnStderr(chunk: string)
      requires Valid()
      modifies this
      ensures Valid() && State() == Fed(old(State()), Stderr, chunk)
    {
      stderrBuf := stderrBuf + chunk;
      var lines := Split(stderrBuf, "\n");
      stderrBuf := lines[|lines| - 1];
      WriteAll(lines[..|lines| - 1], Stderr);
    }

    method Flush()
      requires Valid()
      modifies this
      ensures Valid() && State() == Flushed(old(State()))
    {
      if stdoutBuf != "" {
        Write(stdoutBuf, Stdout);
        stdoutBuf := "";
      }
      if stderrBuf != "" {
        Write(stderrBuf, Stderr);
        stderrBuf := "";
      }
    }

    method WriteEvent(text: string)
      requires Valid()
      modifies this
      ensures Valid() && State() == Take(old(State()), Event(text))
    {
      Write(text, System);
    }

    method WriteAll(lines: seq<string>, source: Source)
      requires Valid()
      modifies this`entries, this`written
      ensures Valid() && written == old(written) + Tagged(source, lines)
    {
      for i := 0 to |lines|
        invariant Valid() && written == old(written) + Tagged(source, lines[..i])
      {
        Write(lines[i], source);
        assert lines[..i + 1][..i] == lines[..i];
      }
      assert lines[..|lines|] == lines;
    }

    /** Cleans one line and appends it to the stream. */
    method Write(line: string, source: Source)
      requires Valid()
      modifies this`entries, this`written
      ensures Valid() && written == old(written) + [Line(source, line)]
    {
      written := written + [Line(source, line)];
      assert written[..|written| - 1] == old(written);
      if Trimmed(cleaner.isSpace, line) == "" {
        return;
      }
      var clean := cleaner.sanitize(line);
      if |clean| > MAX_LINE_LENGTH {
        clean := clean[..MAX_LINE_LENGTH] + TRUNCATION_MARK;
      }
      entries := entries + [Line(source, clean)];
    }
  }
}
