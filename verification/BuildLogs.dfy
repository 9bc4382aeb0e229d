/**
 The browser's reader of the log stream: server-sent events cut into blocks on a blank
 line, read chunk by chunk until the stream ends or a "done" event arrives.
 */
module BuildLogs {
  import opened Common
  import opened TextFraming

  datatype LogLine = LogLine(source: string, text: string)

  /** What JSON.parse makes of a log block: an exception, null, or anything else. */
  datatype Parsed = Malformed | Null | Parsed(line: LogLine)

  /** What a block is parsed with; JSON and the two patterns are given. */
  datatype Codec = Codec(
    isSpace: char -> bool,
    parseLine: string -> Parsed,
    parseDone: string -> Option<string>,
    autoFixAttempt: string -> Option<nat>,
    clearsAutoFix: string -> bool)

  datatype View = View(
    lines: seq<LogLine>,
    isConnected: bool,
    isDone: bool,
    doneStatus: Option<string>,
    autoFixAttempt: Option<nat>)

  datatype Fields = Fields(event: string, data: string)

  const BLANK_LINE := "\n\n"

  /** The fields of a block; a later line of the same name wins. */
  function FieldsOf(c: Codec, lines: seq<string>): Fields {
    if lines == [] then Fields("message", "")
    else
      var f := FieldsOf(c, lines[..|lines| - 1]);
      var line := lines[|lines| - 1];
      if "event:" <= line then f.(event := Trimmed(c.isSpace, line[6..]))
      else if "data:" <= line then f.(data := Trimmed(c.isSpace, line[5..]))
      else f
  }

  function Shown(c: Codec, v: View, line: LogLine): View {
    var v' := v.(lines := v.lines + [line]);
    if line.source == "system" && c.autoFixAttempt(line.text).Some?
    then v'.(autoFixAttempt := c.autoFixAttempt(line.text))
    else if line.source == "system" && c.clearsAutoFix(line.text) then v'.(autoFixAttempt := None)
    else v'
  }

  function Handled(c: Codec, v: View, block: string): View {
    if Trimmed(c.isSpace, block) == "" then v
    else
      var f := FieldsOf(c, Split(block, "\n"));
      if f.event == "done" then v.(isDone := true, isConnected := false, doneStatus := c.parseDone(f.data))
      else if f.event == "log" then
        match c.parseLine(f.data)
        case Malformed => v
        case Null => v.(isConnected := false)
        case Parsed(line) => Shown(c, v, line)
      else v
  }

  /** Blocks in order, up to the first that ends the connection: "done", or a null log line. */
  function HandledAll(c: Codec, v: View, blocks: seq<string>): View
    decreases |blocks|
  {
    if blocks == [] || !v.isConnected then v else HandledAll(c, Handled(c, v, blocks[0]), blocks[1..])
  }

  /** The reading loop on values: the unfinished last piece of each chunk waits for the next one. */
  function ReadLoop(c: Codec, v: View, buffer: string, chunks: seq<string>): View
    decreases |chunks|
  {
    if chunks == [] then v
    else
      var pieces := Split(buffer + chunks[0], BLANK_LINE);
      var v' := HandledAll(c, v, Init(pieces));
      if !v'.isConnected then v' else ReadLoop(c, v', Last(pieces), chunks[1..])
  }

  // ---------- What a block says ----------

  /** Line `i` is the last one that starts with the field's name. */
  predicate LastWith(lines: seq<string>, field: string, i: nat) {
    i < |lines| && field <= lines[i] && forall j :: i < j < |lines| ==> !(field <= lines[j])
  }

  ghost predicate NoneWith(lines: seq<string>, field: string) {
    forall i :: 0 <= i < |lines| ==> !(field <= lines[i])
  }

  /** No line is of both names. */
  lemma OneName(line: string)
    ensures !("event:" <= line && "data:" <= line)
  {
    assert "event:" <= line ==> line[0] == 'e';
    assert "data:" <= line ==> line[0] == 'd';
  }

  lemma {:induction false} EventSays(c: Codec, lines: seq<string>)
    ensures forall i: nat :: LastWith(lines, "event:", i) ==>
              FieldsOf(c, lines).event == Trimmed(c.isSpace, lines[i][6..])
    ensures NoneWith(lines, "event:") ==> FieldsOf(c, lines).event == "message"
  {
    if lines != [] {
      EventSays(c, lines[..|lines| - 1]);
      LastMoves(lines, "event:");
    }
  }

  lemma {:induction false} DataSays(c: Codec, lines: seq<string>)
    ensures forall i: nat :: LastWith(lines, "data:", i) ==>
              FieldsOf(c, lines).data == Trimmed(c.isSpace, lines[i][5..])
    ensures NoneWith(lines, "data:") ==> FieldsOf(c, lines).data == ""
  {
    if lines != [] {
      DataSays(c, lines[..|lines| - 1]);
      LastMoves(lines, "data:");
      OneName(lines[|lines| - 1]);
    }
  }

  /** Event and data are the trimmed values of the last lines of their name; "message" and nothing without one. */
  lemma FieldsSay(c: Codec, lines: seq<string>)
    ensures var f := FieldsOf(c, lines);
            && (forall i: nat :: LastWith(lines, "event:", i) ==> f.event == Trimmed(c.isSpace, lines[i][6..]))
            && (forall i: nat :: LastWith(lines, "data:", i) ==> f.data == Trimmed(c.isSpace, lines[i][5..]))
            && (NoneWith(lines, "event:") ==> f.event == "message")
            && (NoneWith(lines, "data:") ==> f.data == "")
  {
    EventSays(c, lines);
    DataSays(c, lines);
  }

  lemma LastMoves(lines: seq<string>, field: string)
    requires lines != []
    ensures var before, last := lines[..|lines| - 1], lines[|lines| - 1];
            && (forall i: nat :: LastWith(lines, field, i)
                  ==> if field <= last then i == |lines| - 1 else LastWith(before, field, i))
            && (NoneWith(lines, field) ==> NoneWith(before, field) && !(field <= last))
  {
    var before := lines[..|lines| - 1];
    assert forall i :: 0 <= i < |before| ==> before[i] == lines[i];
  }

  /** What a block is for the reader. */
  datatype Kind = Ignored | Logged(line: LogLine) | Done(status: Option<string>) | Broken

  ghost function KindOf(c: Codec, block: string): Kind {
    var f := FieldsOf(c, Split(block, "\n"));
    if forall ch :: ch in block ==> c.isSpace(ch) then Ignored
    else if f.event == "done" then Done(c.parseDone(f.data))
    else if f.event == "log" && c.parseLine(f.data) == Null then Broken
    else if f.event == "log" && c.parseLine(f.data).Parsed? then Logged(c.parseLine(f.data).line)
    else Ignored
  }

  ghost predicate Ends(k: Kind) {
    k.Done? || k.Broken?
  }

  /** The first block that ends the connection, or the number of blocks. */
  ghost function Stop(c: Codec, blocks: seq<string>): (n: nat)
    ensures n <= |blocks|
    ensures forall i :: 0 <= i < n ==> !Ends(KindOf(c, blocks[i]))
    ensures n < |blocks| ==> Ends(KindOf(c, blocks[n]))
  {
    if blocks == [] || Ends(KindOf(c, blocks[0])) then 0 else 1 + Stop(c, blocks[1..])
  }

  ghost function LogLines(c: Codec, blocks: seq<string>): seq<LogLine> {
    if blocks == [] then []
    else (if KindOf(c, blocks[0]).Logged? then [KindOf(c, blocks[0]).line] else []) + LogLines(c, blocks[1..])
  }

  predicate SetsAttempt(c: Codec, line: LogLine) {
    line.source == "system" && (c.autoFixAttempt(line.text).Some? || c.clearsAutoFix(line.text))
  }

  /** The attempt shown is set by the last system line that starts or clears one. */
  function AttemptAfter(c: Codec, attempt: Option<nat>, lines: seq<LogLine>): Option<nat>
    decreases |lines|
  {
    if lines == [] then attempt
    else AttemptAfter(c, if SetsAttempt(c, lines[0]) then c.autoFixAttempt(lines[0].text) else attempt, lines[1..])
  }

  lemma OneBlock(c: Codec, v: View, block: string)
    ensures var t, k := Handled(c, v, block), KindOf(c, block);
            && (k.Ignored? ==> t == v)
            && (k.Done? ==> t == v.(isDone := true, isConnected := false, doneStatus := k.status))
            && (k.Broken? ==> t == v.(isConnected := false))
            && (k.Logged? ==> t == v.(lines := v.lines + [k.line],
                                      autoFixAttempt := AttemptAfter(c, v.autoFixAttempt, [k.line])))
  {
    BlankIff(c.isSpace, block);
    var k := KindOf(c, block);
    if k.Logged? {
      assert [k.line][1..] == [];
    }
  }

  /** What the view `t` shows of the blocks, when the view before them was `v`. */
  ghost predicate Shows(c: Codec, v: View, blocks: seq<string>, t: View) {
    var n := Stop(c, blocks);
    var seen := LogLines(c, blocks[..n]);
    && t.lines == v.lines + seen
    && t.autoFixAttempt == AttemptAfter(c, v.autoFixAttempt, seen)
    && (t.isConnected <==> n == |blocks|)
    && (t.isDone <==> n < |blocks| && KindOf(c, blocks[n]).Done?)
    && t.doneStatus == if t.isDone then KindOf(c, blocks[n]).status else v.doneStatus
  }

  /**
   The view after the blocks: all log lines up to the first block that ends the connection, in
   order; done exactly if that is a done block, and then with its status; connected exactly if
   there is none.
   */
  lemma {:induction false} ViewSays(c: Codec, v: View, blocks: seq<string>)
    requires v.isConnected && !v.isDone
    ensures Shows(c, v, blocks, HandledAll(c, v, blocks))
    decreases |blocks|
  {
    if blocks == [] {
      assert v.lines + [] == v.lines;
    } else if Ends(KindOf(c, blocks[0])) {
      OneBlock(c, v, blocks[0]);
      EndedView(c, Handled(c, v, blocks[0]), blocks[1..]);
      assert blocks[..0] == [] && v.lines + [] == v.lines;
    } else {
      var u, first := Handled(c, v, blocks[0]), FirstLines(c, blocks[0]);
      OneBlock(c, v, blocks[0]);
      assert v.lines + [] == v.lines;
      ViewSays(c, u, blocks[1..]);
      OneBlockMore(c, v, u, blocks, HandledAll(c, v, blocks));
    }
  }

  ghost function FirstLines(c: Codec, block: string): seq<LogLine> {
    if KindOf(c, block).Logged? then [KindOf(c, block).line] else []
  }

  /** The view `u` is `v` after a first block that does not end the connection. */
  lemma OneBlockMore(c: Codec, v: View, u: View, blocks: seq<string>, t: View)
    requires blocks != [] && !Ends(KindOf(c, blocks[0])) && Shows(c, u, blocks[1..], t)
    requires var first := FirstLines(c, blocks[0]);
             && u.lines == v.lines + first && u.doneStatus == v.doneStatus
             && u.autoFixAttempt == AttemptAfter(c, v.autoFixAttempt, first)
    ensures Shows(c, v, blocks, t)
  {
    var n := Stop(c, blocks);
    StopMore(c, blocks);
    FirstSeen(c, blocks, n);
    SeenFrom(c, v, FirstLines(c, blocks[0]), LogLines(c, blocks[1..][..n - 1]));
  }

  lemma StopMore(c: Codec, blocks: seq<string>)
    requires blocks != [] && !Ends(KindOf(c, blocks[0]))
    ensures var n := Stop(c, blocks);
            && n == 1 + Stop(c, blocks[1..])
            && (n < |blocks| ==> blocks[n] == blocks[1..][n - 1])
  {
  }

  lemma FirstSeen(c: Codec, blocks: seq<string>, n: nat)
    requires 0 < n <= |blocks|
    ensures LogLines(c, blocks[..n]) == FirstLines(c, blocks[0]) + LogLines(c, blocks[1..][..n - 1])
  {
    assert blocks[..n][1..] == blocks[1..][..n - 1] && blocks[..n][0] == blocks[0];
  }

  lemma EndedView(c: Codec, v: View, blocks: seq<string>)
    requires !v.isConnected
    ensures HandledAll(c, v, blocks) == v
  {
  }

  lemma SeenFrom(c: Codec, v: View, first: seq<LogLine>, rest: seq<LogLine>)
    requires |first| <= 1
    ensures v.lines + (first + rest) == (v.lines + first) + rest
    ensures AttemptAfter(c, v.autoFixAttempt, first + rest)
            == AttemptAfter(c, AttemptAfter(c, v.autoFixAttempt, first), rest)
  {
    if first == [] {
      assert first + rest == rest;
    } else {
      assert (first + rest)[1..] == rest && first[1..] == [];
    }
  }

  lemma {:induction false} HandledAppend(c: Codec, v: View, a: seq<string>, b: seq<string>)
    ensures HandledAll(c, v, a + b) == HandledAll(c, HandledAll(c, v, a), b)
    decreases |a|
  {
    if a == [] {
      assert a + b == b;
    } else if v.isConnected {
      assert (a + b)[1..] == a[1..] + b;
      HandledAppend(c, Handled(c, v, a[0]), a[1..], b);
    }
  }

  lemma InitOfAppend(a: seq<string>, b: seq<string>)
    requires b != []
    ensures Init(a + b) == a + Init(b)
  {
  }

  /** One chunk: its finished pieces come first in the split of everything that is still to come. */
  lemma ChunkFirst(buffer: string, chunk: string, rest: string) returns (pieces: seq<string>, tail: seq<string>)
    ensures pieces == Split(buffer + chunk, BLANK_LINE) && Split(Last(pieces), BLANK_LINE) == [Last(pieces)]
    ensures tail == Split(Last(pieces) + rest, BLANK_LINE)
    ensures Init(Split(buffer + (chunk + rest), BLANK_LINE)) == Init(pieces) + Init(tail)
  {
    pieces := Split(buffer + chunk, BLANK_LINE);
    tail := Split(Last(pieces) + rest, BLANK_LINE);
    assert pieces == Init(pieces) + [Last(pieces)];
    SplitContinues(buffer + chunk, rest, BLANK_LINE, Init(pieces), Last(pieces));
    Regroup(buffer, chunk, rest);
    InitOfAppend(Init(pieces), tail);
    PieceIsWhole(buffer + chunk, BLANK_LINE, Last(pieces));
  }

  /**
   However the bytes were cut, even inside the blank line, the view is the one obtained by
   splitting the whole text at once and discarding the unfinished tail.
   */
  lemma {:induction false} ReadingIsChunkInvariant(c: Codec, v: View, buffer: string, chunks: seq<string>)
    requires v.isConnected && Split(buffer, BLANK_LINE) == [buffer]
    ensures ReadLoop(c, v, buffer, chunks) == HandledAll(c, v, Init(Split(buffer + Concat(chunks), BLANK_LINE)))
    decreases |chunks|
  {
    if chunks == [] {
      assert buffer + "" == buffer;
    } else {
      var pieces, tail := ChunkFirst(buffer, chunks[0], Concat(chunks[1..]));
      HandledAppend(c, v, Init(pieces), Init(tail));
      var v' := HandledAll(c, v, Init(pieces));
      if !v'.isConnected {
        EndedView(c, v', Init(tail));
      } else {
        ReadingIsChunkInvariant(c, v', Last(pieces), chunks[1..]);
      }
    }
  }

  /** The connection, over the decoded chunks the reader delivers. */
  method ConnectSSE(c: Codec, chunks: seq<string>) returns (view: View)
    ensures view == HandledAll(c, View([], true, false, None, None), Init(Split(Concat(chunks), BLANK_LINE)))
  {
    view := View([], true, false, None, None);
    ghost var start := view;
    var buffer := "";
    var i := 0;
    assert "" + Concat(chunks) == Concat(chunks) && chunks[0..] == chunks;
    ReadingIsChunkInvariant(c, view, "", chunks);
    while i < |chunks|
      invariant 0 <= i <= |chunks| && view.isConnected
      invariant ReadLoop(c, start, "", chunks) == ReadLoop(c, view, buffer, chunks[i..])
    {
      assert chunks[i..][1..] == chunks[i + 1..];
      buffer := buffer + chunks[i];
      var blocks := Split(buffer, BLANK_LINE);
      buffer := blocks[|blocks| - 1];
      blocks := blocks[..|blocks| - 1];
      view := HandleBlocks(c, view, blocks);
      if !view.isConnected {
        return;
      }
      i := i + 1;
    }
  }

  method HandleBlocks(c: Codec, v: View, blocks: seq<string>) returns (view: View)
    requires v.isConnected
    ensures view == HandledAll(c, v, blocks)
  {
    view := v;
    for k := 0 to |blocks|
      invariant view.isConnected && HandledAll(c, v, blocks) == HandledAll(c, view, blocks[k..])
    {
      var block := blocks[k];
      assert blocks[k..][1..] == blocks[k + 1..];
      if Trimmed(c.isSpace, block) == "" {
        continue;
      }
      var fields := ParseBlock(c, block);
      if fields.event == "heartbeat" {
        continue;
      }
      if fields.event == "done" {
        view := view.(isDone := true, isConnected := false, doneStatus := c.parseDone(fields.data));
        return;
      }
      if fields.event == "log" {
        var parsed := c.parseLine(fields.data);
        if parsed.Malformed? {
          continue;
        }
        if parsed.Null? {
          view := view.(isConnected := false);
          return;
        }
        view := Shown(c, view, parsed.line);
      }
    }
  }

  method ParseBlock(c: Codec, block: string) returns (f: Fields)
    ensures f == FieldsOf(c, Split(block, "\n"))
  {
    f := Fields("message", "");
    var lines := Split(block, "\n");
    for i := 0 to |lines|
      invariant f == FieldsOf(c, lines[..i])
    {
      assert lines[..i + 1][..i] == lines[..i];
      var line := lines[i];
      if "event:" <= line {
        f := f.(event := Trimmed(c.isSpace, line[6..]));
      } else if "data:" <= line {
        f := f.(data := Trimmed(c.isSpace, line[5..]));
      }
    }
    assert lines[..|lines|] == lines;
  }
}
