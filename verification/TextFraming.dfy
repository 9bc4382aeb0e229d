/** Splitting text on a delimiter, all at once and piece by piece. */
module TextFraming {
  import opened Common

  /** The first place where `d` occurs. */
  function IndexOf(text: string, d: string): (r: Option<nat>)
    ensures r.Some? ==> r.value + |d| <= |text| && text[r.value..r.value + |d|] == d
  {
    if |text| < |d| then None
    else if d <= text then Some(0)
    else if text == "" then None
    else match IndexOf(text[1..], d)
         case None => None
         case Some(i) =>
           assert text[i + 1..i + 1 + |d|] == text[1..][i..i + |d|];
           Some(i + 1)
  }

  /** The pieces between occurrences of `d` found from left to right. */
  function Split(text: string, d: string): (pieces: seq<string>)
    requires d != ""
    ensures pieces != []
    decreases |text|
  {
    match IndexOf(text, d)
    case None => [text]
    case Some(i) => [text[..i]] + Split(text[i + |d|..], d)
  }

  function Init(pieces: seq<string>): seq<string>
    requires pieces != []
  {
    pieces[..|pieces| - 1]
  }

  function Last(pieces: seq<string>): string
    requires pieces != []
  {
    pieces[|pieces| - 1]
  }

  function Join(pieces: seq<string>, d: string): string
    requires pieces != []
  {
    if |pieces| == 1 then pieces[0] else pieces[0] + d + Join(pieces[1..], d)
  }

  function Concat(chunks: seq<string>): string {
    if chunks == [] then "" else chunks[0] + Concat(chunks[1..])
  }

  /** Splitting loses nothing, and leaves no delimiter inside a piece. */
  lemma {:induction false} SplitJoins(text: string, d: string)
    requires d != ""
    ensures Join(Split(text, d), d) == text
    ensures forall p :: p in Split(text, d) ==> IndexOf(p, d).None?
    decreases |text|
  {
    match IndexOf(text, d)
    case None =>
    case Some(i) =>
      SplitJoins(text[i + |d|..], d);
      BeforeFirst(text, d);
      var rest := Split(text[i + |d|..], d);
      assert ([text[..i]] + rest)[1..] == rest;
      assert text == text[..i] + d + text[i + |d|..];
  }

  /** Whether a text starts with `d` does not depend on what follows its first |d| characters. */
  lemma PrefixStays(d: string, u: string, v: string)
    requires |d| <= |u|
    ensures d <= u + v <==> d <= u
  {
    assert (u + v)[..|d|] == u[..|d|];
  }

  /** The text before the first occurrence contains none. */
  lemma {:induction false} BeforeFirst(text: string, d: string)
    requires d != "" && IndexOf(text, d).Some?
    ensures IndexOf(text[..IndexOf(text, d).value], d).None?
  {
    var i := IndexOf(text, d).value;
    var head := text[..i];
    if |head| >= |d| {
      assert head + text[i..] == text;
      PrefixStays(d, head, text[i..]);
      BeforeFirst(text[1..], d);
      assert head[1..] == text[1..][..i - 1];
    }
  }

  lemma {:induction false} IndexAppend(u: string, v: string, d: string)
    requires d != "" && IndexOf(u, d).Some?
    ensures IndexOf(u + v, d) == IndexOf(u, d)
  {
    PrefixStays(d, u, v);
    if !(d <= u) {
      assert (u + v)[1..] == u[1..] + v;
      IndexAppend(u[1..], v, d);
    }
  }

  lemma SplitAtFirst(text: string, d: string, head: string, rest: string)
    requires d != "" && IndexOf(text, d) == Some(|head|) && text == head + d + rest
    ensures Split(text, d) == [head] + Split(rest, d)
  {
    assert text[..|head|] == head && text[|head| + |d|..] == rest;
  }

  /** The rest of a list of pieces that is known to end in `last`. */
  lemma RestEndsIn(head: string, rest: seq<string>, done: seq<string>, last: string) returns (done': seq<string>)
    requires rest != [] && [head] + rest == done + [last]
    ensures rest == done' + [last] && done == [head] + done'
  {
    done' := rest[..|rest| - 1];
    var all := [head] + rest;
    assert all[|all| - 1] == last == rest[|rest| - 1];
    assert all[..|all| - 1] == done == [head] + done';
  }

  /**
   Incremental splitting: a longer text splits into the finished pieces of its first part and
   the split of the unfinished last piece continued. It holds even when the cut falls inside a
   delimiter.
   */
  lemma {:induction false} SplitContinues(u: string, v: string, d: string, done: seq<string>, last: string)
    requires d != "" && Split(u, d) == done + [last]
    ensures Split(u + v, d) == done + Split(last + v, d)
    decreases |u|
  {
    var first := IndexOf(u, d);
    if first.None? {
      assert |done + [last]| == |[u]| == 1;
      assert (done + [last])[0] == last;
    } else {
      var head, rest := u[..first.value], u[first.value + |d|..];
      assert u == head + d + rest && u + v == head + d + (rest + v);
      SplitAtFirst(u, d, head, rest);
      IndexAppend(u, v, d);
      SplitAtFirst(u + v, d, head, rest + v);
      var done' := RestEndsIn(head, Split(rest, d), done, last);
      SplitContinues(rest, v, d, done', last);
      Regroup([head], done', Split(last + v, d));
    }
  }

  /** A piece is not split any further. */
  lemma PieceIsWhole(text: string, d: string, p: string)
    requires d != "" && p in Split(text, d)
    ensures Split(p, d) == [p]
  {
    SplitJoins(text, d);
  }

  function Trimmed(isSpace: char -> bool, text: string): string
    decreases |text|
  {
    if text == "" then ""
    else if isSpace(text[0]) then Trimmed(isSpace, text[1..])
    else if isSpace(text[|text| - 1]) then Trimmed(isSpace, text[..|text| - 1])
    else text
  }

  /** Trimming takes spaces off both ends and nothing else, until neither end is one. */
  lemma {:induction false} TrimmedSays(isSpace: char -> bool, text: string)
    returns (before: string, after: string)
    ensures text == before + Trimmed(isSpace, text) + after
    ensures (forall ch :: ch in before ==> isSpace(ch)) && (forall ch :: ch in after ==> isSpace(ch))
    ensures var t := Trimmed(isSpace, text); t != "" ==> !isSpace(t[0]) && !isSpace(t[|t| - 1])
    decreases |text|
  {
    before, after := "", "";
    if text != "" {
      if isSpace(text[0]) {
        var b, a := TrimmedSays(isSpace, text[1..]);
        WrapFront(text, b, Trimmed(isSpace, text[1..]), a);
        before, after := [text[0]] + b, a;
      } else if isSpace(text[|text| - 1]) {
        var b, a := TrimmedSays(isSpace, text[..|text| - 1]);
        WrapBack(text, b, Trimmed(isSpace, text[..|text| - 1]), a);
        before, after := b, a + [text[|text| - 1]];
      }
    }
  }

  lemma WrapFront(text: string, before: string, middle: string, after: string)
    requires text != "" && text[1..] == before + middle + after
    ensures text == ([text[0]] + before) + middle + after
  {
    assert text == [text[0]] + text[1..];
  }

  lemma WrapBack(text: string, before: string, middle: string, after: string)
    requires text != "" && text[..|text| - 1] == before + middle + after
    ensures text == before + middle + (after + [text[|text| - 1]])
  {
    assert text == text[..|text| - 1] + [text[|text| - 1]];
  }

  /** Nothing is left exactly of a text of spaces. */
  lemma BlankIff(isSpace: char -> bool, text: string)
    ensures Trimmed(isSpace, text) == "" <==> forall ch :: ch in text ==> isSpace(ch)
  {
    var before, after := TrimmedSays(isSpace, text);
    var t := Trimmed(isSpace, text);
    if t != "" { assert t[0] in text; }
  }
}
