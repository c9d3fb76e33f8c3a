// Whitespace trimming and splitting into lines, as the widget's text processors use them.
module Text {
  // Whitespace and line terminators as String.prototype.trim removes them.
  predicate IsSpace(c: char) {
    var n := c as int;
    || 0x09 <= n <= 0x0D || n == 0x20 || n == 0xA0 || n == 0x1680 || 0x2000 <= n <= 0x200A
    || n == 0x2028 || n == 0x2029 || n == 0x202F || n == 0x205F || n == 0x3000 || n == 0xFEFF
  }

  // Tab to carriage return, the space separators of Unicode, the two line separators and U+FEFF.
  lemma SpacesAre(c: char)
    ensures IsSpace(c) <==>
            || c in "\U{9}\U{A}\U{B}\U{C}\U{D}\U{20}\U{A0}\U{1680}\U{2028}\U{2029}\U{202F}\U{205F}\U{3000}\U{FEFF}"
            || c in "\U{2000}\U{2001}\U{2002}\U{2003}\U{2004}\U{2005}\U{2006}\U{2007}\U{2008}\U{2009}\U{200A}"
  {
  }

  function TrimStart(s: string): string {
    if s != "" && IsSpace(s[0]) then TrimStart(s[1..]) else s
  }

  function TrimEnd(s: string): string {
    if s != "" && IsSpace(s[|s| - 1]) then TrimEnd(s[..|s| - 1]) else s
  }

  function Trim(s: string): string { TrimEnd(TrimStart(s)) }

  // The pieces of s between newlines; the last piece is the unterminated rest.
  function Split(s: string): (pieces: seq<string>)
    ensures pieces != []
  {
    if s == "" then [""]
    else
      var rest := Split(s[1..]);
      if s[0] == '\n' then [""] + rest else [[s[0]] + rest[0]] + rest[1..]
  }

  function Complete(s: string): seq<string> { Split(s)[..|Split(s)| - 1] }

  function Tail(s: string): string { Split(s)[|Split(s)| - 1] }

  lemma SplitFirst(s: string)
    requires s != ""
    ensures s[0] == '\n' ==> Complete(s) == [""] + Complete(s[1..]) && Tail(s) == Tail(s[1..])
    ensures s[0] != '\n' && Complete(s[1..]) == [] ==> Complete(s) == [] && Tail(s) == [s[0]] + Tail(s[1..])
    ensures s[0] != '\n' && Complete(s[1..]) != [] ==>
              Complete(s) == [[s[0]] + Complete(s[1..])[0]] + Complete(s[1..])[1..] && Tail(s) == Tail(s[1..])
  {
  }

  lemma ConsAppend<T>(x: T, ys: seq<T>, zs: seq<T>)
    ensures [x] + (ys + zs) == ([x] + ys) + zs
  {
  }

  lemma SplitCons(c: char, s: string)
    ensures Split([c] + s) == if c == '\n' then [""] + Split(s) else [[c] + Split(s)[0]] + Split(s)[1..]
  {
    assert ([c] + s)[1..] == s;
  }

  // Splitting after more text arrives: the complete lines stay, the tail is split again.
  lemma {:induction false} SplitAppend(a: string, b: string)
    ensures Split(a + b) == Complete(a) + Split(Tail(a) + b)
  {
    if a == "" {
      assert a + b == b;
    } else {
      assert a + b == [a[0]] + (a[1..] + b);
      SplitAppend(a[1..], b);
      SplitCons(a[0], a[1..] + b);
      SplitFirst(a);
      if a[0] == '\n' || Complete(a[1..]) != [] {
        AppendInTail(a, b);
      } else {
        AppendInLine(a[0], Tail(a[1..]), b, Split(a[1..] + b));
        assert Tail(a) + b == [a[0]] + Tail(a[1..]) + b;
        NilAppend(Split(Tail(a) + b));
        NilAppend(Split(Tail(a[1..]) + b));
      }
    }
  }

  lemma AppendInTail(a: string, b: string)
    requires a != "" && Split(a[1..] + b) == Complete(a[1..]) + Split(Tail(a[1..]) + b)
    requires a[0] == '\n' || Complete(a[1..]) != []
    ensures Complete(a) + Split(Tail(a) + b)
         == if a[0] == '\n' then [""] + Split(a[1..] + b) else [[a[0]] + Split(a[1..] + b)[0]] + Split(a[1..] + b)[1..]
  {
    SplitFirst(a);
    PushChar(a[0], Complete(a[1..]), Split(Tail(a[1..]) + b));
  }

  lemma AppendInLine(c: char, tail: string, b: string, pieces: seq<string>)
    requires c != '\n' && pieces == [] + Split(tail + b)
    ensures Split([c] + tail + b) == [[c] + pieces[0]] + pieces[1..]
  {
    NilAppend(Split(tail + b));
    SplitCons(c, tail + b);
    assert [c] + tail + b == [c] + (tail + b);
  }

  lemma NilAppend<T>(s: seq<T>)
    ensures [] + s == s
  {
  }

  // Putting a character before the pieces `done + more`.
  lemma PushChar(c: char, done: seq<string>, more: seq<string>)
    requires more != []
    ensures [""] + (done + more) == ([""] + done) + more
    ensures done == [] ==> [[c] + (done + more)[0]] + (done + more)[1..] == [] + ([[c] + more[0]] + more[1..])
    ensures done != [] ==> [[c] + (done + more)[0]] + (done + more)[1..] == ([[c] + done[0]] + done[1..]) + more
  {
    ConsAppend("", done, more);
    if done == [] {
      assert done + more == more;
    } else {
      assert (done + more)[1..] == done[1..] + more;
      ConsAppend([c] + done[0], done[1..], more);
    }
  }

  lemma FeedSplits(a: string, b: string)
    ensures Complete(a + b) == Complete(a) + Complete(Tail(a) + b)
    ensures Tail(a + b) == Tail(Tail(a) + b)
  {
    SplitAppend(a, b);
  }

  // A piece that holds no newline, followed by one, is a line of its own.
  lemma {:induction false} SplitLine(line: string, rest: string)
    requires '\n' !in line
    ensures Split(line + "\n" + rest) == [line] + Split(rest)
  {
    if line == "" {
      assert line + "\n" + rest == ['\n'] + rest;
    } else {
      assert (line + "\n" + rest)[1..] == line[1..] + "\n" + rest;
      SplitLine(line[1..], rest);
      assert [line[0]] + line[1..] == line;
    }
  }

  // The tail never holds a newline, and the lines and the tail are the text.
  lemma {:induction false} SplitJoin(s: string)
    ensures forall p :: p in Split(s) ==> '\n' !in p
    ensures JoinLines(Complete(s)) + Tail(s) == s
  {
    if s != "" {
      SplitJoin(s[1..]);
      var rest := Split(s[1..]);
      if s[0] == '\n' {
        assert Complete(s) == [""] + Complete(s[1..]);
        assert JoinLines(Complete(s)) == "\n" + JoinLines(Complete(s[1..]));
      } else if |rest| > 1 {
        var more := Complete(s[1..])[1..];
        assert Complete(s) == [[s[0]] + rest[0]] + more;
        assert Complete(s[1..]) == [rest[0]] + more;
        assert JoinLines(Complete(s)) == [s[0]] + JoinLines(Complete(s[1..]));
      }
    }
  }

  function JoinLines(lines: seq<string>): string {
    if lines == [] then "" else lines[0] + "\n" + JoinLines(lines[1..])
  }

  function JoinBy(pieces: seq<string>, separator: string): string {
    if pieces == [] then ""
    else if |pieces| == 1 then pieces[0]
    else pieces[0] + separator + JoinBy(pieces[1..], separator)
  }
}
