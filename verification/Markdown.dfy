// The widget's HTML escaping, four rewrites of the whole text in a row, and the line machine that
// turns list lines into lists.
module Markdown {
  import opened Text

  // ---- escaping ----

  function ReplaceAll(s: string, c: char, w: string): string {
    if s == "" then "" else (if s[0] == c then w else [s[0]]) + ReplaceAll(s[1..], c, w)
  }

  function EscapeHtml(s: string): string {
    ReplaceAll(ReplaceAll(ReplaceAll(ReplaceAll(s, '&', "&amp;"), '<', "&lt;"), '>', "&gt;"), '"', "&quot;")
  }

  function EscapeChar(c: char): string {
    if c == '&' then "&amp;"
    else if c == '<' then "&lt;"
    else if c == '>' then "&gt;"
    else if c == '"' then "&quot;"
    else [c]
  }

  function EscapeEach(s: string): string {
    if s == "" then "" else EscapeChar(s[0]) + EscapeEach(s[1..])
  }

  lemma {:induction false} ReplaceAppend(a: string, b: string, c: char, w: string)
    ensures ReplaceAll(a + b, c, w) == ReplaceAll(a, c, w) + ReplaceAll(b, c, w)
  {
    if a == "" {
      assert a + b == b;
    } else {
      assert (a + b)[0] == a[0] && (a + b)[1..] == a[1..] + b;
      ReplaceAppend(a[1..], b, c, w);
    }
  }

  lemma {:induction false} ReplaceAbsent(s: string, c: char, w: string)
    requires c !in s
    ensures ReplaceAll(s, c, w) == s
  {
    if s != "" {
      ReplaceAbsent(s[1..], c, w);
      assert s == [s[0]] + s[1..];
    }
  }

  lemma ReplaceOne(c: char, w: string)
    ensures ReplaceAll([c], c, w) == w
  {
    assert [c][1..] == "" && w + "" == w;
  }

  lemma EscapeAppend(a: string, b: string)
    ensures EscapeHtml(a + b) == EscapeHtml(a) + EscapeHtml(b)
  {
    var a1, b1 := ReplaceAll(a, '&', "&amp;"), ReplaceAll(b, '&', "&amp;");
    var a2, b2 := ReplaceAll(a1, '<', "&lt;"), ReplaceAll(b1, '<', "&lt;");
    ReplaceAppend(a, b, '&', "&amp;");
    ReplaceAppend(a1, b1, '<', "&lt;");
    ReplaceAppend(a2, b2, '>', "&gt;");
    ReplaceAppend(ReplaceAll(a2, '>', "&gt;"), ReplaceAll(b2, '>', "&gt;"), '"', "&quot;");
  }

  // What a rewrite put in holds no character that a later rewrite replaces.
  lemma LaterRewritesSkip(w: string, from: nat)
    requires (from < 1 ==> '<' !in w) && (from < 2 ==> '>' !in w) && '"' !in w
    ensures from < 1 ==> ReplaceAll(w, '<', "&lt;") == w
    ensures from < 2 ==> ReplaceAll(w, '>', "&gt;") == w
    ensures ReplaceAll(w, '"', "&quot;") == w
  {
    if from < 1 { ReplaceAbsent(w, '<', "&lt;"); }
    if from < 2 { ReplaceAbsent(w, '>', "&gt;"); }
    ReplaceAbsent(w, '"', "&quot;");
  }

  lemma EscapeAmpersand()
    ensures EscapeHtml("&") == "&amp;"
  {
    ReplaceOne('&', "&amp;");
    LaterRewritesSkip("&amp;", 0);
  }

  lemma EscapeLess()
    ensures EscapeHtml("<") == "&lt;"
  {
    ReplaceAbsent("<", '&', "&amp;");
    ReplaceOne('<', "&lt;");
    LaterRewritesSkip("&lt;", 1);
  }

  lemma EscapeGreater()
    ensures EscapeHtml(">") == "&gt;"
  {
    ReplaceAbsent(">", '&', "&amp;");
    ReplaceAbsent(">", '<', "&lt;");
    ReplaceOne('>', "&gt;");
    LaterRewritesSkip("&gt;", 2);
  }

  lemma EscapeOther(s: string)
    requires '&' !in s && '<' !in s && '>' !in s
    ensures EscapeHtml(s) == ReplaceAll(s, '"', "&quot;")
  {
    ReplaceAbsent(s, '&', "&amp;");
    ReplaceAbsent(s, '<', "&lt;");
    ReplaceAbsent(s, '>', "&gt;");
  }

  // On one character at most one of the rewrites does anything, and none touches what an earlier
  // one put in.
  lemma EscapeOne(c: char)
    ensures EscapeHtml([c]) == EscapeChar(c)
  {
    if c == '&' {
      EscapeAmpersand();
    } else if c == '<' {
      EscapeLess();
    } else if c == '>' {
      EscapeGreater();
    } else {
      EscapeOther([c]);
      if c == '"' { ReplaceOne('"', "&quot;"); } else { ReplaceAbsent([c], '"', "&quot;"); }
    }
  }

  // The four rewrites of the whole text are one pass over its characters.
  lemma {:induction false} EscapeIsOnePass(s: string)
    ensures EscapeHtml(s) == EscapeEach(s)
  {
    if s != "" {
      EscapeIsOnePass(s[1..]);
      EscapeOne(s[0]);
      EscapeAppend([s[0]], s[1..]);
      assert [s[0]] + s[1..] == s;
    }
  }

  function Unescape(s: string): string
    decreases |s|
  {
    if s == "" then ""
    else if "&amp;" <= s then "&" + Unescape(s[5..])
    else if "&lt;" <= s then "<" + Unescape(s[4..])
    else if "&gt;" <= s then ">" + Unescape(s[4..])
    else if "&quot;" <= s then "\"" + Unescape(s[6..])
    else [s[0]] + Unescape(s[1..])
  }

  lemma UnescapeChar(c: char, rest: string)
    ensures Unescape(EscapeChar(c) + rest) == [c] + Unescape(rest)
  {
    var w := EscapeChar(c);
    assert (w + rest)[|w|..] == rest && (w + rest)[..|w|] == w;
    if w == [c] {
      assert (w + rest)[0] == c;
    } else {
      assert w[1] == (w + rest)[1] && w[0] == (w + rest)[0];
    }
  }

  lemma {:induction false} UnescapeEach(s: string)
    ensures Unescape(EscapeEach(s)) == s
  {
    if s != "" {
      UnescapeEach(s[1..]);
      UnescapeChar(s[0], EscapeEach(s[1..]));
      assert [s[0]] + s[1..] == s;
    }
  }

  // Escaping loses nothing.
  lemma EscapeRoundTrip(s: string)
    ensures Unescape(EscapeHtml(s)) == s
  {
    EscapeIsOnePass(s);
    UnescapeEach(s);
  }

  lemma EscapeInjective(s: string, t: string)
    ensures EscapeHtml(s) == EscapeHtml(t) <==> s == t
  {
    EscapeRoundTrip(s);
    EscapeRoundTrip(t);
  }

  lemma {:induction false} EachHasNoMarkup(s: string)
    ensures '<' !in EscapeEach(s) && '>' !in EscapeEach(s) && '"' !in EscapeEach(s)
  {
    if s != "" { EachHasNoMarkup(s[1..]); }
  }

  lemma NoRawMarkup(s: string)
    ensures '<' !in EscapeHtml(s) && '>' !in EscapeHtml(s) && '"' !in EscapeHtml(s)
  {
    EscapeIsOnePass(s);
    EachHasNoMarkup(s);
  }

  // ---- lines ----

  datatype Piece = Item(text: string) | Raw(line: string) | Para(line: string) | Blank

  predicate EndsWith(s: string, end: string) {
    |end| <= |s| && s[|s| - |end|..] == end
  }

  // Blank lines leave nothing behind, but they end a list like any other line that is no item.
  function PieceOf(line: string): Piece {
    var t := Trim(line);
    if "<pre>" <= t || EndsWith(t, "</pre>") then Raw(line)
    else if |t| >= 2 && (t[0] == '-' || t[0] == '*') && IsSpace(t[1]) then Item(TrimStart(t[1..]))
    else if t == "" then Blank
    else Para(line)
  }

  function PiecesOf(lines: seq<string>): (pieces: seq<Piece>)
    ensures |pieces| == |lines|
  {
    seq(|lines|, i requires 0 <= i < |lines| => PieceOf(lines[i]))
  }

  // ---- what the pieces mean: every maximal run of items is one list ----

  datatype Token = OpenList | CloseList | Shown(piece: Piece)

  function ItemRun(pieces: seq<Piece>): (n: nat)
    ensures n <= |pieces|
    ensures forall i :: 0 <= i < n ==> pieces[i].Item?
    ensures n < |pieces| ==> !pieces[n].Item?
  {
    if pieces == [] || !pieces[0].Item? then 0 else 1 + ItemRun(pieces[1..])
  }

  function Show(pieces: seq<Piece>): seq<Token> {
    if pieces == [] then []
    else (if pieces[0].Blank? then [] else [Shown(pieces[0])]) + Show(pieces[1..])
  }

  function Blocks(pieces: seq<Piece>): seq<Token>
    decreases |pieces|
  {
    if pieces == [] then []
    else if pieces[0].Item? then
      var n := ItemRun(pieces);
      [OpenList] + (Show(pieces[..n]) + ([CloseList] + Blocks(pieces[n..])))
    else Show([pieces[0]]) + Blocks(pieces[1..])
  }

  // List tags alternate, every list holds an item, items stand inside lists and all else outside.
  predicate Nested(tokens: seq<Token>, inList: bool) {
    if tokens == [] then !inList
    else
      match tokens[0]
      case OpenList => !inList && |tokens| > 1 && IsItem(tokens[1]) && Nested(tokens[1..], true)
      case CloseList => inList && Nested(tokens[1..], false)
      case Shown(p) => inList == p.Item? && Nested(tokens[1..], inList)
  }

  predicate IsItem(t: Token) { t.Shown? && t.piece.Item? }

  lemma NestedCons(t: Token, rest: seq<Token>, inList: bool)
    ensures Nested([t] + rest, inList) ==
            match t
            case OpenList => !inList && rest != [] && IsItem(rest[0]) && Nested(rest, true)
            case CloseList => inList && Nested(rest, false)
            case Shown(p) => inList == p.Item? && Nested(rest, inList)
  {
    assert ([t] + rest)[1..] == rest;
  }

  lemma ShowCons(p: Piece, rest: seq<Piece>)
    ensures Show([p] + rest) == (if p.Blank? then [] else [Shown(p)]) + Show(rest)
  {
    assert ([p] + rest)[1..] == rest;
  }

  lemma ShowOne(p: Piece)
    ensures Show([p]) == if p.Blank? then [] else [Shown(p)]
  {
    ShowCons(p, []);
    assert [p] + [] == [p];
  }

  lemma {:induction false} ItemsNest(items: seq<Piece>, rest: seq<Token>)
    requires (forall i :: 0 <= i < |items| ==> items[i].Item?) && Nested(rest, true)
    ensures Nested(Show(items) + rest, true)
  {
    if items == [] {
      assert Show(items) + rest == rest;
    } else {
      ItemsNest(items[1..], rest);
      NestedCons(Shown(items[0]), Show(items[1..]) + rest, true);
      assert Show(items) + rest == [Shown(items[0])] + (Show(items[1..]) + rest);
    }
  }

  lemma PlainNests(p: Piece, rest: seq<Token>)
    requires !p.Item? && Nested(rest, false)
    ensures Nested(Show([p]) + rest, false)
  {
    ShowCons(p, []);
    assert [p] + [] == [p];
    if p.Blank? {
      assert Show([p]) + rest == rest;
    } else {
      assert Show([p]) == [Shown(p)];
      NestedCons(Shown(p), rest, false);
    }
  }

  lemma {:induction false} BlocksNest(pieces: seq<Piece>)
    ensures Nested(Blocks(pieces), false)
    decreases |pieces|
  {
    if pieces != [] {
      if pieces[0].Item? {
        var n := ItemRun(pieces);
        var rest := [CloseList] + Blocks(pieces[n..]);
        BlocksNest(pieces[n..]);
        NestedCons(CloseList, Blocks(pieces[n..]), true);
        ItemsNest(pieces[..n], rest);
        ShowCons(pieces[0], pieces[1..n]);
        assert pieces[..n] == [pieces[0]] + pieces[1..n];
        NestedCons(OpenList, Show(pieces[..n]) + rest, false);
      } else {
        BlocksNest(pieces[1..]);
        PlainNests(pieces[0], Blocks(pieces[1..]));
      }
    }
  }

  // Without its list tags the output is the pieces, in order.
  function Untagged(tokens: seq<Token>): seq<Token> {
    if tokens == [] then []
    else (if tokens[0].Shown? then [tokens[0]] else []) + Untagged(tokens[1..])
  }

  lemma {:induction false} UntaggedAppend(a: seq<Token>, b: seq<Token>)
    ensures Untagged(a + b) == Untagged(a) + Untagged(b)
  {
    if a == [] {
      assert a + b == b;
    } else {
      assert (a + b)[0] == a[0] && (a + b)[1..] == a[1..] + b;
      UntaggedAppend(a[1..], b);
    }
  }

  lemma {:induction false} ShownStays(pieces: seq<Piece>)
    ensures Untagged(Show(pieces)) == Show(pieces)
  {
    if pieces != [] {
      ShownStays(pieces[1..]);
      if pieces[0].Blank? {
        assert Show(pieces) == Show(pieces[1..]);
      } else {
        UntaggedAppend([Shown(pieces[0])], Show(pieces[1..]));
        assert Untagged([Shown(pieces[0])]) == [Shown(pieces[0])];
      }
    }
  }

  lemma {:induction false} ShowAppend(a: seq<Piece>, b: seq<Piece>)
    ensures Show(a + b) == Show(a) + Show(b)
  {
    if a == [] {
      assert a + b == b;
    } else {
      assert (a + b)[0] == a[0] && (a + b)[1..] == a[1..] + b;
      ShowAppend(a[1..], b);
    }
  }

  lemma {:induction false} BlocksKeepPieces(pieces: seq<Piece>)
    ensures Untagged(Blocks(pieces)) == Show(pieces)
    decreases |pieces|
  {
    if pieces != [] {
      var n := if pieces[0].Item? then ItemRun(pieces) else 1;
      var shown, rest := Show(pieces[..n]), Blocks(pieces[n..]);
      BlocksKeepPieces(pieces[n..]);
      ShownStays(pieces[..n]);
      ShowAppend(pieces[..n], pieces[n..]);
      assert pieces[..n] + pieces[n..] == pieces;
      if pieces[0].Item? {
        UntaggedAppend([OpenList], shown + ([CloseList] + rest));
        UntaggedAppend(shown, [CloseList] + rest);
        UntaggedAppend([CloseList], rest);
      } else {
        assert [pieces[0]] == pieces[..n];
        UntaggedAppend(shown, rest);
      }
    }
  }

  // ---- rendering ----

  function Render(t: Token): string {
    match t
    case OpenList => "<ul>"
    case CloseList => "</ul>"
    case Shown(Item(text)) => "<li>" + text + "</li>"
    case Shown(Raw(line)) => line
    case Shown(Para(line)) => line + "<br>"
    case Shown(Blank) => ""
  }

  function RenderAll(tokens: seq<Token>): seq<string> {
    seq(|tokens|, i requires 0 <= i < |tokens| => Render(tokens[i]))
  }

  function DropTrailingBreak(s: string): string {
    var t := TrimEnd(s);
    if EndsWith(t, "<br>") then t[..|t| - 4] else s
  }

  // What is still to come when the machine, inside a list or outside, faces the pieces.
  function Rest(inList: bool, pieces: seq<Piece>): seq<Token> {
    if !inList then Blocks(pieces)
    else
      var n := ItemRun(pieces);
      Show(pieces[..n]) + ([CloseList] + Blocks(pieces[n..]))
  }

  // What one piece adds to the output, by whether a list is open.
  function Emitted(piece: Piece, inList: bool): seq<Token> {
    (if piece.Item? && !inList then [OpenList] else if !piece.Item? && inList then [CloseList] else [])
    + (if piece.Blank? then [] else [Shown(piece)])
  }

  lemma RestAtItem(inList: bool, pieces: seq<Piece>)
    requires pieces != [] && pieces[0].Item?
    ensures Rest(inList, pieces) == Emitted(pieces[0], inList) + Rest(true, pieces[1..])
  {
    var n, tail := ItemRun(pieces), pieces[1..];
    assert pieces[..n] == [pieces[0]] + tail[..n - 1] && pieces[n..] == tail[n - 1..];
    ShowCons(pieces[0], tail[..n - 1]);
    assert Rest(true, pieces) == [Shown(pieces[0])] + Rest(true, tail);
  }

  lemma RestClosesList(pieces: seq<Piece>)
    requires pieces != [] && !pieces[0].Item?
    ensures Rest(true, pieces) == [CloseList] + Blocks(pieces)
  {
    assert pieces[..0] == [] && pieces[0..] == pieces;
    assert [] + ([CloseList] + Blocks(pieces)) == [CloseList] + Blocks(pieces);
  }

  lemma RestOutside(pieces: seq<Piece>)
    requires pieces != [] && !pieces[0].Item?
    ensures Rest(false, pieces) == (if pieces[0].Blank? then [] else [Shown(pieces[0])]) + Rest(false, pieces[1..])
  {
    ShowOne(pieces[0]);
  }

  lemma RestElsewhere(inList: bool, pieces: seq<Piece>)
    requires pieces != [] && !pieces[0].Item?
    ensures Rest(inList, pieces) == Emitted(pieces[0], inList) + Rest(false, pieces[1..])
  {
    var shown, rest := if pieces[0].Blank? then [] else [Shown(pieces[0])], Rest(false, pieces[1..]);
    RestOutside(pieces);
    if inList {
      RestClosesList(pieces);
      assert [CloseList] + (shown + rest) == ([CloseList] + shown) + rest;
    } else {
      assert [] + shown == shown;
    }
  }

  lemma RenderAppend(a: seq<Token>, b: seq<Token>)
    ensures RenderAll(a + b) == RenderAll(a) + RenderAll(b)
  {
  }

  // ---- the machine ----

  datatype Machine = Machine(inList: bool, result: seq<string>)

  function Turn(m: Machine, piece: Piece): Machine {
    Machine(piece.Item?, m.result + RenderAll(Emitted(piece, m.inList)))
  }

  function Turns(m: Machine, pieces: seq<Piece>): Machine
    decreases |pieces|
  {
    if pieces == [] then m else Turns(Turn(m, pieces[0]), pieces[1..])
  }

  function Finish(m: Machine): seq<string> {
    if m.inList then m.result + ["</ul>"] else m.result
  }

  lemma NothingLeft(inList: bool)
    ensures RenderAll(Rest(inList, [])) == if inList then ["</ul>"] else []
  {
    var none: seq<Piece> := [];
    assert none[..0] == [] && none[0..] == [];
  }

  lemma TurnRenders(inList: bool, pieces: seq<Piece>)
    requires pieces != []
    ensures RenderAll(Rest(inList, pieces))
         == RenderAll(Emitted(pieces[0], inList)) + RenderAll(Rest(pieces[0].Item?, pieces[1..]))
  {
    if pieces[0].Item? { RestAtItem(inList, pieces); } else { RestElsewhere(inList, pieces); }
    RenderAppend(Emitted(pieces[0], inList), Rest(pieces[0].Item?, pieces[1..]));
  }

  lemma Reassociate<T>(a: seq<T>, b: seq<T>, c: seq<T>)
    ensures a + (b + c) == (a + b) + c
  {
  }

  // The machine's output is what the pieces mean.
  lemma {:induction false} MachineRenders(m: Machine, pieces: seq<Piece>)
    ensures Finish(Turns(m, pieces)) == m.result + RenderAll(Rest(m.inList, pieces))
    decreases |pieces|
  {
    if pieces == [] {
      NothingLeft(m.inList);
    } else {
      TurnRenders(m.inList, pieces);
      MachineRenders(Turn(m, pieces[0]), pieces[1..]);
      Reassociate(m.result, RenderAll(Emitted(pieces[0], m.inList)), RenderAll(Rest(pieces[0].Item?, pieces[1..])));
    }
  }

  // What the lines mean, rendered.
  function Listed(lines: seq<string>): seq<string> {
    RenderAll(Blocks(PiecesOf(lines)))
  }

  lemma MachineLists(lines: seq<string>)
    ensures Finish(Turns(Machine(false, []), PiecesOf(lines))) == Listed(lines)
  {
    var pieces := PiecesOf(lines);
    MachineRenders(Machine(false, []), pieces);
    assert [] + RenderAll(Rest(false, pieces)) == RenderAll(Blocks(pieces));
  }

  // ---- the code ----

  method AddPiece(piece: Piece, inList: bool, result: seq<string>) returns (inList': bool, result': seq<string>)
    ensures Machine(inList', result') == Turn(Machine(inList, result), piece)
  {
    inList', result' := inList, result;
    if piece.Item? {
      if !inList {
        result' := result' + ["<ul>"];
        inList' := true;
      }
    } else if inList {
      result' := result' + ["</ul>"];
      inList' := false;
    }
    if !piece.Blank? { result' := result' + [Render(Shown(piece))]; }
  }

  method RenderLines(lines: seq<string>) returns (result: seq<string>)
    ensures result == Finish(Turns(Machine(false, []), PiecesOf(lines)))
  {
    ghost var pieces := PiecesOf(lines);
    result := [];
    var inList := false;
    var i := 0;
    assert pieces[0..] == pieces;
    while i < |lines|
      invariant 0 <= i <= |lines|
      invariant Turns(Machine(inList, result), pieces[i..]) == Turns(Machine(false, []), pieces)
    {
      assert pieces[i..][0] == pieces[i] && pieces[i..][1..] == pieces[i + 1..];
      inList, result := AddPiece(PieceOf(lines[i]), inList, result);
      i := i + 1;
    }
    assert pieces[i..] == [];
    if inList { result := result + ["</ul>"]; }
  }

  method ProcessLines(html: string) returns (joined: string)
    ensures joined == DropTrailingBreak(JoinBy(Listed(Split(html)), "\n"))
  {
    var lines := Split(html);
    var result := RenderLines(lines);
    MachineLists(lines);
    joined := DropTrailingBreak(JoinBy(result, "\n"));
  }
}
