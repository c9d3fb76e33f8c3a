// Which lines of a text are list items, blank or preformatted, and the text that comes of them, in
// terms of the characters alone.
module MarkdownLines {
  import opened Text
  import opened Markdown

  predicate AllSpace(s: string) { forall c :: c in s ==> IsSpace(c) }

  // Neither end is white space.
  predicate Solid(s: string) { s != "" && !IsSpace(s[0]) && !IsSpace(s[|s| - 1]) }

  // ---- trimming ----

  lemma {:induction false} StartTrimmed(pre: string, core: string)
    requires AllSpace(pre) && (core == "" || !IsSpace(core[0]))
    ensures TrimStart(pre + core) == core
  {
    if pre == "" {
      assert pre + core == core;
    } else {
      assert pre[0] in pre && (pre + core)[1..] == pre[1..] + core;
      StartTrimmed(pre[1..], core);
    }
  }

  lemma {:induction false} EndTrimmed(core: string, post: string)
    requires AllSpace(post) && (core == "" || !IsSpace(core[|core| - 1]))
    ensures TrimEnd(core + post) == core
  {
    if post == "" {
      assert core + post == core;
    } else {
      var n := |post| - 1;
      assert post[n] in post && (core + post)[..|core| + n] == core + post[..n];
      EndTrimmed(core, post[..n]);
    }
  }

  lemma {:induction false} StartCut(s: string) returns (pre: string)
    ensures AllSpace(pre) && s == pre + TrimStart(s) && (TrimStart(s) != "" ==> !IsSpace(TrimStart(s)[0]))
  {
    if s != "" && IsSpace(s[0]) {
      var rest := StartCut(s[1..]);
      pre := [s[0]] + rest;
      assert forall c :: c in pre ==> c == s[0] || c in rest;
      assert s == [s[0]] + s[1..] == [s[0]] + (rest + TrimStart(s));
    } else {
      pre := "";
      assert "" + s == s;
    }
  }

  lemma {:induction false} EndCut(s: string) returns (post: string)
    ensures AllSpace(post) && s == TrimEnd(s) + post && (TrimEnd(s) != "" ==> !IsSpace(TrimEnd(s)[|TrimEnd(s)| - 1]))
    ensures TrimEnd(s) <= s
  {
    if s != "" && IsSpace(s[|s| - 1]) {
      var rest := EndCut(s[..|s| - 1]);
      post := rest + [s[|s| - 1]];
      assert s == s[..|s| - 1] + [s[|s| - 1]];
    } else {
      post := "";
    }
  }

  // Trimming takes off exactly the white space around a solid text.
  lemma Trimmed(pre: string, core: string, post: string)
    requires AllSpace(pre) && AllSpace(post) && (core == "" || Solid(core))
    ensures Trim(pre + core + post) == core
  {
    if core == "" {
      assert pre + core + post == (pre + post) + "";
      StartTrimmed(pre + post, "");
    } else {
      assert pre + core + post == pre + (core + post);
      StartTrimmed(pre, core + post);
      EndTrimmed(core, post);
    }
  }

  lemma TrimCuts(s: string) returns (pre: string, post: string)
    ensures AllSpace(pre) && AllSpace(post) && s == pre + Trim(s) + post && (Trim(s) == "" || Solid(Trim(s)))
  {
    pre := StartCut(s);
    var t := TrimStart(s);
    post := EndCut(t);
    assert s == pre + (TrimEnd(t) + post);
    if TrimEnd(t) != "" { assert TrimEnd(t)[0] == t[0]; }
  }

  // ---- the kinds of lines ----

  predicate EndsPre(t: string) { |t| >= 6 && t[|t| - 6..] == "</pre>" }

  // A marker, white space and a text, indented or not.
  predicate ItemForm(line: string, indent: string, mark: char, gap: string, text: string, trail: string) {
    && line == indent + ([mark] + gap + text) + trail
    && AllSpace(indent) && AllSpace(gap) && gap != "" && AllSpace(trail)
    && (mark == '-' || mark == '*') && Solid(text)
  }

  lemma NoPreAcross(mark: char, gap: string, text: string)
    requires AllSpace(gap) && gap != "" && (mark == '-' || mark == '*')
    ensures EndsPre([mark] + gap + text) <==> EndsPre(text)
  {
    var t := [mark] + gap + text;
    var n := |t|;
    if |text| >= 6 {
      assert t[n - 6..] == text[|text| - 6..];
    } else if n >= 6 {
      var last := gap[|gap| - 1];
      assert last in gap && t[n - 6..][5 - |text|] == last;
    }
  }

  lemma ItemFormIsItem(line: string, indent: string, mark: char, gap: string, text: string, trail: string)
    requires ItemForm(line, indent, mark, gap, text, trail) && !EndsPre(text)
    ensures PieceOf(line) == Item(text)
  {
    var t := [mark] + gap + text;
    assert t[0] == mark && t[|t| - 1] == text[|text| - 1];
    Trimmed(indent, t, trail);
    NoPreAcross(mark, gap, text);
    assert t[1] == gap[0] && gap[0] in gap;
    assert t[1..] == gap + text;
    StartTrimmed(gap, text);
  }

  lemma ItemHasForm(line: string, text: string)
    requires PieceOf(line) == Item(text)
    ensures !EndsPre(text) && exists indent, mark, gap, trail :: ItemForm(line, indent, mark, gap, text, trail)
  {
    var t := Trim(line);
    var indent, trail := TrimCuts(line);
    var gap := StartCut(t[1..]);
    assert t == [t[0]] + t[1..] == [t[0]] + gap + text;
    assert forall i :: 0 <= i < |gap| ==> t[1 + i] == gap[i] && gap[i] in gap;
    assert text[|text| - 1] == t[|t| - 1];
    NoPreAcross(t[0], gap, text);
    assert ItemForm(line, indent, t[0], gap, text, trail);
  }

  // A line is the item of a text exactly if it is that text behind a marker and white space, and does
  // not end preformatted text.
  lemma ItemLines(line: string, text: string)
    ensures PieceOf(line) == Item(text)
       <==> !EndsPre(text) && exists indent, mark, gap, trail :: ItemForm(line, indent, mark, gap, text, trail)
  {
    if PieceOf(line) == Item(text) { ItemHasForm(line, text); }
    if !EndsPre(text) {
      if indent, mark, gap, trail :| ItemForm(line, indent, mark, gap, text, trail) {
        ItemFormIsItem(line, indent, mark, gap, text, trail);
      }
    }
  }

  // A line that begins or ends preformatted text is kept as it is, white space around it included.
  lemma PreLines(indent: string, t: string, trail: string)
    requires AllSpace(indent) && AllSpace(trail) && Solid(t)
    ensures PieceOf(indent + t + trail) == Raw(indent + t + trail) <==> "<pre>" <= t || EndsPre(t)
  {
    Trimmed(indent, t, trail);
  }

  lemma BlankLines(line: string)
    ensures PieceOf(line) == Blank <==> AllSpace(line)
  {
    var pre, post := TrimCuts(line);
    if AllSpace(line) {
      StartTrimmed(line, "");
      assert line + "" == line;
    } else {
      assert forall c :: c in line ==> c in pre || c in Trim(line) || c in post;
    }
  }

  // ---- the text that comes of them ----

  function Items(texts: seq<string>): seq<string> {
    seq(|texts|, i requires 0 <= i < |texts| => "<li>" + texts[i] + "</li>")
  }

  lemma {:induction false} RunLength(items: seq<Piece>, rest: seq<Piece>)
    requires forall i :: 0 <= i < |items| ==> items[i].Item?
    requires rest == [] || !rest[0].Item?
    ensures ItemRun(items + rest) == |items|
  {
    if items == [] {
      assert items + rest == rest;
    } else {
      assert (items + rest)[0] == items[0] && (items + rest)[1..] == items[1..] + rest;
      RunLength(items[1..], rest);
    }
  }

  lemma {:induction false} ItemsRendered(items: seq<Piece>, texts: seq<string>)
    requires |items| == |texts| && forall i :: 0 <= i < |items| ==> items[i] == Item(texts[i])
    ensures RenderAll(Show(items)) == Items(texts)
  {
    if items != [] {
      ItemsRendered(items[1..], texts[1..]);
      RenderAppend([Shown(items[0])], Show(items[1..]));
      assert Items(texts) == ["<li>" + texts[0] + "</li>"] + Items(texts[1..]);
    }
  }

  lemma PiecesAppend(a: seq<string>, b: seq<string>)
    ensures PiecesOf(a + b) == PiecesOf(a) + PiecesOf(b)
  {
  }

  // Item lines up to the next line of another kind become one list of their texts.
  lemma RunBecomesList(lines: seq<string>, texts: seq<string>, rest: seq<string>)
    requires lines != [] && |lines| == |texts| && forall i :: 0 <= i < |lines| ==> PieceOf(lines[i]) == Item(texts[i])
    requires rest == [] || !PieceOf(rest[0]).Item?
    ensures Listed(lines + rest) == ["<ul>"] + Items(texts) + ["</ul>"] + Listed(rest)
  {
    var items, more := PiecesOf(lines), PiecesOf(rest);
    var all := items + more;
    PiecesAppend(lines, rest);
    RunLength(items, more);
    ItemsRendered(items, texts);
    assert all[..|items|] == items && all[|items|..] == more && all[0] == items[0];
    RenderAppend([OpenList], Show(items) + ([CloseList] + Blocks(more)));
    RenderAppend(Show(items), [CloseList] + Blocks(more));
    RenderAppend([CloseList], Blocks(more));
    assert RenderAll([OpenList]) == ["<ul>"] && RenderAll([CloseList]) == ["</ul>"];
  }

  // Any other line stands for itself, a paragraph with a break behind it.
  lemma LineBecomes(line: string, rest: seq<string>)
    requires !PieceOf(line).Item?
    ensures Listed([line] + rest)
         == (if AllSpace(line) then [] else if PieceOf(line).Raw? then [line] else [line + "<br>"]) + Listed(rest)
  {
    PiecesAppend([line], rest);
    BlankLines(line);
    var piece, pieces := PieceOf(line), PiecesOf([line] + rest);
    assert pieces[0] == piece && pieces[1..] == PiecesOf(rest);
    RenderAppend(Show([piece]), Blocks(PiecesOf(rest)));
    RenderOne(piece);
    RawKeepsLine(line);
  }

  lemma RenderOne(p: Piece)
    requires !p.Item?
    ensures RenderAll(Show([p])) == if p.Blank? then [] else if p.Raw? then [p.line] else [p.line + "<br>"]
  {
    ShowOne(p);
  }

  lemma RawKeepsLine(line: string)
    ensures PieceOf(line).Raw? || PieceOf(line).Para? ==> PieceOf(line).line == line
  {
  }

  // The rendered lines are the lines of the result.
  lemma {:induction false} JoinedLines(pieces: seq<string>)
    requires pieces != [] && forall p :: p in pieces ==> '\n' !in p
    ensures Split(JoinBy(pieces, "\n")) == pieces
  {
    if |pieces| == 1 {
      OneLine(pieces[0]);
    } else {
      JoinedLines(pieces[1..]);
      SplitLine(pieces[0], JoinBy(pieces[1..], "\n"));
    }
  }

  lemma {:induction false} OneLine(s: string)
    requires '\n' !in s
    ensures Split(s) == [s]
  {
    if s != "" {
      OneLine(s[1..]);
      assert s == [s[0]] + s[1..];
    }
  }

  // A break at the very end, white space aside, goes with that white space; nothing else does.
  lemma TrailingBreak(a: string, w: string)
    requires AllSpace(w)
    ensures DropTrailingBreak(a + "<br>" + w) == a
  {
    var t := a + "<br>";
    assert t[|t| - 1] == '>';
    EndTrimmed(t, w);
    assert t[|t| - 4..] == "<br>" && t[..|t| - 4] == a;
  }

  lemma NoTrailingBreak(s: string)
    requires !exists a, w :: AllSpace(w) && s == a + "<br>" + w
    ensures DropTrailingBreak(s) == s
  {
    var w := EndCut(s);
    var t := TrimEnd(s);
    if |t| >= 4 && t[|t| - 4..] == "<br>" {
      assert t == t[..|t| - 4] + "<br>";
      assert AllSpace(w) && s == t[..|t| - 4] + "<br>" + w;
    }
  }
}
