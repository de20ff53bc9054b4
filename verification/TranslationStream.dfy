/** The document as it is written: what the stream of writes says, read from the stream
    alone. */
module TranslationStream {
  import opened Wrappers
  import opened Markup
  import opened TranslationReference
  import Translation
  import TranslationParts

  // What one write adds.
  function PartsOf(t: Token): seq<Part> {
    match t
    case StartWrapper(padding) => [WrapperPart(padding)]
    case StartSection(attrs) => [SectionPart(Shown(attrs, SECTION_PROPS))]
    case StartColumn(attrs) => [ColumnPart(Shown(attrs, COLUMN_PROPS))]
    case StartText(attrs) => [TextPart(Shown(attrs, TEXT_PROPS))]
    case StartButton(href, attrs) => [ButtonPart(href, Shown(attrs, BUTTON_NAMES))]
    case Image(href, image, attrs) => [ImagePart(href, image, Shown(attrs, IMAGE_PROPS))]
    case Divider(attrs) => [DividerPart(attrs)]
    case StartTable => [TablePart]
    case StartCell(style, width) => [CellPart(style, width)]
    case StartElem(name, html) => [ElementPart(name, html)]
    case Break => [BreakPart]
    case Literal(text) => [Words(text)]
    case _ => []
  }

  function StreamParts(ts: seq<Token>): seq<Part> {
    if ts == [] then [] else PartsOf(ts[0]) + StreamParts(ts[1..])
  }

  // The write that closes what this one opens.
  function CloserOf(t: Token): Option<Token> {
    match t
    case StartWrapper(_) => Some(EndWrapper)
    case StartSection(_) => Some(EndSection)
    case StartColumn(_) => Some(EndColumn)
    case StartText(_) => Some(EndText)
    case StartButton(_, _) => Some(EndButton)
    case StartTable => Some(EndTable)
    case StartCell(_, _) => Some(EndCell)
    case StartElem(name, _) => Some(EndElem(name))
    case _ => None
  }

  predicate IsCloser(t: Token) {
    t.EndWrapper? || t.EndSection? || t.EndColumn? || t.EndText? || t.EndButton? || t.EndTable? || t.EndCell? || t.EndElem?
  }

  /** What is still to be closed after a stream, innermost first, or None once something
      is closed that was not the last opened. */
  function Pending(open: seq<Token>, ts: seq<Token>): Option<seq<Token>>
    decreases ts
  {
    if ts == [] then Some(open)
    else if CloserOf(ts[0]).Some? then Pending([CloserOf(ts[0]).value] + open, ts[1..])
    else if !IsCloser(ts[0]) then Pending(open, ts[1..])
    else if open != [] && open[0] == ts[0] then Pending(open[1..], ts[1..])
    else None
  }

  // A stretch that says `parts` and closes what it opens.
  ghost predicate Says(ts: seq<Token>, parts: seq<Part>) {
    StreamParts(ts) == parts && forall open, more :: Pending(open, ts + more) == Pending(open, more)
  }

  lemma Assoc<T>(a: seq<T>, b: seq<T>, c: seq<T>)
    ensures a + (b + c) == a + b + c
  {
  }

  lemma StreamCons(t: Token, rest: seq<Token>)
    ensures StreamParts([t] + rest) == PartsOf(t) + StreamParts(rest)
  {
    assert ([t] + rest)[1..] == rest;
  }

  lemma {:induction false} StreamConcat(a: seq<Token>, b: seq<Token>)
    ensures StreamParts(a + b) == StreamParts(a) + StreamParts(b)
  {
    if a == [] {
      assert a + b == b && [] + StreamParts(b) == StreamParts(b);
    } else {
      hide StreamParts, PartsOf;
      var t, rest := a[0], a[1..];
      calc {
        StreamParts(a + b);
        { assert a + b == [t] + (rest + b); }
        StreamParts([t] + (rest + b));
        { StreamCons(t, rest + b); }
        PartsOf(t) + StreamParts(rest + b);
        { StreamConcat(rest, b); }
        PartsOf(t) + (StreamParts(rest) + StreamParts(b));
        { Assoc(PartsOf(t), StreamParts(rest), StreamParts(b)); }
        PartsOf(t) + StreamParts(rest) + StreamParts(b);
        { StreamCons(t, rest); assert a == [t] + rest; }
        StreamParts(a) + StreamParts(b);
      }
    }
  }

  lemma SaysBoth(a: seq<Token>, b: seq<Token>, x: seq<Part>, y: seq<Part>)
    requires Says(a, x) && Says(b, y)
    ensures Says(a + b, x + y)
  {
    StreamConcat(a, b);
    forall open, more ensures Pending(open, a + b + more) == Pending(open, more) {
      assert a + b + more == a + (b + more);
    }
  }

  lemma SaysOne(t: Token)
    requires CloserOf(t).None? && !IsCloser(t)
    ensures Says([t], PartsOf(t))
  {
    assert [t][1..] == [];
    assert StreamParts([t]) == PartsOf(t) + [] == PartsOf(t);
    forall open, more ensures Pending(open, [t] + more) == Pending(open, more) {
      assert ([t] + more)[1..] == more;
    }
  }

  lemma PendingInside(start: Token, content: seq<Token>, end: Token, open: seq<Token>, more: seq<Token>)
    requires CloserOf(start) == Some(end) && CloserOf(end).None? && IsCloser(end)
    requires forall open, more :: Pending(open, content + more) == Pending(open, more)
    ensures Pending(open, [start] + content + [end] + more) == Pending(open, more)
  {
    hide CloserOf, IsCloser;
    var all, inside, left := [start] + content + [end] + more, [end] + open, [end] + more;
    assert all[0] == start && all[1..] == content + left;
    assert left[0] == end && left[1..] == more && inside[0] == end && inside[1..] == open;
    calc {
      Pending(open, all);
      Pending(inside, content + left);
      Pending(inside, left);
      Pending(open, more);
    }
  }

  lemma PartsInside(start: Token, content: seq<Token>, end: Token)
    requires PartsOf(end) == []
    ensures StreamParts([start] + content + [end]) == PartsOf(start) + StreamParts(content)
  {
    StreamConcat([start] + content, [end]);
    StreamConcat([start], content);
    assert [start][1..] == [] && [end][1..] == [];
    assert StreamParts([start]) == PartsOf(start) + [] == PartsOf(start);
    assert StreamParts([end]) == [] + [] == [];
  }

  lemma SaysInside(start: Token, content: seq<Token>, end: Token, parts: seq<Part>)
    requires Says(content, parts) && CloserOf(start) == Some(end)
    ensures Says([start] + content + [end], PartsOf(start) + parts)
  {
    hide Pending, StreamParts;
    PartsInside(start, content, end);
    forall open, more ensures Pending(open, [start] + content + [end] + more) == Pending(open, more) {
      PendingInside(start, content, end, open, more);
    }
  }

  lemma SaysNothingAtAll()
    ensures Says([], [])
  {
    forall open: seq<Token>, more: seq<Token> ensures Pending(open, [] + more) == Pending(open, more) {
      assert [] + more == more;
    }
  }

  lemma {:induction false} HtmlSaysIn(h: Html)
    ensures Says(HtmlTokensIn(h), HtmlPartsIn(h))
    decreases h
  {
    match h {
      case Chunk(t) => SaysOne(Literal(t));
      case LineBreak => SaysOne(Break);
      case Elem(name, attrs, content) =>
        HtmlSays(content);
        SaysInside(StartElem(name, attrs), HtmlTokens(content), EndElem(name), HtmlParts(content));
    }
  }

  lemma {:induction false} HtmlSays(hs: seq<Html>)
    ensures Says(HtmlTokens(hs), HtmlParts(hs))
    decreases hs
  {
    if hs == [] {
      SaysNothingAtAll();
    } else {
      HtmlSaysIn(hs[0]);
      HtmlSays(hs[1..]);
      SaysBoth(HtmlTokensIn(hs[0]), HtmlTokens(hs[1..]), HtmlPartsIn(hs[0]), HtmlParts(hs[1..]));
    }
  }

  lemma {:induction false} CellsSay(cells: seq<Cell>)
    ensures Says(CellTokens(cells), CellParts(cells))
  {
    if cells == [] {
      SaysNothingAtAll();
    } else {
      var start, content := StartCell(cells[0].style, cells[0].width), cells[0].content;
      HtmlSays(content);
      CellsSay(cells[1..]);
      SaysInside(start, HtmlTokens(content), EndCell, HtmlParts(content));
      SaysBoth([start] + HtmlTokens(content) + [EndCell], CellTokens(cells[1..]), PartsOf(start) + HtmlParts(content),
               CellParts(cells[1..]));
    }
  }

  lemma {:induction false} TreeSaysIn(m: Mj)
    ensures Says(TokensIn(m), MjPartsIn(m))
    decreases m
  {
    match m {
      case MjWrapper(padding, body) =>
        TreeSays(body);
        SaysInside(StartWrapper(padding), Tokens(body), EndWrapper, MjParts(body));
      case MjSection(attrs, body) =>
        TreeSays(body);
        SaysInside(StartSection(attrs), Tokens(body), EndSection, MjParts(body));
      case MjColumn(attrs, body) =>
        TreeSays(body);
        SaysInside(StartColumn(attrs), Tokens(body), EndColumn, MjParts(body));
      case MjText(attrs, html) =>
        HtmlSays(html);
        SaysInside(StartText(attrs), HtmlTokens(html), EndText, HtmlParts(html));
      case MjButton(href, attrs, html) =>
        HtmlSays(html);
        SaysInside(StartButton(href, attrs), HtmlTokens(html), EndButton, HtmlParts(html));
      case MjImage(href, image, attrs) => SaysOne(Image(href, image, attrs));
      case MjDivider(attrs) => SaysOne(Divider(attrs));
      case MjTable(cells) =>
        CellsSay(cells);
        SaysInside(StartTable, CellTokens(cells), EndTable, CellParts(cells));
    }
  }

  lemma {:induction false} TreeSays(ms: seq<Mj>)
    ensures Says(Tokens(ms), MjParts(ms))
    decreases ms
  {
    if ms == [] {
      SaysNothingAtAll();
    } else {
      TreeSaysIn(ms[0]);
      TreeSays(ms[1..]);
      SaysBoth(TokensIn(ms[0]), Tokens(ms[1..]), MjPartsIn(ms[0]), MjParts(ms[1..]));
    }
  }

  /** The written document closes everything it opens, innermost first, and says, part by
      part, what the reference says of the tree. */
  lemma WrittenDocument(roots: seq<Node>)
    ensures var written := Tokens(Translation.Blocks(roots));
            Pending([], written) == Some([]) && StreamParts(written) == BlockParts(roots)
  {
    var written := Tokens(Translation.Blocks(roots));
    TreeSays(Translation.Blocks(roots));
    TranslationParts.DocumentAgrees(roots);
    assert written + [] == written && Pending([], []) == Some([]);
  }
}
