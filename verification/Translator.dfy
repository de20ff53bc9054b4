/** The translator as it runs: methods appending to one shared builder, with runs of
    inline content flushed as they end and node styles rewritten on the way down. Each
    is proved to write out the corresponding Translation tree. */
module Translator {
  import opened Strings
  import opened Styles
  import opened Markup
  import opened Translation
  import TranslationLaws

  /* ---- rewriting the children of a dissolved container ---- */

  // A link's href on every image below it that has none of its own.
  function Linked(ns: seq<Node>, href: string): seq<Node> {
    if ns == [] then [] else [LinkedNode(ns[0], href)] + Linked(ns[1..], href)
  }

  function LinkedNode(n: Node, href: string): Node {
    if !n.El? then n
    else if n.tag.Img? then n.(attrs := n.attrs.(href := if IsBlank(n.attrs.href) then href else n.attrs.href))
    else n.(children := Linked(n.children, href))
  }

  // A container's style under that of its Section and Row children.
  function PushedNode(n: Node, style: Style): Node {
    if n.El? && (n.tag.Section? || n.tag.Row?) then n.(attrs := n.attrs.(style := Merge(style, n.attrs.style))) else n
  }

  function Pushed(ns: seq<Node>, style: Style): seq<Node> {
    if ns == [] then [] else [PushedNode(ns[0], style)] + Pushed(ns[1..], style)
  }

  function Dissolved(tag: Tag, attrs: Attrs, children: seq<Node>): seq<Node> {
    var linked := if tag.Link? && !IsBlank(attrs.href) then Linked(children, attrs.href) else children;
    if attrs.style == [] then linked else Pushed(linked, attrs.style)
  }

  function Weight(ns: seq<Node>): nat {
    if ns == [] then 0 else 1 + (if ns[0].El? then Weight(ns[0].children) else 0) + Weight(ns[1..])
  }

  lemma {:induction false} WeightAt(ns: seq<Node>, i: nat)
    requires i < |ns| && ns[i].El?
    ensures Weight(ns[i].children) < Weight(ns)
  {
    if i > 0 {
      WeightAt(ns[1..], i - 1);
    }
  }

  lemma {:induction false} LinkedWeight(ns: seq<Node>, href: string)
    ensures Weight(Linked(ns, href)) == Weight(ns)
    decreases ns
  {
    if ns != [] {
      LinkedWeight(ns[1..], href);
      if ns[0].El? {
        LinkedWeight(ns[0].children, href);
      }
      assert Linked(ns, href)[1..] == Linked(ns[1..], href);
    }
  }

  lemma {:induction false} PushedWeight(ns: seq<Node>, style: Style)
    ensures Weight(Pushed(ns, style)) == Weight(ns)
  {
    if ns != [] {
      PushedWeight(ns[1..], style);
      assert Pushed(ns, style)[1..] == Pushed(ns[1..], style);
    }
  }

  /* ---- what the rewriting does to the output ---- */

  // Only images change, and inline HTML never shows an image.
  lemma {:induction false} LinkedInlineNode(n: Node, href: string)
    ensures InlineOf(LinkedNode(n, href)) == InlineOf(n)
    ensures IsBlockLevel(LinkedNode(n, href)) == IsBlockLevel(n)
    ensures n.El? ==> AnyBlock(LinkedNode(n, href).children) == AnyBlock(n.children)
    decreases n, 0
  {
    if n.El? {
      LinkedInline(n.children, href);
    }
  }

  lemma {:induction false} LinkedInline(ns: seq<Node>, href: string)
    ensures Inline(Linked(ns, href)) == Inline(ns)
    ensures AnyBlock(Linked(ns, href)) == AnyBlock(ns)
    decreases ns, 1
  {
    if ns != [] {
      LinkedInlineNode(ns[0], href);
      LinkedInline(ns[1..], href);
      var more := Linked(ns, href);
      assert more[0] == LinkedNode(ns[0], href) && more[1..] == Linked(ns[1..], href);
    }
  }

  lemma {:induction false} LinkedInert(n: Node, href: string)
    requires !IsBlockLevel(n) && !HasBlockDescendant(n)
    ensures LinkedNode(n, href) == n
    decreases n
  {
    if n.El? {
      LinkedInertAll(n.children, href);
    }
  }

  lemma {:induction false} LinkedInertAll(ns: seq<Node>, href: string)
    requires !AnyBlock(ns)
    ensures Linked(ns, href) == ns
    decreases ns
  {
    if ns != [] {
      LinkedInert(ns[0], href);
      LinkedInertAll(ns[1..], href);
      assert ns == [ns[0]] + ns[1..];
    }
  }

  /** Rewriting the images below a link is the same as remembering the link: an image
      without its own href ends up with that of the outermost dissolved link. */
  lemma {:induction false} LinkedFlow(ns: seq<Node>, run: seq<Node>, href: string, link: string)
    requires !IsBlank(href)
    ensures Flow(Linked(ns, href), run, link) == Flow(ns, run, href)
    decreases ns
  {
    if ns != [] {
      var n, more := ns[0], Linked(ns, href);
      assert more[0] == LinkedNode(n, href) && more[1..] == Linked(ns[1..], href);
      if n.El? && (IsBlockLevel(n) || HasBlockDescendant(n)) {
        LinkedInline(n.children, href);
        LinkedFlow(ns[1..], [], href, link);
        if IsBlockLevel(n) && !IsBlockTag(n.tag) {
          assert Element(more[0].tag, more[0].attrs, more[0].children, link) == Element(n.tag, n.attrs, n.children, href);
        } else if IsBlockTag(n.tag) {
          LinkedFlow(n.children, [], href, link);
        } else {
          LinkedFlow(n.children, [], href, LinkIn(n.tag, n.attrs, link));
        }
      } else {
        LinkedInert(n, href);
        LinkedFlow(ns[1..], run + [n], href, link);
      }
    }
  }

  /** Pushing a dissolved container's style onto its Sections and Rows changes nothing
      that is emitted: inside a column those are dissolved too. */
  lemma {:induction false} PushedFlow(ns: seq<Node>, run: seq<Node>, style: Style, link: string)
    ensures Flow(Pushed(ns, style), run, link) == Flow(ns, run, link)
    decreases ns
  {
    if ns != [] {
      var n, more := ns[0], Pushed(ns, style);
      assert more[0] == PushedNode(n, style) && more[1..] == Pushed(ns[1..], style);
      PushedFlow(ns[1..], [], style, link);
      PushedFlow(ns[1..], run + [n], style, link);
    }
  }

  lemma DissolvedFlow(tag: Tag, attrs: Attrs, children: seq<Node>)
    ensures Flow(Dissolved(tag, attrs, children), [], "") == Flow(children, [], LinkIn(tag, attrs, ""))
    ensures Weight(Dissolved(tag, attrs, children)) == Weight(children)
  {
    var linked := if tag.Link? && !IsBlank(attrs.href) then Linked(children, attrs.href) else children;
    if tag.Link? && !IsBlank(attrs.href) {
      LinkedFlow(children, [], attrs.href, "");
      LinkedWeight(children, attrs.href);
    }
    PushedFlow(linked, [], attrs.style, "");
    PushedWeight(linked, attrs.style);
  }

  /* ---- helpers of the writers ---- */

  method PartitionColumns(ns: seq<Node>) returns (cols: seq<Node>, others: seq<Node>)
    ensures cols == ColumnsOf(ns) && others == OthersOf(ns)
  {
    cols, others := [], [];
    for i := 0 to |ns|
      invariant cols + ColumnsOf(ns[i..]) == ColumnsOf(ns)
      invariant others + OthersOf(ns[i..]) == OthersOf(ns)
    {
      ghost var n, rest := ns[i], ns[i + 1..];
      assert ns[i..] == [n] + rest;
      TranslationLaws.FirstPart(n, rest);
      TranslationLaws.Assoc(cols, [n], ColumnsOf(rest));
      TranslationLaws.Assoc(others, [n], OthersOf(rest));
      if IsColumn(ns[i]) {
        cols := cols + [ns[i]];
      } else {
        others := others + [ns[i]];
      }
    }
    assert ns[|ns|..] == [];
  }

  // The flush closure: an inline run, if there is one, ends as a segment.
  method FlushSegment(segs: seq<Segment>, run: seq<Node>) returns (out: seq<Segment>)
    ensures out == segs + FlushRun(run)
  {
    out := segs;
    if |run| > 0 {
      out := out + [Run(run)];
    }
  }

  method SplitBreakouts(ns: seq<Node>, ancestor: Style) returns (segs: seq<Segment>)
    ensures segs == Split(ns, [], ancestor)
    decreases ns
  {
    segs := [];
    var run: seq<Node> := [];
    for i := 0 to |ns|
      invariant segs + Split(ns[i..], run, ancestor) == Split(ns, [], ancestor)
    {
      var c := ns[i];
      SplitStep(segs, ns, i, run, ancestor);
      if IsBreakout(c) {
        segs := FlushSegment(segs, run);
        run := [];
        var style := CarryBreakoutStyle(c.attrs.style, ancestor);
        segs := segs + [Breakout(style, c.children)];
      } else if ContainsBreakout(c) {
        segs := FlushSegment(segs, run);
        run := [];
        var merged := MergeStyleDecls(ancestor, c.attrs.style);
        var inner := SplitBreakouts(c.children, merged);
        segs := segs + inner;
      } else {
        run := run + [c];
      }
    }
    assert ns[|ns|..] == [];
    segs := FlushSegment(segs, run);
  }

  method CarryBreakoutStyle(own: Style, ancestor: Style) returns (style: Style)
    ensures style == Carried(ancestor, own)
  {
    if ancestor == [] {
      return own;
    }
    style := MergeStyleDecls(ancestor, own);
  }

  lemma LinkedStep(out: seq<Node>, ns: seq<Node>, i: nat, href: string)
    requires i < |ns|
    ensures out + Linked(ns[i..], href) == out + [LinkedNode(ns[i], href)] + Linked(ns[i + 1..], href)
  {
  }

  lemma PushedStep(out: seq<Node>, ns: seq<Node>, i: nat, style: Style)
    requires i < |ns|
    ensures out + Pushed(ns[i..], style) == out + [PushedNode(ns[i], style)] + Pushed(ns[i + 1..], style)
  {
  }

  lemma SplitStep(segs: seq<Segment>, ns: seq<Node>, i: nat, run: seq<Node>, ancestor: Style)
    requires i < |ns|
    ensures segs + Split(ns[i..], run, ancestor) ==
            if IsBreakout(ns[i]) then
              (segs + FlushRun(run)) + [Breakout(Carried(ancestor, ns[i].attrs.style), ns[i].children)] +
                  Split(ns[i + 1..], [], ancestor)
            else if ContainsBreakout(ns[i]) then
              (segs + FlushRun(run)) + Split(ns[i].children, [], Merge(ancestor, ns[i].attrs.style)) +
                  Split(ns[i + 1..], [], ancestor)
            else segs + Split(ns[i + 1..], run + [ns[i]], ancestor)
  {
  }

  method CarryLinkHref(ns: seq<Node>, href: string) returns (out: seq<Node>)
    ensures out == Linked(ns, href)
    decreases ns
  {
    out := [];
    for i := 0 to |ns|
      invariant out + Linked(ns[i..], href) == Linked(ns, href)
    {
      var c := ns[i];
      LinkedStep(out, ns, i, href);
      if c.El? && c.tag.Img? {
        if IsBlank(c.attrs.href) {
          c := c.(attrs := c.attrs.(href := href));
        }
      } else if c.El? {
        var children := CarryLinkHref(c.children, href);
        c := c.(children := children);
      }
      out := out + [c];
    }
    assert ns[|ns|..] == [];
  }

  method PushContainerStyle(ns: seq<Node>, style: Style) returns (out: seq<Node>)
    ensures out == Pushed(ns, style)
  {
    out := [];
    for i := 0 to |ns|
      invariant out + Pushed(ns[i..], style) == Pushed(ns, style)
    {
      var c := ns[i];
      PushedStep(out, ns, i, style);
      if c.El? && (c.tag.Section? || c.tag.Row?) {
        var merged := MergeStyleDecls(style, c.attrs.style);
        c := c.(attrs := c.attrs.(style := merged));
      }
      out := out + [c];
    }
    assert ns[|ns|..] == [];
  }

  /* ---- the writers ---- */

  lemma {:induction false} HtmlTokensConcat(a: seq<Html>, b: seq<Html>)
    ensures HtmlTokens(a + b) == HtmlTokens(a) + HtmlTokens(b)
  {
    if a == [] {
      assert a + b == b;
    } else {
      HtmlTokensConcat(a[1..], b);
      assert (a + b)[1..] == a[1..] + b && (a + b)[0] == a[0];
      assert HtmlTokens(a + b) == HtmlTokensIn(a[0]) + HtmlTokens(a[1..] + b);
    }
  }

  lemma InlineStep(out: seq<Token>, ns: seq<Node>, i: nat)
    requires i < |ns|
    ensures out + HtmlTokens(Inline(ns[i..])) == out + HtmlTokens(InlineOf(ns[i])) + HtmlTokens(Inline(ns[i + 1..]))
  {
    assert ns[i..][0] == ns[i] && ns[i..][1..] == ns[i + 1..];
    HtmlTokensConcat(InlineOf(ns[i]), Inline(ns[i + 1..]));
  }

  lemma OneHtmlToken(h: Html)
    ensures HtmlTokens([h]) == HtmlTokensIn(h)
  {
  }

  class Builder {
    var out: seq<Token>

    constructor ()
      ensures out == []
    {
      out := [];
    }

    method Write(t: Token)
      modifies this
      ensures out == old(out) + [t]
    {
      out := out + [t];
    }

    method WriteInline(ns: seq<Node>)
      modifies this
      ensures out == old(out) + HtmlTokens(Inline(ns))
      decreases ns, 1
    {
      for i := 0 to |ns|
        invariant out + HtmlTokens(Inline(ns[i..])) == old(out) + HtmlTokens(Inline(ns))
      {
        InlineStep(out, ns, i);
        WriteInlineNode(ns[i]);
      }
      assert ns[|ns|..] == [];
    }

    method WriteInlineNode(n: Node)
      modifies this
      ensures out == old(out) + HtmlTokens(InlineOf(n))
      decreases n, 0
    {
      if |InlineOf(n)| > 0 {
        OneHtmlToken(InlineOf(n)[0]);
      }
      match n {
        case Raw(t) => Write(Literal(t));
        case RichText(t, _) => Write(Literal(t));
        case El(tag, attrs, children) =>
          match tag {
            case Link => WriteElem("a", attrs, children);
            case Text => WriteElem("div", attrs, children);
            case Heading => WriteElem("div", attrs, children);
            case Br => Write(Break);
            case Inert(name) => WriteElem(name, attrs, children);
            case _ => WriteInline(children);
          }
      }
    }

    method WriteElem(name: string, attrs: Attrs, children: seq<Node>)
      modifies this
      ensures out == old(out) + HtmlTokensIn(Elem(name, attrs, Inline(children)))
      decreases children, 2
    {
      Write(StartElem(name, attrs));
      WriteInline(children);
      Write(EndElem(name));
    }

    method WriteStyled(name: string, style: Style, children: seq<Node>)
      modifies this
      ensures out == old(out) + HtmlTokens(Styled(name, style, Inline(children)))
    {
      if style == [] {
        WriteInline(children);
      } else {
        OneHtmlToken(Elem(name, PLAIN.(style := style), Inline(children)));
        WriteElem(name, PLAIN.(style := style), children);
      }
    }

    method WriteTextBlock(tag: Tag, style: Style, children: seq<Node>)
      modifies this
      ensures out == old(out) + TokensIn(TextBlock(tag, style, children))
    {
      Write(StartText(Promoted(style, TEXT_ATTRS)));
      var inner := TextInner(style);
      if tag.Heading? {
        inner := [Decl("margin", "0")] + inner;
        OneHtmlToken(Elem("h2", PLAIN.(style := inner), Inline(children)));
        WriteElem("h2", PLAIN.(style := inner), children);
      } else {
        WriteStyled("div", inner, children);
      }
      Write(EndText);
    }

    method WriteInlineAsText(run: seq<Node>)
      modifies this
      ensures out == old(out) + TokensIn(RunText(run))
    {
      if |run| == 1 && run[0].RichText? && run[0].style != [] {
        var n := run[0];
        Write(StartText(Promoted(n.style, TEXT_ATTRS)));
        var inner := TextInner(n.style);
        assert [Raw(n.text)][1..] == [];
        assert Inline([Raw(n.text)]) == [Chunk(n.text)] + Inline([]) == [Chunk(n.text)];
        WriteStyled("div", inner, [Raw(n.text)]);
        Write(EndText);
      } else {
        Write(StartText([]));
        WriteInline(run);
        Write(EndText);
      }
    }

    // The flush closure of writeChildren.
    method FlushText(run: seq<Node>)
      modifies this
      ensures out == old(out) + Tokens(Flush(run))
    {
      if |run| > 0 {
        OneToken(RunText(run));
        WriteInlineAsText(run);
      }
    }

    method WriteElement(tag: Tag, attrs: Attrs, children: seq<Node>)
      modifies this
      ensures out == old(out) + TokensIn(Element(tag, attrs, children, ""))
    {
      if tag.Img? {
        Write(Image(attrs.href, attrs.rest, Promoted(attrs.style, IMAGE_ATTRS)));
      } else if tag.Button? {
        Write(StartButton(attrs.href, Mapped(attrs.style, BUTTON_ATTRS)));
        WriteInline(children);
        Write(EndButton);
      } else if tag.Hr? {
        Write(Divider(attrs.style));
      } else {
        WriteTextBlock(tag, attrs.style, children);
      }
    }

    method WriteChildren(ns: seq<Node>)
      modifies this
      ensures out == old(out) + Tokens(Flow(ns, [], ""))
      decreases Weight(ns), 1
    {
      var run: seq<Node> := [];
      for i := 0 to |ns|
        invariant out + Tokens(Flow(ns[i..], run, "")) == old(out) + Tokens(Flow(ns, [], ""))
      {
        var c := ns[i];
        FlowStep(out, ns, i, run);
        if c.El? && (IsBlockLevel(c) || HasBlockDescendant(c)) {
          FlushText(run);
          run := [];
          WeightAt(ns, i);
          WriteBroken(c);
        } else {
          run := run + [c];
        }
      }
      assert ns[|ns|..] == [];
      FlushText(run);
    }

    // A node that cannot ride an inline run.
    method WriteBroken(c: Node)
      requires c.El? && (IsBlockLevel(c) || HasBlockDescendant(c))
      modifies this
      ensures out == old(out) + Tokens(Middle(c))
      decreases Weight(c.children), 2
    {
      if IsBlockTag(c.tag) {
        WriteChildren(c.children);
      } else if IsBlockLevel(c) {
        OneToken(Element(c.tag, c.attrs, c.children, ""));
        WriteElement(c.tag, c.attrs, c.children);
      } else {
        var children := c.children;
        if c.tag.Link? && !IsBlank(c.attrs.href) {
          children := CarryLinkHref(children, c.attrs.href);
        }
        if c.attrs.style != [] {
          children := PushContainerStyle(children, c.attrs.style);
        }
        DissolvedFlow(c.tag, c.attrs, c.children);
        WriteChildren(children);
      }
    }

    method WriteColumn(style: Style, children: seq<Node>)
      modifies this
      ensures out == old(out) + TokensIn(ColumnOut(style, children))
    {
      Write(StartColumn(Promoted(style, COLUMN_ATTRS)));
      WriteChildren(children);
      Write(EndColumn);
    }

    method WritePlainColumn(children: seq<Node>)
      modifies this
      ensures out == old(out) + TokensIn(MjColumn([], Flow(children, [], "")))
    {
      Write(StartColumn([]));
      WriteChildren(children);
      Write(EndColumn);
    }

    method WriteColumns(cols: seq<Node>)
      requires forall i :: 0 <= i < |cols| ==> cols[i].El?
      modifies this
      ensures out == old(out) + Tokens(ColumnsOut(cols))
    {
      for i := 0 to |cols|
        invariant out + Tokens(ColumnsOut(cols[i..])) == old(out) + Tokens(ColumnsOut(cols))
      {
        ColumnsStep(out, cols, i);
        WriteColumn(cols[i].attrs.style, cols[i].children);
      }
      assert cols[|cols|..] == [];
    }

    method WriteTrailing(others: seq<Node>)
      modifies this
      ensures out == old(out) + Tokens(TrailingOut(others))
    {
      if |others| > 0 {
        OneToken(MjColumn([], Flow(others, [], "")));
        WritePlainColumn(others);
      }
    }

    // Side-by-side columns, and a trailing one for whatever is not a column.
    method WriteSideBySide(style: Style, children: seq<Node>)
      modifies this
      ensures out == old(out) + TokensIn(SideBySide(style, children))
    {
      var cols, others := PartitionColumns(children);
      ColumnsAreColumns(children);
      ghost var start, columns := [StartSection(Promoted(style, SECTION_ATTRS))], Tokens(ColumnsOut(cols));
      Write(StartSection(Promoted(style, SECTION_ATTRS)));
      WriteColumns(cols);
      assert out == old(out) + start + columns;
      WriteTrailing(others);
      Write(EndSection);
      Regroup(old(out), start, columns, Tokens(TrailingOut(others)), [EndSection]);
      SideBySideTokens(style, children);
    }

    method WriteRunSection(run: seq<Node>, style: Style)
      modifies this
      ensures out == old(out) + TokensIn(RunSection(run, style))
    {
      Write(StartSection(style));
      if IsSoleWrapper(run) {
        OneToken(ColumnOut(run[0].attrs.style, run[0].children));
        WriteColumn(run[0].attrs.style, run[0].children);
      } else {
        OneToken(MjColumn([], Flow(run, [], "")));
        WritePlainColumn(run);
      }
      Write(EndSection);
    }

    method WriteCells(cols: seq<Node>, width: nat)
      requires forall i :: 0 <= i < |cols| ==> cols[i].El?
      modifies this
      ensures out == old(out) + CellTokens(CellsOut(cols, width))
    {
      for i := 0 to |cols|
        invariant out + CellTokens(CellsOut(cols[i..], width)) == old(out) + CellTokens(CellsOut(cols, width))
      {
        var c := cols[i];
        CellStep(out, cols, i, width);
        Write(StartCell(c.attrs.style, if CssProp(c.attrs.style, "width") == "" then width else 0));
        WriteInline(c.children);
        Write(EndCell);
      }
      assert cols[|cols|..] == [];
    }

    method WriteBreakoutTable(children: seq<Node>)
      modifies this
      ensures out == old(out) + Tokens(TableOut(children))
    {
      var cols, others := PartitionColumns(children);
      ColumnsAreColumns(children);
      if |cols| == 0 {
        return;
      }
      var width := 100 / |cols|;
      OneToken(MjTable(CellsOut(cols, width)));
      Write(StartTable);
      WriteCells(cols, width);
      Write(EndTable);
    }

    method WriteCardBody(ns: seq<Node>)
      modifies this
      ensures out == old(out) + Tokens(CardBody(ns, []))
    {
      var run: seq<Node> := [];
      for i := 0 to |ns|
        invariant out + Tokens(CardBody(ns[i..], run)) == old(out) + Tokens(CardBody(ns, []))
      {
        var c := ns[i];
        CardStep(out, ns, i, run);
        if IsBreakout(c) {
          WriteChildren(run);
          run := [];
          WriteBreakoutTable(c.children);
        } else {
          run := run + [c];
        }
      }
      assert ns[|ns|..] == [];
      WriteChildren(run);
    }

    method WriteCardColumn(attrs: Style, body: seq<Node>)
      modifies this
      ensures out == old(out) + Tokens([MjColumn(attrs, CardBody(body, []))])
    {
      OneToken(MjColumn(attrs, CardBody(body, [])));
      Write(StartColumn(attrs));
      WriteCardBody(body);
      Write(EndColumn);
    }

    method WriteCardWithBreakout(style: Style, children: seq<Node>)
      modifies this
      ensures out == old(out) + TokensIn(CardOut(style, children))
    {
      Write(StartSection(Promoted(style, SECTION_ATTRS)));
      if IsSoleWrapper(children) {
        WriteCardColumn(Promoted(children[0].attrs.style, COLUMN_ATTRS), children[0].children);
      } else {
        WriteCardColumn([], children);
      }
      Write(EndSection);
    }

    method WriteSegment(seg: Segment, style: Style)
      modifies this
      ensures out == old(out) + Tokens(SegmentOut(seg, style))
    {
      match seg {
        case Breakout(s, children) =>
          OneToken(SideBySide(s, children));
          WriteSideBySide(s, children);
        case Run(run) =>
          if |run| > 0 {
            OneToken(RunSection(run, style));
            WriteRunSection(run, style);
          }
      }
    }

    method WriteSegments(segs: seq<Segment>, style: Style)
      modifies this
      ensures out == old(out) + Tokens(SegmentsOut(segs, style))
    {
      for i := 0 to |segs|
        invariant out + Tokens(SegmentsOut(segs[i..], style)) == old(out) + Tokens(SegmentsOut(segs, style))
      {
        SegmentsStep(out, segs, i, style);
        WriteSegment(segs[i], style);
      }
      assert segs[|segs|..] == [];
    }

    method WriteSection(style: Style, children: seq<Node>)
      modifies this
      ensures out == old(out) + Tokens(SectionOut(style, children))
    {
      var cols, others := PartitionColumns(children);
      if |cols| > 0 {
        OneToken(SideBySide(style, children));
        WriteSideBySide(style, children);
        return;
      }
      if IsCard(style) && AnyBreakout(children) && BreakoutsTableSafe(children) {
        OneToken(CardOut(style, children));
        WriteCardWithBreakout(style, children);
        return;
      }
      var segs := SplitBreakouts(children, style);
      WriteSegments(segs, Promoted(style, SECTION_ATTRS));
    }

    method WriteLoose(n: Node)
      modifies this
      ensures out == old(out) + Tokens([Loose(n)])
    {
      OneToken(RunText([n]));
      OneToken(MjColumn([], [RunText([n])]));
      OneToken(Loose(n));
      Write(StartSection([]));
      Write(StartColumn([]));
      WriteInlineAsText([n]);
      Write(EndColumn);
      Write(EndSection);
    }

    method WriteBlock(n: Node)
      modifies this
      ensures out == old(out) + Tokens(BlockOut(n))
      decreases n, 0
    {
      if !n.El? {
        WriteLoose(n);
        return;
      }
      match n.tag {
        case SpacingWrapper => WriteWrapper(n.attrs.padding, n.children);
        case Section => WriteSection(n.attrs.style, n.children);
        case Row => WriteSection(n.attrs.style, n.children);
        case Column => WriteStrayColumn(n.attrs.style, n.children);
        case _ => WriteLoose(n);
      }
    }

    method WriteWrapper(padding: string, children: seq<Node>)
      modifies this
      ensures out == old(out) + Tokens([MjWrapper(padding, Blocks(children))])
      decreases children, 2
    {
      hide Blocks, Tokens;
      OneToken(MjWrapper(padding, Blocks(children)));
      Write(StartWrapper(padding));
      WriteBlocks(children);
      Write(EndWrapper);
    }

    // A column at block level gets a section of its own.
    method WriteStrayColumn(style: Style, children: seq<Node>)
      modifies this
      ensures out == old(out) + Tokens([MjSection(Promoted(style, SECTION_ATTRS), [ColumnOut(style, children)])])
    {
      OneToken(ColumnOut(style, children));
      OneToken(MjSection(Promoted(style, SECTION_ATTRS), [ColumnOut(style, children)]));
      Write(StartSection(Promoted(style, SECTION_ATTRS)));
      WriteColumn(style, children);
      Write(EndSection);
    }

    method WriteBlocks(ns: seq<Node>)
      modifies this
      ensures out == old(out) + Tokens(Blocks(ns))
      decreases ns, 1
    {
      for i := 0 to |ns|
        invariant out + Tokens(Blocks(ns[i..])) == old(out) + Tokens(Blocks(ns))
      {
        BlocksStep(out, ns, i);
        WriteBlock(ns[i]);
      }
      assert ns[|ns|..] == [];
    }
  }

  /** The whole document. */
  method Translate(roots: seq<Node>) returns (doc: seq<Token>)
    ensures doc == Tokens(Blocks(roots))
  {
    var b := new Builder();
    b.WriteBlocks(roots);
    doc := b.out;
  }

  lemma Regroup<T>(a: seq<T>, b: seq<T>, c: seq<T>, d: seq<T>, e: seq<T>)
    ensures a + b + c + d + e == a + (b + (c + d) + e)
  {
  }

  lemma SideBySideTokens(style: Style, children: seq<Node>)
    requires forall i :: 0 <= i < |ColumnsOf(children)| ==> ColumnsOf(children)[i].El?
    ensures TokensIn(SideBySide(style, children)) ==
            [StartSection(Promoted(style, SECTION_ATTRS))]
            + (Tokens(ColumnsOut(ColumnsOf(children))) + Tokens(TrailingOut(OthersOf(children)))) + [EndSection]
  {
    TokensConcat(ColumnsOut(ColumnsOf(children)), TrailingOut(OthersOf(children)));
  }

  lemma ColumnsStep(out: seq<Token>, cols: seq<Node>, i: nat)
    requires i < |cols| && forall k :: 0 <= k < |cols| ==> cols[k].El?
    ensures out + Tokens(ColumnsOut(cols[i..])) ==
            out + TokensIn(ColumnOut(cols[i].attrs.style, cols[i].children)) + Tokens(ColumnsOut(cols[i + 1..]))
  {
  }

  lemma CellStep(out: seq<Token>, cols: seq<Node>, i: nat, width: nat)
    requires i < |cols| && forall k :: 0 <= k < |cols| ==> cols[k].El?
    ensures var c := cols[i];
            out + CellTokens(CellsOut(cols[i..], width)) ==
            out + [StartCell(c.attrs.style, if CssProp(c.attrs.style, "width") == "" then width else 0)]
            + HtmlTokens(Inline(c.children)) + [EndCell] + CellTokens(CellsOut(cols[i + 1..], width))
  {
    assert cols[i..][0] == cols[i] && cols[i..][1..] == cols[i + 1..];
    var cells := CellsOut(cols[i..], width);
    assert cells[1..] == CellsOut(cols[i + 1..], width);
  }

  lemma CardStep(out: seq<Token>, ns: seq<Node>, i: nat, run: seq<Node>)
    requires i < |ns|
    ensures out + Tokens(CardBody(ns[i..], run)) ==
            if IsBreakout(ns[i]) then
              out + Tokens(Flow(run, [], "")) + Tokens(TableOut(ns[i].children)) + Tokens(CardBody(ns[i + 1..], []))
            else out + Tokens(CardBody(ns[i + 1..], run + [ns[i]]))
  {
    assert ns[i..][0] == ns[i] && ns[i..][1..] == ns[i + 1..];
    if IsBreakout(ns[i]) {
      ThreeTokens(out, Flow(run, [], ""), TableOut(ns[i].children), CardBody(ns[i + 1..], []));
    }
  }

  lemma SegmentsStep(out: seq<Token>, segs: seq<Segment>, i: nat, style: Style)
    requires i < |segs|
    ensures out + Tokens(SegmentsOut(segs[i..], style)) ==
            out + Tokens(SegmentOut(segs[i], style)) + Tokens(SegmentsOut(segs[i + 1..], style))
  {
    assert segs[i..][0] == segs[i] && segs[i..][1..] == segs[i + 1..];
    TokensConcat(SegmentOut(segs[i], style), SegmentsOut(segs[i + 1..], style));
  }

  lemma BlocksStep(out: seq<Token>, ns: seq<Node>, i: nat)
    requires i < |ns|
    ensures out + Tokens(Blocks(ns[i..])) == out + Tokens(BlockOut(ns[i])) + Tokens(Blocks(ns[i + 1..]))
  {
    assert ns[i..][0] == ns[i] && ns[i..][1..] == ns[i + 1..];
    TokensConcat(BlockOut(ns[i]), Blocks(ns[i + 1..]));
  }

  // What one such node becomes.
  function Middle(c: Node): seq<Mj>
    requires c.El?
  {
    if IsBlockLevel(c) && !IsBlockTag(c.tag) then [Element(c.tag, c.attrs, c.children, "")]
    else Flow(c.children, [], if IsBlockTag(c.tag) then "" else LinkIn(c.tag, c.attrs, ""))
  }

  lemma ThreeTokens(out: seq<Token>, a: seq<Mj>, b: seq<Mj>, c: seq<Mj>)
    ensures out + Tokens(a + b + c) == out + Tokens(a) + Tokens(b) + Tokens(c)
  {
    TokensConcat(a + b, c);
    TokensConcat(a, b);
  }

  lemma FlowStep(out: seq<Token>, ns: seq<Node>, i: nat, run: seq<Node>)
    requires i < |ns|
    ensures var c := ns[i];
            out + Tokens(Flow(ns[i..], run, "")) ==
            if c.El? && (IsBlockLevel(c) || HasBlockDescendant(c)) then
              out + Tokens(Flush(run)) + Tokens(Middle(c)) + Tokens(Flow(ns[i + 1..], [], ""))
            else out + Tokens(Flow(ns[i + 1..], run + [c], ""))
  {
    var c := ns[i];
    assert ns[i..][0] == c && ns[i..][1..] == ns[i + 1..];
    if c.El? && (IsBlockLevel(c) || HasBlockDescendant(c)) {
      var middle := TranslationLaws.FlowParts(ns[i..], run, "");
      ThreeTokens(out, Flush(run), middle, Flow(ns[i + 1..], [], ""));
    }
  }
}
