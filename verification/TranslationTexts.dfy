/** What becomes of the text: which leaves come out, in what order, and which are lost. */
module TranslationTexts {
  import opened Styles
  import opened Markup
  import opened Translation
  import opened TranslationLaws

  predicate Leafy(n: Node) {
    n.El? ==> (n.tag.Img? || n.tag.Hr? || n.tag.Br? ==> n.children == []) && LeafyAll(n.children)
  }

  /** Images, dividers and line breaks are leaves. */
  predicate LeafyAll(ns: seq<Node>) {
    ns == [] || (Leafy(ns[0]) && LeafyAll(ns[1..]))
  }

  predicate ColumnsAlone(n: Node) {
    n.El? ==> (IsBlockTag(n.tag) && ColumnsOf(n.children) != [] ==> OthersOf(n.children) == []) && ColumnsAloneAll(n.children)
  }

  /** A layout node that holds a Column holds only Columns. */
  predicate ColumnsAloneAll(ns: seq<Node>) {
    ns == [] || (ColumnsAlone(ns[0]) && ColumnsAloneAll(ns[1..]))
  }

  /* ---- the texts of any tree, as they come out ---- */

  // Side by side the columns come first.
  function BesideTexts(children: seq<Node>): seq<string> {
    Texts(ColumnsOf(children)) + Texts(OthersOf(children))
  }

  function SplitTexts(ns: seq<Node>): seq<string> {
    if ns == [] then [] else
    (if IsBreakout(ns[0]) then BesideTexts(ns[0].children)
     else if ContainsBreakout(ns[0]) then SplitTexts(ns[0].children)
     else TextsIn(ns[0])) + SplitTexts(ns[1..])
  }

  // A card's table rows keep only their columns.
  function RowsTexts(ns: seq<Node>): seq<string> {
    if ns == [] then [] else
    (if IsBreakout(ns[0]) then Texts(ColumnsOf(ns[0].children)) else TextsIn(ns[0])) + RowsTexts(ns[1..])
  }

  function CardRows(children: seq<Node>): seq<Node> {
    if IsSoleWrapper(children) then children[0].children else children
  }

  predicate KeptWhole(style: Style, children: seq<Node>) {
    ColumnsOf(children) == [] && IsCard(style) && AnyBreakout(children) && BreakoutsTableSafe(children)
  }

  function SectionTexts(style: Style, children: seq<Node>): seq<string> {
    if ColumnsOf(children) != [] then BesideTexts(children)
    else if KeptWhole(style, children) then RowsTexts(CardRows(children))
    else SplitTexts(children)
  }

  function BlockTexts(n: Node): seq<string> {
    if n.El? && n.tag.SpacingWrapper? then EmittedTexts(n.children)
    else if n.El? && (n.tag.Section? || n.tag.Row?) then SectionTexts(n.attrs.style, n.children)
    else TextsIn(n)
  }

  function EmittedTexts(ns: seq<Node>): seq<string> {
    if ns == [] then [] else BlockTexts(ns[0]) + EmittedTexts(ns[1..])
  }

  /* ---- the texts that are lost ---- */

  function RowsLost(ns: seq<Node>): seq<string> {
    if ns == [] then [] else (if IsBreakout(ns[0]) then Texts(OthersOf(ns[0].children)) else []) + RowsLost(ns[1..])
  }

  function BlockLost(n: Node): seq<string> {
    if n.El? && n.tag.SpacingWrapper? then Lost(n.children)
    else if n.El? && (n.tag.Section? || n.tag.Row?) && KeptWhole(n.attrs.style, n.children) then RowsLost(CardRows(n.children))
    else []
  }

  /** The text beside the columns of the table rows of cards. */
  function Lost(ns: seq<Node>): seq<string> {
    if ns == [] then [] else BlockLost(ns[0]) + Lost(ns[1..])
  }

  // Every text is kept or lost; if none is lost, all are kept, in order.
  ghost predicate Splits(all: seq<string>, kept: seq<string>, lost: seq<string>) {
    multiset(kept) + multiset(lost) == multiset(all) && |kept| + |lost| == |all| && (lost == [] ==> kept == all)
  }

  lemma SplitsJoin(all: seq<string>, kept: seq<string>, lost: seq<string>, all': seq<string>, kept': seq<string>,
                   lost': seq<string>)
    requires Splits(all', kept', lost')
    requires Splits(all, kept, lost) || (kept == [] && lost == all)
    ensures multiset(kept + kept') + multiset(lost + lost') == multiset(all + all')
    ensures |kept + kept'| + |lost + lost'| == |all + all'|
    ensures Splits(all + all', kept + kept', lost + lost')
  {
  }

  /* ---- inline content ---- */

  lemma {:induction false} LeafyConcat(a: seq<Node>, b: seq<Node>)
    ensures LeafyAll(a + b) <==> LeafyAll(a) && LeafyAll(b)
  {
    if a == [] {
      assert a + b == b;
    } else {
      LeafyConcat(a[1..], b);
      assert (a + b)[1..] == a[1..] + b && (a + b)[0] == a[0];
    }
  }

  lemma TextsPrepend(a: Node, rest: seq<Node>)
    ensures Texts([a] + rest) == TextsIn(a) + Texts(rest)
    ensures Texts([a]) == TextsIn(a)
  {
  }

  lemma OneHtml(h: Html)
    ensures HtmlTexts([h]) == HtmlTextsIn(h)
  {
  }

  lemma {:induction false} InlineTextsOf(n: Node)
    requires Leafy(n)
    ensures HtmlTexts(InlineOf(n)) == TextsIn(n)
    decreases n
  {
    if n.El? {
      InlineTexts(n.children);
    }
    if |InlineOf(n)| > 0 {
      OneHtml(InlineOf(n)[0]);
    }
  }

  lemma {:induction false} InlineTexts(ns: seq<Node>)
    requires LeafyAll(ns)
    ensures HtmlTexts(Inline(ns)) == Texts(ns)
    decreases ns
  {
    if ns != [] {
      InlineTextsOf(ns[0]);
      InlineTexts(ns[1..]);
      HtmlTextsConcat(InlineOf(ns[0]), Inline(ns[1..]));
    }
  }

  lemma OneMj(m: Mj)
    ensures MjTexts([m]) == MjTextsIn(m)
  {
  }

  lemma StyledTexts(name: string, style: Style, content: seq<Html>)
    ensures HtmlTexts(Styled(name, style, content)) == HtmlTexts(content)
  {
  }

  lemma FlushTexts(run: seq<Node>)
    requires LeafyAll(run)
    ensures MjTexts(Flush(run)) == Texts(run)
    ensures MjTextsIn(RunText(run)) == Texts(run)
  {
    OneMj(RunText(run));
    if |run| == 1 && run[0].RichText? && run[0].style != [] {
      StyledTexts("div", TextInner(run[0].style), [Chunk(run[0].text)]);
      assert [Chunk(run[0].text)][1..] == [] && run[1..] == [];
      assert Texts(run) == TextsIn(run[0]) + Texts(run[1..]);
    } else {
      InlineTexts(run);
    }
  }

  lemma ElementTexts(tag: Tag, attrs: Attrs, children: seq<Node>, link: string)
    requires IsBlockLevel(El(tag, attrs, children)) && !IsBlockTag(tag) && Leafy(El(tag, attrs, children))
    ensures MjTextsIn(Element(tag, attrs, children, link)) == Texts(children)
  {
    InlineTexts(children);
    if tag.Text? {
      StyledTexts("div", TextInner(attrs.style), Inline(children));
    }
    if tag.Heading? {
      var inner := [Decl("margin", "0")] + TextInner(attrs.style);
      StyledTexts("h2", inner, Inline(children));
      assert Styled("h2", inner, Inline(children)) == [Elem("h2", PLAIN.(style := inner), Inline(children))];
    }
  }

  // Three stretches of output in a row.
  lemma Joined(a: seq<Mj>, b: seq<Mj>, c: seq<Mj>, x: seq<string>, y: seq<string>, z: seq<string>)
    requires MjTexts(a) == x && MjTexts(b) == y && MjTexts(c) == z
    ensures MjTexts(a + b + c) == x + (y + z)
  {
    MjTextsConcat(a + b, c);
    MjTextsConcat(a, b);
    Assoc(x, y, z);
  }

  // Moving the next node into the run moves its text with it.
  lemma RunGrows(run: seq<Node>, n: Node, rest: seq<string>)
    requires LeafyAll(run) && Leafy(n)
    ensures LeafyAll(run + [n]) && Texts(run + [n]) + rest == Texts(run) + (TextsIn(n) + rest)
  {
    assert [n][1..] == [];
    LeafyConcat(run, [n]);
    TextsConcat(run, [n]);
    TextsPrepend(n, []);
    Assoc(Texts(run), TextsIn(n), rest);
  }

  /** The column content keeps the run's text and then the nodes', in order, whatever
      is dissolved. */
  lemma {:induction false} FlowTexts(ns: seq<Node>, run: seq<Node>, link: string)
    requires LeafyAll(ns) && LeafyAll(run)
    ensures MjTexts(Flow(ns, run, link)) == Texts(run) + Texts(ns)
    decreases ns
  {
    FlushTexts(run);
    if ns != [] {
      var n, rest := ns[0], ns[1..];
      if n.El? && (IsBlockLevel(n) || HasBlockDescendant(n)) {
        var middle := FlowParts(ns, run, link);
        FlowTexts(rest, [], link);
        if IsBlockLevel(n) && !IsBlockTag(n.tag) {
          ElementTexts(n.tag, n.attrs, n.children, link);
          OneMj(Element(n.tag, n.attrs, n.children, link));
        } else {
          FlowTexts(n.children, [], if IsBlockTag(n.tag) then link else LinkIn(n.tag, n.attrs, link));
        }
        Joined(Flush(run), middle, Flow(rest, [], link), Texts(run), TextsIn(n), Texts(rest));
      } else {
        RunGrows(run, n, Texts(rest));
        FlowTexts(rest, run + [n], link);
      }
    }
  }

  /* ---- columns side by side ---- */

  lemma {:induction false} PartsLeafy(ns: seq<Node>)
    requires LeafyAll(ns)
    ensures LeafyAll(ColumnsOf(ns)) && LeafyAll(OthersOf(ns))
  {
    if ns != [] {
      PartsLeafy(ns[1..]);
      LeafyConcat(if IsColumn(ns[0]) then [ns[0]] else [], ColumnsOf(ns[1..]));
      LeafyConcat(if IsColumn(ns[0]) then [] else [ns[0]], OthersOf(ns[1..]));
    }
  }

  lemma {:induction false} ColumnsOutTexts(cols: seq<Node>)
    requires LeafyAll(cols) && forall i :: 0 <= i < |cols| ==> cols[i].El?
    ensures MjTexts(ColumnsOut(cols)) == Texts(cols)
  {
    if cols != [] {
      FlowTexts(cols[0].children, [], "");
      ColumnsOutTexts(cols[1..]);
      OneMj(ColumnOut(cols[0].attrs.style, cols[0].children));
      MjTextsConcat([ColumnOut(cols[0].attrs.style, cols[0].children)], ColumnsOut(cols[1..]));
    }
  }

  lemma TrailingTexts(others: seq<Node>)
    requires LeafyAll(others)
    ensures MjTexts(TrailingOut(others)) == Texts(others)
  {
    FlowTexts(others, [], "");
    OneMj(MjColumn([], Flow(others, [], "")));
  }

  lemma SideBySideTexts(style: Style, children: seq<Node>)
    requires LeafyAll(children)
    ensures MjTextsIn(SideBySide(style, children)) == BesideTexts(children)
  {
    var cols, others := ColumnsOf(children), OthersOf(children);
    PartsLeafy(children);
    ColumnsAreColumns(children);
    ColumnsOutTexts(cols);
    TrailingTexts(others);
    MjTextsConcat(ColumnsOut(cols), TrailingOut(others));
  }

  lemma RunSectionTexts(run: seq<Node>, style: Style)
    requires LeafyAll(run)
    ensures MjTextsIn(RunSection(run, style)) == Texts(run)
  {
    if IsSoleWrapper(run) {
      FlowTexts(run[0].children, [], "");
      OneMj(ColumnOut(run[0].attrs.style, run[0].children));
      assert run == [run[0]];
      TextsPrepend(run[0], []);
    } else {
      FlowTexts(run, [], "");
      OneMj(MjColumn([], Flow(run, [], "")));
    }
  }

  lemma OneSegment(seg: Segment, style: Style)
    ensures SegmentsOut([seg], style) == SegmentOut(seg, style)
  {
  }

  lemma FlushRunTexts(run: seq<Node>, style: Style)
    requires LeafyAll(run)
    ensures MjTexts(SegmentsOut(FlushRun(run), style)) == Texts(run)
  {
    if run != [] {
      RunSectionTexts(run, style);
      OneSegment(Run(run), style);
      OneMj(RunSection(run, style));
    }
  }

  lemma JoinedSegments(a: seq<Segment>, b: seq<Segment>, c: seq<Segment>, style: Style, x: seq<string>,
                       y: seq<string>, z: seq<string>)
    requires MjTexts(SegmentsOut(a, style)) == x && MjTexts(SegmentsOut(b, style)) == y && MjTexts(SegmentsOut(c, style)) == z
    ensures MjTexts(SegmentsOut(a + b + c, style)) == x + (y + z)
  {
    SegmentsConcat(a + b, c, style);
    SegmentsConcat(a, b, style);
    Joined(SegmentsOut(a, style), SegmentsOut(b, style), SegmentsOut(c, style), x, y, z);
  }

  lemma {:induction false} SplitTextsOut(ns: seq<Node>, run: seq<Node>, ancestor: Style, style: Style)
    requires LeafyAll(ns) && LeafyAll(run)
    ensures MjTexts(SegmentsOut(Split(ns, run, ancestor), style)) == Texts(run) + SplitTexts(ns)
    decreases ns
  {
    FlushRunTexts(run, style);
    if ns != [] {
      var n, rest := ns[0], ns[1..];
      if IsBreakout(n) {
        var seg := Breakout(Carried(ancestor, n.attrs.style), n.children);
        SplitTextsOut(rest, [], ancestor, style);
        SideBySideTexts(seg.style, n.children);
        OneSegment(seg, style);
        OneMj(SideBySide(seg.style, n.children));
        JoinedSegments(FlushRun(run), [seg], Split(rest, [], ancestor), style, Texts(run), BesideTexts(n.children),
                       SplitTexts(rest));
      } else if ContainsBreakout(n) {
        var inner := Split(n.children, [], Merge(ancestor, n.attrs.style));
        SplitTextsOut(n.children, [], Merge(ancestor, n.attrs.style), style);
        SplitTextsOut(rest, [], ancestor, style);
        JoinedSegments(FlushRun(run), inner, Split(rest, [], ancestor), style, Texts(run), SplitTexts(n.children),
                       SplitTexts(rest));
      } else {
        RunGrows(run, n, SplitTexts(rest));
        SplitTextsOut(rest, run + [n], ancestor, style);
      }
    }
  }

  /* ---- cards kept whole ---- */

  lemma {:induction false} CellsTexts(cols: seq<Node>, width: nat)
    requires LeafyAll(cols) && forall i :: 0 <= i < |cols| ==> cols[i].El?
    ensures CellTexts(CellsOut(cols, width)) == Texts(cols)
  {
    if cols != [] {
      InlineTexts(cols[0].children);
      CellsTexts(cols[1..], width);
      assert CellsOut(cols, width)[1..] == CellsOut(cols[1..], width);
    }
  }

  lemma PartsStep(n: Node, rest: seq<Node>, cols: seq<Node>, others: seq<Node>)
    requires Splits(Texts(rest), Texts(cols), Texts(others))
    ensures Splits(Texts([n] + rest), Texts([n] + cols), Texts(others))
    ensures Splits(Texts([n] + rest), Texts(cols), Texts([n] + others))
  {
    TextsPrepend(n, rest);
    TextsPrepend(n, cols);
    TextsPrepend(n, others);
    var here := TextsIn(n);
    SplitsJoin(here, here, [], Texts(rest), Texts(cols), Texts(others));
    SplitsJoin(here, [], here, Texts(rest), Texts(cols), Texts(others));
    assert [] + Texts(others) == Texts(others) && [] + Texts(cols) == Texts(cols);
  }

  // Columns and the rest together hold every text once.
  lemma {:induction false} PartsHoldAll(ns: seq<Node>)
    ensures Splits(Texts(ns), Texts(ColumnsOf(ns)), Texts(OthersOf(ns)))
  {
    if ns != [] {
      var n, rest := ns[0], ns[1..];
      PartsHoldAll(rest);
      FirstPart(n, rest);
      PartsStep(n, rest, ColumnsOf(rest), OthersOf(rest));
      assert ns == [n] + rest;
    }
  }

  lemma OneTable(cols: seq<Node>, width: nat)
    requires LeafyAll(cols) && forall i :: 0 <= i < |cols| ==> cols[i].El?
    ensures MjTexts([MjTable(CellsOut(cols, width))]) == Texts(cols)
  {
    CellsTexts(cols, width);
    OneMj(MjTable(CellsOut(cols, width)));
  }

  lemma TableForm(children: seq<Node>, cols: seq<Node>)
    requires cols == ColumnsOf(children) && forall i :: 0 <= i < |cols| ==> cols[i].El?
    ensures TableOut(children) == if cols == [] then [] else [MjTable(CellsOut(cols, 100 / |cols|))]
  {
  }

  lemma TableTexts(children: seq<Node>)
    requires LeafyAll(children)
    ensures MjTexts(TableOut(children)) == Texts(ColumnsOf(children))
  {
    hide TableOut, CellsOut, ColumnsOf, LeafyAll;
    var cols := ColumnsOf(children);
    PartsLeafy(children);
    ColumnsAreColumns(children);
    TableForm(children, cols);
    if cols != [] {
      OneTable(cols, 100 / |cols|);
    }
  }

  /** A breakout row rendered as a table keeps exactly the texts of its columns: all of
      the row's text if and only if there is none beside them. */
  lemma TableKeepsColumns(children: seq<Node>)
    requires LeafyAll(children)
    ensures MjTexts(TableOut(children)) == Texts(ColumnsOf(children))
    ensures MjTexts(TableOut(children)) == Texts(children) <==> Texts(OthersOf(children)) == []
  {
    TableTexts(children);
    PartsHoldAll(children);
  }

  lemma {:induction false} CardBodyTexts(ns: seq<Node>, run: seq<Node>)
    requires LeafyAll(ns) && LeafyAll(run)
    ensures MjTexts(CardBody(ns, run)) == Texts(run) + RowsTexts(ns)
    decreases ns
  {
    FlowTexts(run, [], "");
    if ns != [] {
      var n, rest := ns[0], ns[1..];
      if IsBreakout(n) {
        TableKeepsColumns(n.children);
        CardBodyTexts(rest, []);
        Joined(Flow(run, [], ""), TableOut(n.children), CardBody(rest, []), Texts(run), Texts(ColumnsOf(n.children)),
               RowsTexts(rest));
      } else {
        RunGrows(run, n, RowsTexts(rest));
        CardBodyTexts(rest, run + [n]);
      }
    }
  }

  lemma {:induction false} RowsHoldAll(ns: seq<Node>)
    ensures Splits(Texts(ns), RowsTexts(ns), RowsLost(ns))
  {
    if ns != [] {
      var n, rest := ns[0], ns[1..];
      RowsHoldAll(rest);
      if IsBreakout(n) {
        PartsHoldAll(n.children);
        SplitsJoin(TextsIn(n), Texts(ColumnsOf(n.children)), Texts(OthersOf(n.children)), Texts(rest),
                   RowsTexts(rest), RowsLost(rest));
      } else {
        SplitsJoin(TextsIn(n), TextsIn(n), [], Texts(rest), RowsTexts(rest), RowsLost(rest));
      }
    }
  }

  lemma CardRowsTexts(children: seq<Node>)
    ensures Texts(CardRows(children)) == Texts(children)
  {
    if IsSoleWrapper(children) {
      assert children == [children[0]];
      TextsPrepend(children[0], []);
    }
  }

  /** A card kept whole keeps, in order, everything but the text beside the columns of
      its table rows: all of its text if and only if there is none. */
  lemma CardKeepsTexts(style: Style, children: seq<Node>)
    requires LeafyAll(children)
    ensures MjTextsIn(CardOut(style, children)) == RowsTexts(CardRows(children))
    ensures MjTextsIn(CardOut(style, children)) == Texts(children) <==> RowsLost(CardRows(children)) == []
  {
    var rows := CardRows(children);
    CardBodyTexts(rows, []);
    OneMj(MjColumn(if IsSoleWrapper(children) then Promoted(children[0].attrs.style, COLUMN_ATTRS) else [],
                   CardBody(rows, [])));
    RowsHoldAll(rows);
    CardRowsTexts(children);
  }

  /* ---- the document ---- */

  lemma SectionForms(style: Style, children: seq<Node>)
    ensures SectionOut(style, children) ==
            if ColumnsOf(children) != [] then [SideBySide(style, children)]
            else if KeptWhole(style, children) then [CardOut(style, children)]
            else SegmentsOut(Split(children, [], style), Promoted(style, SECTION_ATTRS))
  {
  }

  lemma SectionTextsOut(style: Style, children: seq<Node>)
    requires LeafyAll(children)
    ensures MjTexts(SectionOut(style, children)) == SectionTexts(style, children)
  {
    hide SectionOut, SideBySide, CardOut, KeptWhole;
    SectionForms(style, children);
    if ColumnsOf(children) != [] {
      SideBySideTexts(style, children);
      OneMj(SideBySide(style, children));
    } else if KeptWhole(style, children) {
      CardKeepsTexts(style, children);
      OneMj(CardOut(style, children));
    } else {
      SplitTextsOut(children, [], style, Promoted(style, SECTION_ATTRS));
    }
  }

  lemma LooseTexts(n: Node)
    requires Leafy(n)
    ensures MjTexts([Loose(n)]) == TextsIn(n)
  {
    TextsPrepend(n, []);
    FlushTexts([n]);
    OneMj(RunText([n]));
    OneMj(MjColumn([], [RunText([n])]));
    OneMj(Loose(n));
  }

  lemma {:induction false} BlockTextsOut(n: Node)
    requires Leafy(n)
    ensures MjTexts(BlockOut(n)) == BlockTexts(n)
    decreases n
  {
    LooseTexts(n);
    if n.El? {
      if n.tag.SpacingWrapper? {
        TextsOut(n.children);
        OneMj(MjWrapper(n.attrs.padding, Blocks(n.children)));
      } else if n.tag.Section? || n.tag.Row? {
        SectionTextsOut(n.attrs.style, n.children);
      } else if n.tag.Column? {
        FlowTexts(n.children, [], "");
        OneMj(ColumnOut(n.attrs.style, n.children));
        OneMj(MjSection(Promoted(n.attrs.style, SECTION_ATTRS), [ColumnOut(n.attrs.style, n.children)]));
      }
    }
  }

  /** The text of every document, side-by-side columns first and the lost text gone. */
  lemma {:induction false} TextsOut(ns: seq<Node>)
    requires LeafyAll(ns)
    ensures MjTexts(Blocks(ns)) == EmittedTexts(ns)
    decreases ns
  {
    if ns != [] {
      BlockTextsOut(ns[0]);
      TextsOut(ns[1..]);
      MjTextsConcat(BlockOut(ns[0]), Blocks(ns[1..]));
    }
  }

  /* ---- nothing lost ---- */

  ghost predicate Conserves(all: seq<string>, kept: seq<string>, lost: seq<string>) {
    multiset(kept) + multiset(lost) == multiset(all)
  }

  lemma ConservesJoin(all: seq<string>, kept: seq<string>, lost: seq<string>, all': seq<string>, kept': seq<string>,
                      lost': seq<string>)
    requires Conserves(all, kept, lost) && Conserves(all', kept', lost')
    ensures Conserves(all + all', kept + kept', lost + lost')
  {
  }

  lemma BesideHoldsAll(children: seq<Node>)
    ensures Conserves(Texts(children), BesideTexts(children), [])
  {
    PartsHoldAll(children);
  }

  lemma {:induction false} SplitHoldsAll(ns: seq<Node>)
    ensures Conserves(Texts(ns), SplitTexts(ns), [])
    decreases ns
  {
    if ns != [] {
      var n, rest := ns[0], ns[1..];
      SplitHoldsAll(rest);
      if IsBreakout(n) {
        BesideHoldsAll(n.children);
        ConservesJoin(TextsIn(n), BesideTexts(n.children), [], Texts(rest), SplitTexts(rest), []);
      } else if ContainsBreakout(n) {
        SplitHoldsAll(n.children);
        ConservesJoin(TextsIn(n), SplitTexts(n.children), [], Texts(rest), SplitTexts(rest), []);
      } else {
        ConservesJoin(TextsIn(n), TextsIn(n), [], Texts(rest), SplitTexts(rest), []);
      }
    }
  }

  lemma SectionHoldsAll(style: Style, children: seq<Node>)
    ensures Conserves(Texts(children), SectionTexts(style, children),
                      if KeptWhole(style, children) then RowsLost(CardRows(children)) else [])
  {
    BesideHoldsAll(children);
    RowsHoldAll(CardRows(children));
    CardRowsTexts(children);
    SplitHoldsAll(children);
  }

  lemma {:induction false} BlockHoldsAll(n: Node)
    ensures Conserves(TextsIn(n), BlockTexts(n), BlockLost(n))
    decreases n
  {
    if n.El? {
      if n.tag.SpacingWrapper? {
        DocumentHoldsAll(n.children);
      } else if n.tag.Section? || n.tag.Row? {
        SectionHoldsAll(n.attrs.style, n.children);
      }
    }
  }

  lemma {:induction false} DocumentHoldsAll(ns: seq<Node>)
    ensures Conserves(Texts(ns), EmittedTexts(ns), Lost(ns))
    decreases ns
  {
    if ns != [] {
      BlockHoldsAll(ns[0]);
      DocumentHoldsAll(ns[1..]);
      ConservesJoin(TextsIn(ns[0]), BlockTexts(ns[0]), BlockLost(ns[0]), Texts(ns[1..]), EmittedTexts(ns[1..]), Lost(ns[1..]));
    }
  }

  /** Every text leaf of a tree comes out exactly once except those beside the columns of
      a card's table rows: nothing is lost if and only if there is no such text. */
  lemma TextLostIff(ns: seq<Node>)
    requires LeafyAll(ns)
    ensures multiset(MjTexts(Blocks(ns))) + multiset(Lost(ns)) == multiset(Texts(ns))
    ensures multiset(MjTexts(Blocks(ns))) == multiset(Texts(ns)) <==> Lost(ns) == []
  {
    TextsOut(ns);
    DocumentHoldsAll(ns);
    assert |multiset(Lost(ns))| == |Lost(ns)|;
  }

  /* ---- nothing moved ---- */

  lemma {:induction false} SplitInOrder(ns: seq<Node>)
    requires ColumnsAloneAll(ns)
    ensures SplitTexts(ns) == Texts(ns)
    decreases ns
  {
    if ns != [] {
      SplitInOrder(ns[1..]);
      if IsBreakout(ns[0]) {
        PartsHoldAll(ns[0].children);
      } else if ContainsBreakout(ns[0]) {
        SplitInOrder(ns[0].children);
      }
    }
  }

  lemma {:induction false} NoRowsLost(ns: seq<Node>)
    requires ColumnsAloneAll(ns)
    ensures RowsLost(ns) == []
  {
    if ns != [] {
      NoRowsLost(ns[1..]);
    }
  }

  lemma CardInOrder(children: seq<Node>)
    requires ColumnsAloneAll(children)
    ensures RowsTexts(CardRows(children)) == Texts(children)
  {
    if IsSoleWrapper(children) {
      assert ColumnsAlone(children[0]);
    }
    NoRowsLost(CardRows(children));
    RowsHoldAll(CardRows(children));
    CardRowsTexts(children);
  }

  lemma SectionInOrder(style: Style, children: seq<Node>)
    requires ColumnsAloneAll(children) && (ColumnsOf(children) != [] ==> OthersOf(children) == [])
    ensures SectionTexts(style, children) == Texts(children)
  {
    if ColumnsOf(children) != [] {
      PartsHoldAll(children);
    } else {
      CardInOrder(children);
      SplitInOrder(children);
    }
  }

  lemma {:induction false} BlockInOrder(n: Node)
    requires ColumnsAlone(n)
    ensures BlockTexts(n) == TextsIn(n)
    decreases n
  {
    if n.El? {
      if n.tag.SpacingWrapper? {
        DocumentInOrder(n.children);
      } else if n.tag.Section? || n.tag.Row? {
        SectionInOrder(n.attrs.style, n.children);
      }
    }
  }

  lemma {:induction false} DocumentInOrder(ns: seq<Node>)
    requires ColumnsAloneAll(ns)
    ensures EmittedTexts(ns) == Texts(ns)
    decreases ns
  {
    if ns != [] {
      BlockInOrder(ns[0]);
      DocumentInOrder(ns[1..]);
    }
  }

  /** If besides a layout node that holds a Column holds only Columns, the text leaves
      come out exactly, in document order. */
  lemma TextsKept(ns: seq<Node>)
    requires LeafyAll(ns) && ColumnsAloneAll(ns)
    ensures MjTexts(Blocks(ns)) == Texts(ns)
  {
    TextsOut(ns);
    DocumentInOrder(ns);
  }

  // A two-column row with a text beside its columns, and the card around it.
  const LONE_COLUMN := El(Column, PLAIN, [])
  const STRAGGLER := [LONE_COLUMN, LONE_COLUMN, Raw("lost")]
  const STRAGGLER_ROW := El(Row, PLAIN, STRAGGLER)
  const CARD_STYLE := [Decl("border-radius", "8px")]
  const STRAGGLER_CARD := El(Section, PLAIN.(style := CARD_STYLE), [STRAGGLER_ROW])

  lemma StragglerParts()
    ensures ColumnsOf(STRAGGLER) == [LONE_COLUMN, LONE_COLUMN] && Texts(OthersOf(STRAGGLER)) == ["lost"]
  {
    var tail := [LONE_COLUMN, Raw("lost")];
    assert STRAGGLER[1..] == tail && tail[1..] == [Raw("lost")] && [Raw("lost")][1..] == [];
    assert ColumnsOf([Raw("lost")]) == [] && ColumnsOf(tail) == [LONE_COLUMN] + [];
    assert OthersOf([Raw("lost")]) == [Raw("lost")] && OthersOf(tail) == [] + [Raw("lost")];
    TextsPrepend(Raw("lost"), []);
  }

  lemma StragglerCardKeptWhole()
    ensures KeptWhole(CARD_STYLE, [STRAGGLER_ROW]) && !IsSoleWrapper([STRAGGLER_ROW])
  {
    StragglerParts();
    assert [STRAGGLER_ROW][1..] == [];
    assert IsBreakout(STRAGGLER_ROW) && AnyBreakout([STRAGGLER_ROW]);
    assert !AnyComponent([]) && TableSafe(STRAGGLER_ROW) && BreakoutsTableSafe([]);
    assert BreakoutsTableSafe([STRAGGLER_ROW]);
    assert ColumnsOf([STRAGGLER_ROW]) == [] + ColumnsOf([]);
    assert CssProp(CARD_STYLE, "border-radius") == "8px";
  }

  /** Such a card: all its text is lost. */
  lemma TableDropsStragglers()
    ensures LeafyAll([STRAGGLER_CARD]) && Texts([STRAGGLER_CARD]) == ["lost"] && MjTexts(Blocks([STRAGGLER_CARD])) == []
  {
    StragglerParts();
    StragglerCardKeptWhole();
    var tail := [LONE_COLUMN, Raw("lost")];
    assert STRAGGLER[1..] == tail && tail[1..] == [Raw("lost")] && [Raw("lost")][1..] == [];
    assert LeafyAll([Raw("lost")]) && LeafyAll(tail) && LeafyAll(STRAGGLER);
    assert [STRAGGLER_ROW][1..] == [] && [STRAGGLER_CARD][1..] == [];
    assert Leafy(STRAGGLER_ROW) && LeafyAll([STRAGGLER_ROW]) && Leafy(STRAGGLER_CARD);
    TextsPrepend(LONE_COLUMN, [LONE_COLUMN]);
    TextsPrepend(LONE_COLUMN, []);
    assert RowsTexts([STRAGGLER_ROW]) == Texts([LONE_COLUMN, LONE_COLUMN]) + RowsTexts([]);
    TextsPrepend(LONE_COLUMN, tail);
    TextsPrepend(LONE_COLUMN, [Raw("lost")]);
    TextsPrepend(Raw("lost"), []);
    TextsPrepend(STRAGGLER_ROW, []);
    TextsPrepend(STRAGGLER_CARD, []);
    TextsOut([STRAGGLER_CARD]);
    assert EmittedTexts([STRAGGLER_CARD]) == BlockTexts(STRAGGLER_CARD) + EmittedTexts([]);
  }
}
