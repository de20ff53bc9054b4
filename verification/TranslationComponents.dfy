/** Buttons, images and dividers: which of a document's reach the email, where they lead
    and how they look. */
module TranslationComponents {
  import opened Styles
  import opened Markup
  import opened TranslationReference
  import Translation
  import TranslationParts

  predicate IsComponent(p: Part) {
    p.ButtonPart? || p.ImagePart? || p.DividerPart?
  }

  /** The buttons, images and dividers among the parts. */
  function Components(ps: seq<Part>): seq<Part> {
    if ps == [] then [] else (if IsComponent(ps[0]) then [ps[0]] else []) + Components(ps[1..])
  }

  // A button leads where it says; an image where it says or, if it says nothing, where
  // the outermost link around it leads.
  function OwnIn(n: Node, link: string): seq<Part> {
    if !n.El? then []
    else if n.tag.Button? then [ButtonPart(n.attrs.href, Authored(n.attrs.style, BUTTON_PROPS))]
    else if n.tag.Hr? then [DividerPart(n.attrs.style)]
    else if n.tag.Img? then
      [ImagePart(if IsNowhere(n.attrs.href) && !IsNowhere(link) then link else n.attrs.href, n.attrs.rest,
                 Authored(n.attrs.style, IMAGE_PROPS))]
    else []
  }

  function AuthoredIn(n: Node, link: string): seq<Part> {
    if !n.El? then [] else OwnIn(n, link) + AuthoredOf(n.children, Inside(n.tag, n.attrs, link))
  }

  /** The same of the authored tree, in document order. */
  function AuthoredOf(ns: seq<Node>, link: string): seq<Part> {
    if ns == [] then [] else AuthoredIn(ns[0], link) + AuthoredOf(ns[1..], link)
  }

  predicate PlacedIn(n: Node) {
    n.El? ==>
      && (n.tag.Text? || n.tag.Heading? || n.tag.Button? || n.tag.Img? || n.tag.Hr? ==> !HoldsComponent(n.children))
      && (n.tag.Link? || n.tag.Button? || n.tag.Img? || n.tag.Hr? ==> !HoldsRow(n.children))
      && ((n.tag.Section? || n.tag.Row? || n.tag.Column?) && ColumnCount(n.children) > 0 ==> NotColumns(n.children) == [])
      && Placed(n.children)
  }

  /** No button, image or divider inside a text, a heading or another of them; no row of
      columns inside a link, a button, an image or a divider; a layout node that holds a
      column holds only columns. */
  predicate Placed(ns: seq<Node>) {
    forall i :: 0 <= i < |ns| ==> PlacedIn(ns[i])
  }

  predicate LaidOutIn(n: Node) {
    if n.El? && n.tag.SpacingWrapper? then LaidOut(n.children)
    else if n.El? && (n.tag.Section? || n.tag.Row? || n.tag.Column?) then true
    else !ComponentHere(n)
  }

  /** At the top they are all inside a Section, Row or Column. */
  predicate LaidOut(ns: seq<Node>) {
    forall i :: 0 <= i < |ns| ==> LaidOutIn(ns[i])
  }

  lemma PlacedParts(ns: seq<Node>, k: nat)
    requires Placed(ns) && k <= |ns|
    ensures Placed(ns[..k]) && Placed(ns[k..]) && (ns != [] ==> PlacedIn(ns[0]))
  {
    hide PlacedIn;
  }

  // A container is placed if its content is, and holds what its content holds.
  lemma Opens(n: Node)
    requires PlacedIn(n) && n.El? && !(n.tag.Button? || n.tag.Img? || n.tag.Hr? || n.tag.Link?)
    ensures Placed(n.children) && AuthoredIn(n, "") == AuthoredOf(n.children, "")
  {
  }

  /* ---- putting lists together ---- */

  lemma Assoc<T>(a: seq<T>, b: seq<T>, c: seq<T>)
    ensures a + (b + c) == a + b + c
  {
  }

  lemma {:induction false} ComponentsConcat(a: seq<Part>, b: seq<Part>)
    ensures Components(a + b) == Components(a) + Components(b)
  {
    if a == [] {
      assert a + b == b;
    } else {
      ComponentsConcat(a[1..], b);
      assert (a + b)[0] == a[0] && (a + b)[1..] == a[1..] + b;
      Assoc(if IsComponent(a[0]) then [a[0]] else [], Components(a[1..]), Components(b));
    }
  }

  lemma OneComponent(p: Part)
    ensures Components([p]) == if IsComponent(p) then [p] else []
  {
  }

  lemma {:induction false} AuthoredConcat(a: seq<Node>, b: seq<Node>, link: string)
    ensures AuthoredOf(a + b, link) == AuthoredOf(a, link) + AuthoredOf(b, link)
  {
    if a == [] {
      assert a + b == b;
    } else {
      AuthoredConcat(a[1..], b, link);
      assert (a + b)[0] == a[0] && (a + b)[1..] == a[1..] + b;
      Assoc(AuthoredIn(a[0], link), AuthoredOf(a[1..], link), AuthoredOf(b, link));
    }
  }

  /* ---- lines of text hold none ---- */

  lemma {:induction false} LineHasNoneIn(n: Node)
    ensures Components(LinePartsIn(n)) == []
    decreases n
  {
    if n.El? {
      LineHasNone(n.children);
    }
  }

  lemma {:induction false} LineHasNone(ns: seq<Node>)
    ensures Components(LineParts(ns)) == []
    decreases ns
  {
    if ns != [] {
      LineHasNoneIn(ns[0]);
      LineHasNone(ns[1..]);
      ComponentsConcat(LinePartsIn(ns[0]), LineParts(ns[1..]));
    }
  }

  lemma InnerHasNone(style: Style)
    ensures Components(InnerPart(style)) == []
  {
  }

  lemma RunHasNone(run: seq<Node>)
    ensures Components(RunParts(run)) == []
  {
    LineHasNone(run);
    if |run| == 1 && run[0].RichText? {
      var style := run[0].style;
      InnerHasNone(style);
      ComponentsConcat([TextPart(Authored(style, TEXT_PROPS))] + InnerPart(style), [Words(run[0].text)]);
      ComponentsConcat([TextPart(Authored(style, TEXT_PROPS))], InnerPart(style));
    }
  }

  lemma {:induction false} NoneAuthored(ns: seq<Node>, link: string)
    requires !HoldsComponent(ns)
    ensures AuthoredOf(ns, link) == []
    decreases ns
  {
    if ns != [] {
      assert !ComponentHere(ns[0]);
      if ns[0].El? {
        NoneAuthored(ns[0].children, Inside(ns[0].tag, ns[0].attrs, link));
      }
      forall i | 0 <= i < |ns[1..]| ensures !ComponentHere(ns[1..][i]) {
        assert ns[1..][i] == ns[i + 1];
      }
      NoneAuthored(ns[1..], link);
    }
  }

  lemma NoneAuthoredIn(n: Node, link: string)
    requires !ComponentHere(n)
    ensures AuthoredIn(n, link) == []
  {
    if n.El? {
      NoneAuthored(n.children, Inside(n.tag, n.attrs, link));
    }
  }

  lemma {:induction false} NoBlockNoComponent(n: Node)
    requires Rides(n)
    ensures !ComponentHere(n)
    decreases n
  {
    if n.El? {
      assert !HoldsBlock(n.children);
      forall i | 0 <= i < |n.children| ensures !ComponentHere(n.children[i]) {
        assert !BlockHere(n.children[i]);
        NoBlockNoComponent(n.children[i]);
      }
    }
  }

  lemma {:induction false} RidingSkips(ns: seq<Node>, link: string)
    ensures AuthoredOf(ns, link) == AuthoredOf(ns[Riding(ns)..], link)
  {
    if ns != [] && Rides(ns[0]) {
      NoBlockNoComponent(ns[0]);
      NoneAuthoredIn(ns[0], link);
      RidingSkips(ns[1..], link);
      assert ns[1..][Riding(ns[1..])..] == ns[Riding(ns)..];
    }
  }

  /* ---- columns ---- */

  lemma ElementComponents(n: Node, link: string)
    requires PlacedIn(n) && IsElement(n)
    ensures Components(ElementParts(n.tag, n.attrs, n.children, link)) == AuthoredIn(n, link)
  {
    var line := LineParts(n.children);
    LineHasNone(n.children);
    NoneAuthored(n.children, Inside(n.tag, n.attrs, link));
    if n.tag.Button? {
      ComponentsConcat(OwnIn(n, link), line);
    } else if n.tag.Heading? {
      var text := TextPart(Authored(n.attrs.style, TEXT_PROPS));
      var inner := ElementPart("h2", Bare([Decl("margin", "0")] + Unpadded(n.attrs.style)));
      assert [text, inner][1..] == [inner] && [inner][1..] == [];
      ComponentsConcat([text, inner], line);
    } else if n.tag.Text? {
      var text := [TextPart(Authored(n.attrs.style, TEXT_PROPS))];
      InnerHasNone(n.attrs.style);
      ComponentsConcat(text + InnerPart(n.attrs.style), line);
      ComponentsConcat(text, InnerPart(n.attrs.style));
    }
  }

  lemma {:induction false} StandingComponents(n: Node, link: string)
    requires PlacedIn(n)
    ensures Components(StandingParts(n, link)) == AuthoredIn(n, link)
    decreases n
  {
    if n.El? {
      if IsElement(n) {
        ElementComponents(n, link);
      } else {
        ContentComponents(n.children, Inside(n.tag, n.attrs, link));
      }
    }
  }

  /** Column content keeps its buttons, images and dividers, in order. */
  lemma {:induction false} ContentComponents(ns: seq<Node>, link: string)
    requires Placed(ns)
    ensures Components(ContentParts(ns, link)) == AuthoredOf(ns, link)
    decreases ns
  {
    if ns != [] {
      hide Components, PlacedIn, AuthoredIn, StandingParts, RunParts, Rides;
      var n, k := ns[0], Riding(ns);
      if Rides(n) {
        PlacedParts(ns, k);
        ContentComponents(ns[k..], link);
        RunHasNone(ns[..k]);
        ComponentsConcat(RunParts(ns[..k]), ContentParts(ns[k..], link));
        RidingSkips(ns, link);
      } else {
        PlacedParts(ns, 1);
        ContentComponents(ns[1..], link);
        StandingComponents(n, link);
        ComponentsConcat(StandingParts(n, link), ContentParts(ns[1..], link));
      }
    }
  }

  lemma {:induction false} AllColumns(ns: seq<Node>)
    requires NotColumns(ns) == []
    ensures forall i :: 0 <= i < |ns| ==> IsCol(ns[i])
  {
    if ns != [] {
      AllColumns(ns[..|ns| - 1]);
    }
  }

  lemma ColumnComponents(look: Look, children: seq<Node>)
    requires Placed(children)
    ensures Components([ColumnPart(look)] + ContentParts(children, "")) == AuthoredOf(children, "")
  {
    ContentComponents(children, "");
    OneComponent(ColumnPart(look));
    ComponentsConcat([ColumnPart(look)], ContentParts(children, ""));
  }

  lemma {:induction false} EachColumnComponents(ns: seq<Node>)
    requires Placed(ns) && forall i :: 0 <= i < |ns| ==> IsCol(ns[i])
    ensures Components(EachColumn(ns)) == AuthoredOf(ns, "")
  {
    if ns != [] {
      hide Components, ContentParts, Authored, PlacedIn, AuthoredIn;
      var n, look := ns[0], Authored(ns[0].attrs.style, COLUMN_PROPS);
      PlacedParts(ns, 1);
      Opens(n);
      ColumnComponents(look, n.children);
      EachColumnComponents(ns[1..]);
      ComponentsConcat([ColumnPart(look)] + ContentParts(n.children, ""), EachColumn(ns[1..]));
    }
  }

  lemma BesideComponents(look: Look, children: seq<Node>)
    requires Placed(children) && NotColumns(children) == []
    ensures Components(BesideParts(look, children)) == AuthoredOf(children, "")
  {
    AllColumns(children);
    EachColumnComponents(children);
    OneComponent(SectionPart(look));
    ComponentsConcat([SectionPart(look)], EachColumn(children));
    assert BesideParts(look, children) == [SectionPart(look)] + EachColumn(children);
  }

  /* ---- sections ---- */

  lemma UnderColumn(look: Look, column: Look, content: seq<Part>)
    ensures Components([SectionPart(look)] + ([ColumnPart(column)] + content)) == Components(content)
  {
    OneComponent(SectionPart(look));
    OneComponent(ColumnPart(column));
    ComponentsConcat([ColumnPart(column)], content);
    ComponentsConcat([SectionPart(look)], [ColumnPart(column)] + content);
    assert [] + Components(content) == Components(content);
  }

  // A container around all the content holds all it holds.
  lemma BoxOpens(content: seq<Node>)
    requires Placed(content) && InOneBox(content)
    ensures Placed(content[0].children) && AuthoredOf(content, "") == AuthoredOf(content[0].children, "")
  {
    assert PlacedIn(content[0]) && content[1..] == [];
    assert AuthoredOf(content, "") == AuthoredIn(content[0], "") + [];
  }

  lemma PlainComponents(look: Look, content: seq<Node>)
    requires Placed(content)
    ensures Components(PlainParts(look, content)) == AuthoredOf(content, "")
  {
    hide Components, ContentParts, Authored, AuthoredOf, Placed;
    if InOneBox(content) {
      var box := content[0];
      BoxOpens(content);
      ContentComponents(box.children, "");
      UnderColumn(look, Authored(box.attrs.style, COLUMN_PROPS), ContentParts(box.children, ""));
    } else {
      ContentComponents(content, "");
      UnderColumn(look, BLANK_COLUMN.look, ContentParts(content, ""));
    }
  }

  lemma {:induction false} CountedColumn(ns: seq<Node>, i: nat)
    requires i < |ns| && IsCol(ns[i])
    ensures ColumnCount(ns) > 0
  {
    if i < |ns| - 1 {
      CountedColumn(ns[..|ns| - 1], i);
    }
  }

  // A row of columns, or a node that holds one.
  lemma RowOpens(n: Node)
    requires PlacedIn(n) && RowHere(n)
    ensures n.El? && Placed(n.children) && AuthoredIn(n, "") == AuthoredOf(n.children, "")
    ensures IsRowOfColumns(n) ==> NotColumns(n.children) == []
  {
    if IsRowOfColumns(n) {
      var i, j :| 0 <= i < j < |n.children| && IsCol(n.children[i]) && IsCol(n.children[j]);
      CountedColumn(n.children, i);
    }
    Opens(n);
  }

  // What two stretches of the tree become, one after the other.
  lemma InARow(a: seq<Part>, b: seq<Part>, ns: seq<Node>, ms: seq<Node>)
    requires Components(a) == AuthoredOf(ns, "") && Components(b) == AuthoredOf(ms, "")
    ensures Components(a + b) == AuthoredOf(ns + ms, "")
  {
    ComponentsConcat(a, b);
    AuthoredConcat(ns, ms, "");
  }

  lemma OneAuthored(n: Node)
    ensures AuthoredOf([n], "") == AuthoredIn(n, "")
  {
    assert [n][1..] == [] && AuthoredIn(n, "") + [] == AuthoredIn(n, "");
  }

  predicate SplitsInto(ns: seq<Node>, look: Look, chain: seq<Style>) {
    Components(SplitParts(ns, look, chain)) == AuthoredOf(ns, "")
  }

  lemma SplitAtRow(ns: seq<Node>, look: Look, chain: seq<Style>)
    requires ns != [] && Placed(ns) && RowHere(ns[0]) && ns[0].El? && SplitsInto(ns[1..], look, chain)
    requires IsRowOfColumns(ns[0]) || SplitsInto(ns[0].children, look, chain + [ns[0].attrs.style])
    ensures SplitsInto(ns, look, chain)
  {
    hide Components, BesideParts, Placed, AuthoredIn, AuthoredOf, IsRowOfColumns, HoldsRow, Lifted;
    var n, rest := ns[0], ns[1..];
    PlacedParts(ns, 1);
    RowOpens(n);
    OneAuthored(n);
    assert [n] + rest == ns;
    if IsRowOfColumns(n) {
      var lifted := Lifted(chain, n.attrs.style, SECTION_PROPS);
      BesideComponents(lifted, n.children);
      InARow(BesideParts(lifted, n.children), SplitParts(rest, look, chain), [n], rest);
    } else {
      InARow(SplitParts(n.children, look, chain + [n.attrs.style]), SplitParts(rest, look, chain), [n], rest);
    }
  }

  lemma SplitAtRun(ns: seq<Node>, look: Look, chain: seq<Style>)
    requires ns != [] && Placed(ns) && !RowHere(ns[0]) && SplitsInto(ns[BeforeRow(ns)..], look, chain)
    ensures SplitsInto(ns, look, chain)
  {
    hide Components, PlainParts, Placed, AuthoredOf, RowHere;
    var k := BeforeRow(ns);
    PlacedParts(ns, k);
    PlainComponents(look, ns[..k]);
    InARow(PlainParts(look, ns[..k]), SplitParts(ns[k..], look, chain), ns[..k], ns[k..]);
    assert ns[..k] + ns[k..] == ns;
  }

  lemma {:induction false} SplitComponents(ns: seq<Node>, look: Look, chain: seq<Style>)
    requires Placed(ns)
    ensures SplitsInto(ns, look, chain)
    decreases ns
  {
    if ns != [] {
      hide SplitsInto, Placed, IsRowOfColumns, HoldsRow;
      PlacedParts(ns, 1);
      if RowHere(ns[0]) {
        RowOpens(ns[0]);
        SplitComponents(ns[1..], look, chain);
        if !IsRowOfColumns(ns[0]) {
          SplitComponents(ns[0].children, look, chain + [ns[0].attrs.style]);
        }
        SplitAtRow(ns, look, chain);
      } else {
        PlacedParts(ns, BeforeRow(ns));
        SplitComponents(ns[BeforeRow(ns)..], look, chain);
        SplitAtRun(ns, look, chain);
      }
    }
  }

  lemma {:induction false} CellsHaveNone(ns: seq<Node>, width: nat)
    ensures Components(EachCell(ns, width)) == []
  {
    if ns != [] {
      CellsHaveNone(ns[1..], width);
      if IsCol(ns[0]) {
        var cell := CellPart(ns[0].attrs.style, if CssProp(ns[0].attrs.style, "width") != "" then 0 else width);
        LineHasNone(ns[0].children);
        ComponentsConcat([cell], LineParts(ns[0].children));
        ComponentsConcat([cell] + LineParts(ns[0].children), EachCell(ns[1..], width));
      } else {
        assert [] + EachCell(ns[1..], width) == EachCell(ns[1..], width);
      }
    }
  }

  lemma {:induction false} PlainColumnsHaveNone(ns: seq<Node>)
    requires forall i :: 0 <= i < |ns| ==> IsCol(ns[i]) && !HoldsComponent(ns[i].children)
    ensures AuthoredOf(ns, "") == []
  {
    if ns != [] {
      NoneAuthoredIn(ns[0], "");
      PlainColumnsHaveNone(ns[1..]);
    }
  }

  lemma TableHasNone(n: Node)
    requires PlacedIn(n) && IsRowOfColumns(n) && CellsOnly(n)
    ensures AuthoredIn(n, "") == [] && Components(TableParts(n.children)) == []
  {
    hide AuthoredIn, AuthoredOf, PlacedIn, EachCell, IsRowOfColumns, HoldsComponent;
    RowOpens(n);
    var columns := ColumnCount(n.children);
    AllColumns(n.children);
    PlainColumnsHaveNone(n.children);
    if columns > 0 {
      CellsHaveNone(n.children, 100 / columns);
      OneComponent(TablePart);
      ComponentsConcat([TablePart], EachCell(n.children, 100 / columns));
    }
  }

  lemma RowsFitParts(ns: seq<Node>, k: nat)
    requires AllRowsFit(ns) && ns != [] && k <= |ns|
    ensures AllRowsFit(ns[k..]) && (IsRowOfColumns(ns[0]) ==> CellsOnly(ns[0]))
  {
    hide IsRowOfColumns, CellsOnly;
    assert RowsFit(ns[0]);
  }

  predicate Tabulates(ns: seq<Node>) {
    Components(CardContent(ns)) == AuthoredOf(ns, "")
  }

  lemma CardAtRow(ns: seq<Node>)
    requires ns != [] && Placed(ns) && IsRowOfColumns(ns[0]) && ns[0].El? && CellsOnly(ns[0]) && Tabulates(ns[1..])
    ensures Tabulates(ns)
  {
    hide Components, Placed, AuthoredIn, AuthoredOf, IsRowOfColumns, TableParts, CellsOnly;
    var n, rest := ns[0], ns[1..];
    PlacedParts(ns, 1);
    OneAuthored(n);
    TableHasNone(n);
    InARow(TableParts(n.children), CardContent(rest), [n], rest);
    assert [n] + rest == ns;
  }

  lemma CardAtRun(ns: seq<Node>)
    requires ns != [] && Placed(ns) && !IsRowOfColumns(ns[0]) && Tabulates(ns[BeforeOwnRow(ns)..])
    ensures Tabulates(ns)
  {
    hide Components, ContentParts, Placed, AuthoredOf, IsRowOfColumns;
    var k := BeforeOwnRow(ns);
    PlacedParts(ns, k);
    ContentComponents(ns[..k], "");
    InARow(ContentParts(ns[..k], ""), CardContent(ns[k..]), ns[..k], ns[k..]);
    assert ns[..k] + ns[k..] == ns;
  }

  lemma IsARow(n: Node)
    requires IsRowOfColumns(n)
    ensures n.El?
  {
  }

  lemma {:induction false} CardContentComponents(ns: seq<Node>)
    requires Placed(ns) && AllRowsFit(ns)
    ensures Tabulates(ns)
    decreases ns
  {
    if ns != [] {
      hide Tabulates, Placed, IsRowOfColumns, CellsOnly, AllRowsFit;
      if IsRowOfColumns(ns[0]) {
        IsARow(ns[0]);
        PlacedParts(ns, 1);
        RowsFitParts(ns, 1);
        CardContentComponents(ns[1..]);
        CardAtRow(ns);
      } else {
        PlacedParts(ns, BeforeOwnRow(ns));
        RowsFitParts(ns, BeforeOwnRow(ns));
        CardContentComponents(ns[BeforeOwnRow(ns)..]);
        CardAtRun(ns);
      }
    }
  }

  lemma CardComponents(look: Look, children: seq<Node>)
    requires Placed(children) && AllRowsFit(children)
    ensures Components(CardParts(look, children)) == AuthoredOf(children, "")
  {
    hide Components, CardContent, Authored, AuthoredOf, Placed;
    if InOneBox(children) {
      var box := children[0];
      BoxOpens(children);
      assert RowsFit(box);
      CardContentComponents(box.children);
      UnderColumn(look, Authored(box.attrs.style, COLUMN_PROPS), CardContent(box.children));
    } else {
      CardContentComponents(children);
      UnderColumn(look, BLANK_COLUMN.look, CardContent(children));
    }
  }

  /* ---- the document ---- */

  lemma {:induction false} BlockComponents(n: Node)
    requires PlacedIn(n) && LaidOutIn(n)
    ensures Components(BlockPartsIn(n)) == AuthoredIn(n, "")
    decreases n
  {
    if n.El? && n.tag.SpacingWrapper? {
      DocumentComponents(n.children);
      ComponentsConcat([WrapperPart(n.attrs.padding)], BlockParts(n.children));
    } else if n.El? && (n.tag.Section? || n.tag.Row?) {
      var look := Authored(n.attrs.style, SECTION_PROPS);
      if ColumnCount(n.children) > 0 {
        BesideComponents(look, n.children);
      } else if HasCardStyle(n.attrs.style) && HoldsRow(n.children) && AllRowsFit(n.children) {
        CardComponents(look, n.children);
      } else {
        SplitComponents(n.children, look, [n.attrs.style]);
      }
    } else if n.El? && n.tag.Column? {
      var section, look := SectionPart(Authored(n.attrs.style, SECTION_PROPS)), Authored(n.attrs.style, COLUMN_PROPS);
      ColumnComponents(look, n.children);
      ComponentsConcat([section], [ColumnPart(look)] + ContentParts(n.children, ""));
      assert [section, ColumnPart(look)] + ContentParts(n.children, "") ==
             [section] + ([ColumnPart(look)] + ContentParts(n.children, ""));
    } else {
      var section := SectionPart(Look(["", "", "", "", "", "", ""], []));
      RunHasNone([n]);
      NoneAuthoredIn(n, "");
      assert [section, BLANK_COLUMN][1..] == [BLANK_COLUMN] && [BLANK_COLUMN][1..] == [];
      ComponentsConcat([section, BLANK_COLUMN], RunParts([n]));
    }
  }

  lemma {:induction false} DocumentComponents(ns: seq<Node>)
    requires Placed(ns) && LaidOut(ns)
    ensures Components(BlockParts(ns)) == AuthoredOf(ns, "")
    decreases ns
  {
    if ns != [] {
      assert PlacedIn(ns[0]) && LaidOutIn(ns[0]);
      BlockComponents(ns[0]);
      DocumentComponents(ns[1..]);
      ComponentsConcat(BlockPartsIn(ns[0]), BlockParts(ns[1..]));
    }
  }

  /** Under these conditions the buttons, images and dividers of the email are those of
      the tree, each once, in document order, with the href, the forwarded attributes and
      the look authored for it. */
  lemma ComponentsKept(ns: seq<Node>)
    requires Placed(ns) && LaidOut(ns)
    ensures Components(MjParts(Translation.Blocks(ns))) == AuthoredOf(ns, "")
  {
    TranslationParts.DocumentAgrees(ns);
    DocumentComponents(ns);
  }
}
