/** What the MJML translator emits, as functions of the bound tree. */
module Translation {
  import opened Strings
  import opened Styles
  import opened Markup

  /* ---- which nodes are what ---- */

  function ColumnsOf(ns: seq<Node>): seq<Node> {
    if ns == [] then [] else (if IsColumn(ns[0]) then [ns[0]] else []) + ColumnsOf(ns[1..])
  }

  function OthersOf(ns: seq<Node>): seq<Node> {
    if ns == [] then [] else (if IsColumn(ns[0]) then [] else [ns[0]]) + OthersOf(ns[1..])
  }

  // A nested layout node that directly holds two or more columns.
  predicate IsBreakout(n: Node) {
    n.El? && IsBlockTag(n.tag) && |ColumnsOf(n.children)| >= 2
  }

  predicate AnyBreakout(ns: seq<Node>) {
    ns != [] && (IsBreakout(ns[0]) || (ns[0].El? && AnyBreakout(ns[0].children)) || AnyBreakout(ns[1..]))
  }

  predicate ContainsBreakout(n: Node) {
    n.El? && AnyBreakout(n.children)
  }

  predicate IsBlockLevel(n: Node) {
    n.El? && (IsBlockTag(n.tag) || n.tag.Img? || n.tag.Button? || n.tag.Hr? || n.tag.Text? || n.tag.Heading?)
  }

  predicate AnyBlock(ns: seq<Node>) {
    ns != [] && (IsBlockLevel(ns[0]) || (ns[0].El? && AnyBlock(ns[0].children)) || AnyBlock(ns[1..]))
  }

  predicate HasBlockDescendant(n: Node) {
    n.El? && AnyBlock(n.children)
  }

  // A button, image or divider needs an MJML element of its own.
  predicate AnyComponent(ns: seq<Node>) {
    ns != [] && ((ns[0].El? && (ns[0].tag.Button? || ns[0].tag.Img? || ns[0].tag.Hr? || AnyComponent(ns[0].children)))
                 || AnyComponent(ns[1..]))
  }

  predicate TableSafe(breakout: Node) {
    breakout.El? ==> forall i :: 0 <= i < |breakout.children| ==>
                                   IsColumn(breakout.children[i]) ==> !AnyComponent(breakout.children[i].children)
  }

  predicate BreakoutsTableSafe(ns: seq<Node>) {
    ns == [] ||
    ((if IsBreakout(ns[0]) then TableSafe(ns[0]) else ns[0].El? ==> BreakoutsTableSafe(ns[0].children))
     && BreakoutsTableSafe(ns[1..]))
  }

  predicate IsCard(style: Style) {
    CssProp(style, "border-radius") != "" || CssProp(style, "background-color") != "" || CssProp(style, "background") != ""
  }

  predicate IsInert(n: Node) {
    n.El? && (n.tag.Inert? || n.tag.Br?)
  }

  // The one padded layout div that wraps all of a section's content.
  predicate IsSoleWrapper(ns: seq<Node>) {
    |ns| == 1 && IsInert(ns[0]) && HasBlockDescendant(ns[0])
  }

  /* ---- allowlists ---- */

  const TEXT_ATTRS: set<string> := {"color", "padding"}
  const SECTION_ATTRS: set<string> := {"background-color", "padding", "border-radius", "text-align", "border",
                                       "border-top", "border-bottom"}
  const COLUMN_ATTRS: set<string> := {"background-color", "padding", "border-radius", "vertical-align", "width"}
  const IMAGE_ATTRS: set<string> := {"border", "border-radius"}
  const BUTTON_ATTRS: map<string, string> :=
    map["background-color" := "background-color", "color" := "color", "border" := "border",
        "border-radius" := "border-radius", "font-weight" := "font-weight", "padding" := "inner-padding"]

  // What rides the inner element of a text block: all but the padding.
  function TextInner(style: Style): Style {
    if style == [] then []
    else (if style[0].val != "" && style[0].prop != "padding" then [style[0]] else []) + TextInner(style[1..])
  }

  /* ---- inline HTML ---- */

  const PLAIN := Attrs([], "", "", map[])

  function InlineOf(n: Node): seq<Html> {
    match n
    case Raw(t) => [Chunk(t)]
    case RichText(t, _) => [Chunk(t)]
    case El(tag, attrs, children) =>
      match tag
      case Link => [Elem("a", attrs, Inline(children))]
      case Text => [Elem("div", attrs, Inline(children))]
      case Heading => [Elem("div", attrs, Inline(children))]
      case Br => [LineBreak]
      case Inert(name) => [Elem(name, attrs, Inline(children))]
      case _ => Inline(children)
  }

  function Inline(ns: seq<Node>): seq<Html> {
    if ns == [] then [] else InlineOf(ns[0]) + Inline(ns[1..])
  }

  function Styled(name: string, style: Style, content: seq<Html>): seq<Html> {
    if style == [] then content else [Elem(name, PLAIN.(style := style), content)]
  }

  // A run of inline nodes as one mj-text; a lone styled richtext keeps its style.
  function RunText(run: seq<Node>): Mj {
    if |run| == 1 && run[0].RichText? && run[0].style != [] then
      MjText(Promoted(run[0].style, TEXT_ATTRS), Styled("div", TextInner(run[0].style), [Chunk(run[0].text)]))
    else
      MjText([], Inline(run))
  }

  function Flush(run: seq<Node>): seq<Mj> {
    if run == [] then [] else [RunText(run)]
  }

  function TextBlock(tag: Tag, style: Style, children: seq<Node>): Mj {
    var inner := TextInner(style);
    MjText(Promoted(style, TEXT_ATTRS),
           if tag.Heading? then [Elem("h2", PLAIN.(style := [Decl("margin", "0")] + inner), Inline(children))]
           else Styled("div", inner, Inline(children)))
  }

  // An image without an href of its own takes that of the link dissolved around it.
  function ImageHref(own: string, link: string): string {
    if IsBlank(own) && !IsBlank(link) then link else own
  }

  // Of nested dissolving links the outermost one reaches the image first.
  function LinkIn(tag: Tag, attrs: Attrs, link: string): string {
    if tag.Link? && IsBlank(link) && !IsBlank(attrs.href) then attrs.href else link
  }

  /* ---- the content of a column ---- */

  /** The leaf elements a column's children become. `run` is the inline content not
      yet emitted; `link` the href of the enclosing dissolved link. */
  function Flow(ns: seq<Node>, run: seq<Node>, link: string): seq<Mj> {
    if ns == [] then Flush(run) else
    match ns[0]
    case Raw(_) => Flow(ns[1..], run + [ns[0]], link)
    case RichText(_, _) => Flow(ns[1..], run + [ns[0]], link)
    case El(tag, attrs, children) =>
      if IsBlockTag(tag) then Flush(run) + Flow(children, [], link) + Flow(ns[1..], [], link)
      else if IsBlockLevel(ns[0]) then Flush(run) + [Element(tag, attrs, children, link)] + Flow(ns[1..], [], link)
      else if HasBlockDescendant(ns[0]) then
        Flush(run) + Flow(children, [], LinkIn(tag, attrs, link)) + Flow(ns[1..], [], link)
      else Flow(ns[1..], run + [ns[0]], link)
  }

  // An image, button, divider or standalone text.
  function Element(tag: Tag, attrs: Attrs, children: seq<Node>, link: string): Mj {
    if tag.Img? then MjImage(ImageHref(attrs.href, link), attrs.rest, Promoted(attrs.style, IMAGE_ATTRS))
    else if tag.Button? then MjButton(attrs.href, Mapped(attrs.style, BUTTON_ATTRS), Inline(children))
    else if tag.Hr? then MjDivider(attrs.style)
    else TextBlock(tag, attrs.style, children)
  }

  function ColumnOut(style: Style, children: seq<Node>): Mj {
    MjColumn(Promoted(style, COLUMN_ATTRS), Flow(children, [], ""))
  }

  function ColumnsOut(cols: seq<Node>): seq<Mj>
    requires forall i :: 0 <= i < |cols| ==> cols[i].El?
  {
    if cols == [] then [] else [ColumnOut(cols[0].attrs.style, cols[0].children)] + ColumnsOut(cols[1..])
  }

  /* ---- sections ---- */

  lemma {:induction false} ColumnsAreColumns(ns: seq<Node>)
    ensures forall i :: 0 <= i < |ColumnsOf(ns)| ==> IsColumn(ColumnsOf(ns)[i])
  {
    if ns != [] {
      ColumnsAreColumns(ns[1..]);
    }
  }

  function TrailingOut(others: seq<Node>): seq<Mj> {
    if others == [] then [] else [MjColumn([], Flow(others, [], ""))]
  }

  // One mj-section, a column per Column child, the rest in a trailing column.
  function SideBySide(style: Style, children: seq<Node>): Mj {
    ColumnsAreColumns(children);
    MjSection(Promoted(style, SECTION_ATTRS), ColumnsOut(ColumnsOf(children)) + TrailingOut(OthersOf(children)))
  }

  datatype Segment = Run(nodes: seq<Node>) | Breakout(style: Style, children: seq<Node>)

  // The style a breakout carries out of the containers dissolved around it.
  function Carried(ancestor: Style, own: Style): Style {
    if ancestor == [] then own else Merge(ancestor, own)
  }

  function FlushRun(run: seq<Node>): seq<Segment> {
    if run == [] then [] else [Run(run)]
  }

  function Split(ns: seq<Node>, run: seq<Node>, ancestor: Style): seq<Segment> {
    if ns == [] then FlushRun(run)
    else if IsBreakout(ns[0]) then
      FlushRun(run) + [Breakout(Carried(ancestor, ns[0].attrs.style), ns[0].children)] + Split(ns[1..], [], ancestor)
    else if ContainsBreakout(ns[0]) then
      FlushRun(run) + Split(ns[0].children, [], Merge(ancestor, ns[0].attrs.style)) + Split(ns[1..], [], ancestor)
    else Split(ns[1..], run + [ns[0]], ancestor)
  }

  function RunSection(run: seq<Node>, style: Style): Mj {
    if IsSoleWrapper(run) then MjSection(style, [ColumnOut(run[0].attrs.style, run[0].children)])
    else MjSection(style, [MjColumn([], Flow(run, [], ""))])
  }

  function SegmentOut(seg: Segment, style: Style): seq<Mj> {
    match seg
    case Breakout(s, children) => [SideBySide(s, children)]
    case Run(run) => if run == [] then [] else [RunSection(run, style)]
  }

  function SegmentsOut(segs: seq<Segment>, style: Style): seq<Mj> {
    if segs == [] then [] else SegmentOut(segs[0], style) + SegmentsOut(segs[1..], style)
  }

  /* ---- a card kept whole ---- */

  function CellsOut(cols: seq<Node>, width: nat): seq<Cell>
    requires forall i :: 0 <= i < |cols| ==> cols[i].El?
  {
    if cols == [] then [] else
    // An authored width wins over the equal share (0 here: none is added).
    [Cell(cols[0].attrs.style, if CssProp(cols[0].attrs.style, "width") == "" then width else 0, Inline(cols[0].children))]
    + CellsOut(cols[1..], width)
  }

  function TableOut(children: seq<Node>): seq<Mj> {
    ColumnsAreColumns(children);
    var cols := ColumnsOf(children);
    if cols == [] then [] else [MjTable(CellsOut(cols, 100 / |cols|))]
  }

  function CardBody(ns: seq<Node>, run: seq<Node>): seq<Mj> {
    if ns == [] then Flow(run, [], "")
    else if IsBreakout(ns[0]) then Flow(run, [], "") + TableOut(ns[0].children) + CardBody(ns[1..], [])
    else CardBody(ns[1..], run + [ns[0]])
  }

  function CardOut(style: Style, children: seq<Node>): Mj {
    MjSection(Promoted(style, SECTION_ATTRS),
              if IsSoleWrapper(children) then
                [MjColumn(Promoted(children[0].attrs.style, COLUMN_ATTRS), CardBody(children[0].children, []))]
              else [MjColumn([], CardBody(children, []))])
  }

  function SectionOut(style: Style, children: seq<Node>): seq<Mj> {
    if ColumnsOf(children) != [] then [SideBySide(style, children)]
    else if IsCard(style) && AnyBreakout(children) && BreakoutsTableSafe(children) then [CardOut(style, children)]
    else SegmentsOut(Split(children, [], style), Promoted(style, SECTION_ATTRS))
  }

  /* ---- the document ---- */

  function Loose(n: Node): Mj {
    MjSection([], [MjColumn([], [RunText([n])])])
  }

  function BlockOut(n: Node): seq<Mj> {
    match n
    case Raw(_) => [Loose(n)]
    case RichText(_, _) => [Loose(n)]
    case El(tag, attrs, children) =>
      match tag
      case SpacingWrapper => [MjWrapper(attrs.padding, Blocks(children))]
      case Section => SectionOut(attrs.style, children)
      case Row => SectionOut(attrs.style, children)
      case Column => [MjSection(Promoted(attrs.style, SECTION_ATTRS), [ColumnOut(attrs.style, children)])]
      case _ => [Loose(n)]
  }

  /** The body of the document. */
  function Blocks(ns: seq<Node>): seq<Mj> {
    if ns == [] then [] else BlockOut(ns[0]) + Blocks(ns[1..])
  }
}
