/** The translation told without its machinery: every part of the email in document
    order, each node's own attributes on its own element. No pending runs, no merged
    styles, no allowlist tables; `TranslationParts` proves that this is what comes out. */
module TranslationReference {
  import opened Strings
  import opened Styles
  import opened Markup

  /** The attributes an element shows, one value per named property, and any others. */
  datatype Look = Look(values: seq<string>, others: Style)

  datatype Part =
    | WrapperPart(padding: string)
    | SectionPart(look: Look)
    | ColumnPart(look: Look)
    | TextPart(look: Look)
    | ButtonPart(href: string, look: Look)
    | ImagePart(href: string, image: map<string, string>, look: Look)
    | DividerPart(style: Style)
    | TablePart
    | CellPart(style: Style, width: nat)
    | ElementPart(name: string, attrs: Attrs)
    | BreakPart
    | Words(text: string)

  // What a mail client can be told about each element.
  const SECTION_PROPS := ["background-color", "padding", "border-radius", "text-align", "border", "border-top",
                          "border-bottom"]
  const COLUMN_PROPS := ["background-color", "padding", "border-radius", "vertical-align", "width"]
  const TEXT_PROPS := ["color", "padding"]
  const IMAGE_PROPS := ["border", "border-radius"]
  const BUTTON_PROPS := ["background-color", "color", "border", "border-radius", "font-weight", "padding"]
  const BUTTON_NAMES := ["background-color", "color", "border", "border-radius", "font-weight", "inner-padding"]

  /* ---- reading the output ---- */

  function Others(attrs: Style, names: seq<string>): Style {
    if attrs == [] then [] else (if attrs[0].prop in names then [] else [attrs[0]]) + Others(attrs[1..], names)
  }

  function Shown(attrs: Style, names: seq<string>): Look {
    Look(seq(|names|, i requires 0 <= i < |names| => CssProp(attrs, names[i])), Others(attrs, names))
  }

  function HtmlPartsIn(h: Html): seq<Part> {
    match h
    case Chunk(t) => [Words(t)]
    case LineBreak => [BreakPart]
    case Elem(name, attrs, content) => [ElementPart(name, attrs)] + HtmlParts(content)
  }

  function HtmlParts(hs: seq<Html>): seq<Part> {
    if hs == [] then [] else HtmlPartsIn(hs[0]) + HtmlParts(hs[1..])
  }

  function CellParts(cells: seq<Cell>): seq<Part> {
    if cells == [] then [] else
    [CellPart(cells[0].style, cells[0].width)] + HtmlParts(cells[0].content) + CellParts(cells[1..])
  }

  function MjPartsIn(m: Mj): seq<Part> {
    match m
    case MjWrapper(padding, body) => [WrapperPart(padding)] + MjParts(body)
    case MjSection(attrs, body) => [SectionPart(Shown(attrs, SECTION_PROPS))] + MjParts(body)
    case MjColumn(attrs, body) => [ColumnPart(Shown(attrs, COLUMN_PROPS))] + MjParts(body)
    case MjText(attrs, html) => [TextPart(Shown(attrs, TEXT_PROPS))] + HtmlParts(html)
    case MjImage(href, image, attrs) => [ImagePart(href, image, Shown(attrs, IMAGE_PROPS))]
    case MjButton(href, attrs, html) => [ButtonPart(href, Shown(attrs, BUTTON_NAMES))] + HtmlParts(html)
    case MjDivider(style) => [DividerPart(style)]
    case MjTable(cells) => [TablePart] + CellParts(cells)
  }

  /** The parts of the emitted tree, in document order. */
  function MjParts(ms: seq<Mj>): seq<Part> {
    if ms == [] then [] else MjPartsIn(ms[0]) + MjParts(ms[1..])
  }

  /* ---- which nodes are what ---- */

  predicate IsBlock(n: Node) {
    n.El? && (n.tag.Section? || n.tag.Row? || n.tag.Column? || n.tag.Img? || n.tag.Button? || n.tag.Hr? || n.tag.Text?
              || n.tag.Heading?)
  }

  predicate BlockHere(n: Node) {
    IsBlock(n) || (n.El? && HoldsBlock(n.children))
  }

  predicate HoldsBlock(ns: seq<Node>) {
    exists i :: 0 <= i < |ns| && BlockHere(ns[i])
  }

  predicate IsCol(n: Node) {
    n.El? && n.tag == Column
  }

  // A layout node with two columns or more of its own.
  predicate IsRowOfColumns(n: Node) {
    && n.El? && (n.tag.Section? || n.tag.Row? || n.tag.Column?)
    && exists i, j :: 0 <= i < j < |n.children| && IsCol(n.children[i]) && IsCol(n.children[j])
  }

  predicate RowHere(n: Node) {
    IsRowOfColumns(n) || (n.El? && HoldsRow(n.children))
  }

  predicate HoldsRow(ns: seq<Node>) {
    exists i :: 0 <= i < |ns| && RowHere(ns[i])
  }

  predicate ComponentHere(n: Node) {
    n.El? && (n.tag.Button? || n.tag.Img? || n.tag.Hr? || HoldsComponent(n.children))
  }

  predicate HoldsComponent(ns: seq<Node>) {
    exists i :: 0 <= i < |ns| && ComponentHere(ns[i])
  }

  // A row of columns that can be table cells: no button, image or divider in them.
  predicate CellsOnly(n: Node) {
    n.El? ==> forall i :: 0 <= i < |n.children| && IsCol(n.children[i]) ==> !HoldsComponent(n.children[i].children)
  }

  predicate RowsFit(n: Node) {
    if IsRowOfColumns(n) then CellsOnly(n) else n.El? ==> AllRowsFit(n.children)
  }

  predicate AllRowsFit(ns: seq<Node>) {
    forall i :: 0 <= i < |ns| ==> RowsFit(ns[i])
  }

  predicate HasCardStyle(style: Style) {
    exists p :: p in ["border-radius", "background-color", "background"] && CssProp(style, p) != ""
  }

  // One plain container around all of it.
  predicate InOneBox(ns: seq<Node>) {
    |ns| == 1 && ns[0].El? && (ns[0].tag.Inert? || ns[0].tag.Br?) && HoldsBlock(ns[0].children)
  }

  // A node that can stand in a line of text.
  predicate Rides(n: Node) {
    !BlockHere(n)
  }

  function Riding(ns: seq<Node>): (k: nat)
    ensures k <= |ns|
  {
    if ns == [] || !Rides(ns[0]) then 0 else 1 + Riding(ns[1..])
  }

  // How many nodes come before the next row of columns, however deep it sits.
  function BeforeRow(ns: seq<Node>): (k: nat)
    ensures k <= |ns|
  {
    if ns == [] || RowHere(ns[0]) then 0 else 1 + BeforeRow(ns[1..])
  }

  // The same for rows at this level.
  function BeforeOwnRow(ns: seq<Node>): (k: nat)
    ensures k <= |ns|
  {
    if ns == [] || IsRowOfColumns(ns[0]) then 0 else 1 + BeforeOwnRow(ns[1..])
  }

  function NotColumns(ns: seq<Node>): seq<Node> {
    if ns == [] then [] else NotColumns(ns[..|ns| - 1]) + if IsCol(ns[|ns| - 1]) then [] else [ns[|ns| - 1]]
  }

  function ColumnCount(ns: seq<Node>): nat {
    if ns == [] then 0 else ColumnCount(ns[..|ns| - 1]) + if IsCol(ns[|ns| - 1]) then 1 else 0
  }

  /* ---- authored looks ---- */

  // The first value given to the property.
  function FirstSet(style: Style, prop: string): string {
    if style == [] then ""
    else if style[0].prop == prop && style[0].val != "" then style[0].val
    else FirstSet(style[1..], prop)
  }

  function Authored(style: Style, props: seq<string>): Look {
    Look(seq(|props|, i requires 0 <= i < |props| => FirstSet(style, props[i])), [])
  }

  // The last value given to the property.
  function LastSet(style: Style, prop: string): string {
    if style == [] then ""
    else if LastSet(style[1..], prop) != "" then LastSet(style[1..], prop)
    else if style[0].prop == prop then style[0].val
    else ""
  }

  // Of nested containers the innermost one that sets the property.
  function Innermost(chain: seq<Style>, prop: string): string {
    if chain == [] then ""
    else if LastSet(chain[|chain| - 1], prop) != "" then LastSet(chain[|chain| - 1], prop)
    else Innermost(chain[..|chain| - 1], prop)
  }

  predicate SaysNothing(style: Style) {
    forall i :: 0 <= i < |style| ==> style[i].prop == "" || style[i].val == ""
  }

  // No container around has a style. A lone one counts as styled by any declaration.
  predicate Unstyled(chain: seq<Style>) {
    if |chain| == 1 then chain[0] == [] else forall i :: 0 <= i < |chain| ==> SaysNothing(chain[i])
  }

  // A row taken out of the containers around it looks like the innermost that says how.
  function Lifted(chain: seq<Style>, own: Style, props: seq<string>): Look {
    if Unstyled(chain) then Authored(own, props)
    else Look(seq(|props|, i requires 0 <= i < |props| => Innermost(chain + [own], props[i])), [])
  }

  // Everything an inner element can carry: all but the padding.
  function Unpadded(style: Style): Style {
    if style == [] then [] else
    var d := style[|style| - 1];
    Unpadded(style[..|style| - 1]) + if d.val != "" && d.prop != "padding" then [d] else []
  }

  function Bare(style: Style): Attrs {
    Attrs(style, "", "", map[])
  }

  // The inner element of a styled text, if it needs one.
  function InnerPart(style: Style): seq<Part> {
    if Unpadded(style) == [] then [] else [ElementPart("div", Bare(Unpadded(style)))]
  }

  /* ---- content ---- */

  function LinePartsIn(n: Node): seq<Part> {
    match n
    case Raw(t) => [Words(t)]
    case RichText(t, _) => [Words(t)]
    case El(tag, attrs, children) =>
      if tag.Br? then [BreakPart]
      else if tag.Link? then [ElementPart("a", attrs)] + LineParts(children)
      else if tag.Text? || tag.Heading? then [ElementPart("div", attrs)] + LineParts(children)
      else if tag.Inert? then [ElementPart(tag.name, attrs)] + LineParts(children)
      else LineParts(children)
  }

  /** Nodes standing in a line of text. */
  function LineParts(ns: seq<Node>): seq<Part> {
    if ns == [] then [] else LinePartsIn(ns[0]) + LineParts(ns[1..])
  }

  // A line of its own; a styled rich text standing alone keeps its style.
  function RunParts(run: seq<Node>): seq<Part> {
    if |run| == 1 && run[0].RichText? && run[0].style != [] then
      [TextPart(Authored(run[0].style, TEXT_PROPS))] + InnerPart(run[0].style) + [Words(run[0].text)]
    else [TextPart(Look(["", ""], []))] + LineParts(run)
  }

  function IsNowhere(href: string): bool {
    forall i :: 0 <= i < |href| ==> IsSpace(href[i])
  }

  // `link` is where the outermost enclosing link leads.
  function ElementParts(tag: Tag, attrs: Attrs, children: seq<Node>, link: string): seq<Part> {
    if tag.Img? then
      [ImagePart(if IsNowhere(attrs.href) && !IsNowhere(link) then link else attrs.href, attrs.rest,
                 Authored(attrs.style, IMAGE_PROPS))]
    else if tag.Button? then [ButtonPart(attrs.href, Authored(attrs.style, BUTTON_PROPS))] + LineParts(children)
    else if tag.Hr? then [DividerPart(attrs.style)]
    else if tag.Heading? then
      [TextPart(Authored(attrs.style, TEXT_PROPS)),
       ElementPart("h2", Bare([Decl("margin", "0")] + Unpadded(attrs.style)))] + LineParts(children)
    else [TextPart(Authored(attrs.style, TEXT_PROPS))] + InnerPart(attrs.style) + LineParts(children)
  }

  function Inside(tag: Tag, attrs: Attrs, link: string): string {
    if tag.Link? && IsNowhere(link) && !IsNowhere(attrs.href) then attrs.href else link
  }

  // What stands for itself in a column.
  predicate IsElement(n: Node) {
    n.El? && (n.tag.Img? || n.tag.Button? || n.tag.Hr? || n.tag.Text? || n.tag.Heading?)
  }

  // A node that cannot stand in a line: an element, or a container dissolved.
  function StandingParts(n: Node, link: string): seq<Part>
    decreases n
  {
    if !n.El? then []
    else if IsElement(n) then ElementParts(n.tag, n.attrs, n.children, link)
    else ContentParts(n.children, Inside(n.tag, n.attrs, link))
  }

  /** The content of a column: lines of text, elements, and containers dissolved. */
  function ContentParts(ns: seq<Node>, link: string): seq<Part>
    decreases ns
  {
    if ns == [] then []
    else if Rides(ns[0]) then
      var k := Riding(ns);
      RunParts(ns[..k]) + ContentParts(ns[k..], link)
    else StandingParts(ns[0], link) + ContentParts(ns[1..], link)
  }

  /* ---- layout ---- */

  const BLANK_COLUMN := ColumnPart(Look(["", "", "", "", ""], []))

  function EachColumn(ns: seq<Node>): seq<Part> {
    if ns == [] then [] else
    (if IsCol(ns[0]) then
       [ColumnPart(Authored(ns[0].attrs.style, COLUMN_PROPS))] + ContentParts(ns[0].children, "")
     else []) + EachColumn(ns[1..])
  }

  // Its columns side by side, and one more for the rest.
  function BesideParts(look: Look, children: seq<Node>): seq<Part> {
    [SectionPart(look)] + EachColumn(children) +
    if NotColumns(children) == [] then [] else [BLANK_COLUMN] + ContentParts(NotColumns(children), "")
  }

  // A section with one column, which takes the place of a container around all of it.
  function PlainParts(look: Look, content: seq<Node>): seq<Part> {
    [SectionPart(look)] +
    if InOneBox(content) then
      [ColumnPart(Authored(content[0].attrs.style, COLUMN_PROPS))] + ContentParts(content[0].children, "")
    else [BLANK_COLUMN] + ContentParts(content, "")
  }

  // Rows of columns become sections beside those of the content around them, styled by
  // all the containers they were in.
  function SplitParts(ns: seq<Node>, look: Look, chain: seq<Style>): seq<Part> {
    if ns == [] then []
    else if RowHere(ns[0]) then
      (if IsRowOfColumns(ns[0]) then
         BesideParts(Lifted(chain, ns[0].attrs.style, SECTION_PROPS), ns[0].children)
       else SplitParts(ns[0].children, look, chain + [ns[0].attrs.style])) + SplitParts(ns[1..], look, chain)
    else
      var k := BeforeRow(ns);
      PlainParts(look, ns[..k]) + SplitParts(ns[k..], look, chain)
  }

  function EachCell(ns: seq<Node>, width: nat): seq<Part> {
    if ns == [] then [] else
    (if IsCol(ns[0]) then
       [CellPart(ns[0].attrs.style, if CssProp(ns[0].attrs.style, "width") != "" then 0 else width)]
       + LineParts(ns[0].children)
     else []) + EachCell(ns[1..], width)
  }

  // A table of one row, its columns sharing the width equally.
  function TableParts(children: seq<Node>): seq<Part> {
    var columns := ColumnCount(children);
    if columns == 0 then [] else [TablePart] + EachCell(children, 100 / columns)
  }

  // A card in one piece, each row of columns a table.
  function CardContent(ns: seq<Node>): seq<Part> {
    if ns == [] then []
    else if IsRowOfColumns(ns[0]) then TableParts(ns[0].children) + CardContent(ns[1..])
    else
      var k := BeforeOwnRow(ns);
      ContentParts(ns[..k], "") + CardContent(ns[k..])
  }

  function CardParts(look: Look, children: seq<Node>): seq<Part> {
    [SectionPart(look)] +
    if InOneBox(children) then
      [ColumnPart(Authored(children[0].attrs.style, COLUMN_PROPS))] + CardContent(children[0].children)
    else [BLANK_COLUMN] + CardContent(children)
  }

  function SectionParts(style: Style, children: seq<Node>): seq<Part> {
    var look := Authored(style, SECTION_PROPS);
    if ColumnCount(children) > 0 then BesideParts(look, children)
    else if HasCardStyle(style) && HoldsRow(children) && AllRowsFit(children) then CardParts(look, children)
    else SplitParts(children, look, [style])
  }

  function BlockPartsIn(n: Node): seq<Part> {
    if n.El? && n.tag.SpacingWrapper? then [WrapperPart(n.attrs.padding)] + BlockParts(n.children)
    else if n.El? && (n.tag.Section? || n.tag.Row?) then SectionParts(n.attrs.style, n.children)
    else if n.El? && n.tag.Column? then
      [SectionPart(Authored(n.attrs.style, SECTION_PROPS)), ColumnPart(Authored(n.attrs.style, COLUMN_PROPS))]
      + ContentParts(n.children, "")
    else [SectionPart(Look(["", "", "", "", "", "", ""], [])), BLANK_COLUMN] + RunParts([n])
  }

  /** The whole document. */
  function BlockParts(ns: seq<Node>): seq<Part> {
    if ns == [] then [] else BlockPartsIn(ns[0]) + BlockParts(ns[1..])
  }
}
