/** The bound tree an email is translated from, and the MJML tree it becomes. */
module Markup {
  import opened Styles

  datatype Tag =
    | Section | Row | Column
    | Text | Heading | Img | Button | Hr | Link
    | SpacingWrapper
    | Br
    | Inert(name: string)     // div, span, p, strong, ...
    | Unknown(name: string)

  /** Forwarded attributes; `padding` is set on spacing wrappers only. */
  datatype Attrs = Attrs(style: Style, href: string, padding: string, rest: map<string, string>)

  datatype Node =
    | Raw(text: string)
    | RichText(text: string, style: Style)
    | El(tag: Tag, attrs: Attrs, children: seq<Node>)

  /** Inline HTML inside an MJML element. */
  datatype Html =
    | Chunk(text: string)
    | LineBreak
    | Elem(name: string, attrs: Attrs, content: seq<Html>)

  datatype Cell = Cell(style: Style, width: nat, content: seq<Html>)

  datatype Mj =
    | MjWrapper(padding: string, body: seq<Mj>)
    | MjSection(attrs: Style, body: seq<Mj>)
    | MjColumn(attrs: Style, body: seq<Mj>)
    | MjText(attrs: Style, html: seq<Html>)
    | MjImage(href: string, image: map<string, string>, attrs: Style)
    | MjButton(href: string, attrs: Style, html: seq<Html>)
    | MjDivider(attrs: Style)
    | MjTable(cells: seq<Cell>)

  predicate IsBlockTag(t: Tag) {
    t.Section? || t.Row? || t.Column?
  }

  predicate IsColumn(n: Node) {
    n.El? && n.tag.Column?
  }

  /* ---- text leaves, in document order ---- */

  function TextsIn(n: Node): seq<string> {
    match n
    case Raw(t) => [t]
    case RichText(t, _) => [t]
    case El(_, _, children) => Texts(children)
  }

  function Texts(ns: seq<Node>): seq<string> {
    if ns == [] then [] else TextsIn(ns[0]) + Texts(ns[1..])
  }

  function HtmlTextsIn(h: Html): seq<string> {
    match h
    case Chunk(t) => [t]
    case LineBreak => []
    case Elem(_, _, content) => HtmlTexts(content)
  }

  function HtmlTexts(hs: seq<Html>): seq<string> {
    if hs == [] then [] else HtmlTextsIn(hs[0]) + HtmlTexts(hs[1..])
  }

  function CellTexts(cells: seq<Cell>): seq<string> {
    if cells == [] then [] else HtmlTexts(cells[0].content) + CellTexts(cells[1..])
  }

  function MjTextsIn(m: Mj): seq<string> {
    match m
    case MjWrapper(_, body) => MjTexts(body)
    case MjSection(_, body) => MjTexts(body)
    case MjColumn(_, body) => MjTexts(body)
    case MjText(_, html) => HtmlTexts(html)
    case MjButton(_, _, html) => HtmlTexts(html)
    case MjTable(cells) => CellTexts(cells)
    case MjImage(_, _, _) => []
    case MjDivider(_) => []
  }

  function MjTexts(ms: seq<Mj>): seq<string> {
    if ms == [] then [] else MjTextsIn(ms[0]) + MjTexts(ms[1..])
  }

  lemma {:induction false} TextsConcat(a: seq<Node>, b: seq<Node>)
    ensures Texts(a + b) == Texts(a) + Texts(b)
  {
    if a == [] {
      assert a + b == b;
    } else {
      TextsConcat(a[1..], b);
      assert (a + b)[1..] == a[1..] + b && (a + b)[0] == a[0];
      assert Texts(a + b) == TextsIn(a[0]) + Texts(a[1..] + b);
    }
  }

  lemma {:induction false} HtmlTextsConcat(a: seq<Html>, b: seq<Html>)
    ensures HtmlTexts(a + b) == HtmlTexts(a) + HtmlTexts(b)
  {
    if a == [] {
      assert a + b == b;
    } else {
      HtmlTextsConcat(a[1..], b);
      assert (a + b)[1..] == a[1..] + b && (a + b)[0] == a[0];
      assert HtmlTexts(a + b) == HtmlTextsIn(a[0]) + HtmlTexts(a[1..] + b);
    }
  }

  lemma {:induction false} MjTextsConcat(a: seq<Mj>, b: seq<Mj>)
    ensures MjTexts(a + b) == MjTexts(a) + MjTexts(b)
  {
    if a == [] {
      assert a + b == b;
    } else {
      MjTextsConcat(a[1..], b);
      assert (a + b)[1..] == a[1..] + b && (a + b)[0] == a[0];
      assert MjTexts(a + b) == MjTextsIn(a[0]) + MjTexts(a[1..] + b);
    }
  }

  /* ---- MJML's nesting rules ---- */

  predicate IsLeaf(m: Mj) {
    m.MjText? || m.MjImage? || m.MjButton? || m.MjDivider? || m.MjTable?
  }

  predicate Leaves(ms: seq<Mj>) {
    forall i :: 0 <= i < |ms| ==> IsLeaf(ms[i])
  }

  predicate ValidColumn(m: Mj) {
    m.MjColumn? && Leaves(m.body)
  }

  predicate ValidSection(m: Mj) {
    m.MjSection? && forall i :: 0 <= i < |m.body| ==> ValidColumn(m.body[i])
  }

  predicate Sections(ms: seq<Mj>) {
    forall i :: 0 <= i < |ms| ==> ValidSection(ms[i])
  }

  predicate ValidBlock(m: Mj) {
    ValidSection(m) || (m.MjWrapper? && Sections(m.body))
  }

  /** mj-body holds wrappers and sections, a wrapper holds sections, a section holds
      columns, a column holds leaf elements. */
  predicate ValidBody(ms: seq<Mj>) {
    forall i :: 0 <= i < |ms| ==> ValidBlock(ms[i])
  }

  /* ---- the document as the translator writes it ---- */

  /** One write to the output. */
  datatype Token =
    | StartWrapper(padding: string) | EndWrapper
    | StartSection(attrs: Style) | EndSection
    | StartColumn(attrs: Style) | EndColumn
    | StartText(attrs: Style) | EndText
    | StartButton(href: string, attrs: Style) | EndButton
    | Image(href: string, image: map<string, string>, attrs: Style)
    | Divider(attrs: Style)
    | StartTable | EndTable
    | StartCell(style: Style, width: nat) | EndCell
    | StartElem(name: string, html: Attrs) | EndElem(name: string)
    | Break
    | Literal(text: string)

  function HtmlTokensIn(h: Html): seq<Token> {
    match h
    case Chunk(t) => [Literal(t)]
    case LineBreak => [Break]
    case Elem(name, attrs, content) => [StartElem(name, attrs)] + HtmlTokens(content) + [EndElem(name)]
  }

  function HtmlTokens(hs: seq<Html>): seq<Token> {
    if hs == [] then [] else HtmlTokensIn(hs[0]) + HtmlTokens(hs[1..])
  }

  function CellTokens(cells: seq<Cell>): seq<Token> {
    if cells == [] then [] else
    [StartCell(cells[0].style, cells[0].width)] + HtmlTokens(cells[0].content) + [EndCell] + CellTokens(cells[1..])
  }

  function TokensIn(m: Mj): seq<Token> {
    match m
    case MjWrapper(padding, body) => [StartWrapper(padding)] + Tokens(body) + [EndWrapper]
    case MjSection(attrs, body) => [StartSection(attrs)] + Tokens(body) + [EndSection]
    case MjColumn(attrs, body) => [StartColumn(attrs)] + Tokens(body) + [EndColumn]
    case MjText(attrs, html) => [StartText(attrs)] + HtmlTokens(html) + [EndText]
    case MjButton(href, attrs, html) => [StartButton(href, attrs)] + HtmlTokens(html) + [EndButton]
    case MjImage(href, image, attrs) => [Image(href, image, attrs)]
    case MjDivider(attrs) => [Divider(attrs)]
    case MjTable(cells) => [StartTable] + CellTokens(cells) + [EndTable]
  }

  /** The tree written out. */
  function Tokens(ms: seq<Mj>): seq<Token> {
    if ms == [] then [] else TokensIn(ms[0]) + Tokens(ms[1..])
  }

  lemma {:induction false} TokensConcat(a: seq<Mj>, b: seq<Mj>)
    ensures Tokens(a + b) == Tokens(a) + Tokens(b)
  {
    if a == [] {
      assert a + b == b;
    } else {
      TokensConcat(a[1..], b);
      assert (a + b)[1..] == a[1..] + b && (a + b)[0] == a[0];
      assert Tokens(a + b) == TokensIn(a[0]) + Tokens(a[1..] + b);
    }
  }

  lemma OneToken(m: Mj)
    ensures Tokens([m]) == TokensIn(m)
  {
  }
}
