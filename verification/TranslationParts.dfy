/** What comes out of the translator, part by part: exactly the reference. And the
    buttons, images and dividers of a document, with where they lead and how they look. */
module TranslationParts {
  import opened Strings
  import opened Styles
  import opened Markup
  import opened Translation
  import opened TranslationLaws
  import opened TranslationReference

  /* ---- the tests agree ---- */

  lemma {:induction false} BlocksHeld(ns: seq<Node>)
    ensures AnyBlock(ns) <==> HoldsBlock(ns)
    decreases ns
  {
    if ns != [] {
      BlocksHeld(ns[1..]);
      if ns[0].El? {
        BlocksHeld(ns[0].children);
      }
      FirstOrLater(ns, BlockHere);
    }
  }

  // Some node qualifies: the first one or a later one.
  lemma FirstOrLater(ns: seq<Node>, p: Node -> bool)
    requires ns != []
    ensures (exists i :: 0 <= i < |ns| && p(ns[i])) <==> p(ns[0]) || exists i :: 0 <= i < |ns[1..]| && p(ns[1..][i])
  {
    if i :| 0 < i < |ns| && p(ns[i]) {
      assert ns[1..][i - 1] == ns[i];
    }
  }

  predicate HasCol(ns: seq<Node>) {
    exists i :: 0 <= i < |ns| && IsCol(ns[i])
  }

  predicate HasTwoCols(ns: seq<Node>) {
    exists i, j :: 0 <= i < j < |ns| && IsCol(ns[i]) && IsCol(ns[j])
  }

  lemma TwoColsStep(ns: seq<Node>)
    requires ns != []
    ensures HasTwoCols(ns) <==> HasTwoCols(ns[1..]) || (IsCol(ns[0]) && HasCol(ns[1..]))
  {
    hide IsCol;
    var rest := ns[1..];
    if i, j :| 0 <= i < j < |ns| && IsCol(ns[i]) && IsCol(ns[j]) {
      assert rest[j - 1] == ns[j];
      assert i > 0 ==> rest[i - 1] == ns[i];
    }
    if i, j :| 0 <= i < j < |rest| && IsCol(rest[i]) && IsCol(rest[j]) {
      assert ns[i + 1] == rest[i] && ns[j + 1] == rest[j];
    }
    if i :| 0 <= i < |rest| && IsCol(rest[i]) {
      assert ns[i + 1] == rest[i];
    }
  }

  lemma {:induction false} ColumnsCounted(ns: seq<Node>)
    ensures |ColumnsOf(ns)| >= 1 <==> HasCol(ns)
    ensures |ColumnsOf(ns)| >= 2 <==> HasTwoCols(ns)
  {
    if ns != [] {
      hide HasTwoCols;
      ColumnsCounted(ns[1..]);
      TwoColsStep(ns);
      FirstOrLater(ns, IsCol);
      assert IsColumn(ns[0]) <==> IsCol(ns[0]);
    } else {
      assert !HasTwoCols(ns);
    }
  }

  lemma RowsAgree(n: Node)
    ensures IsBreakout(n) <==> IsRowOfColumns(n)
    ensures RowHere(n) ==> n.El?
  {
    if n.El? {
      ColumnsCounted(n.children);
    }
  }

  lemma {:induction false} RowsHeld(ns: seq<Node>)
    ensures AnyBreakout(ns) <==> HoldsRow(ns)
    decreases ns
  {
    if ns != [] {
      RowsHeld(ns[1..]);
      RowsAgree(ns[0]);
      if ns[0].El? {
        RowsHeld(ns[0].children);
      }
      FirstOrLater(ns, RowHere);
    }
  }

  lemma {:induction false} ComponentsHeld(ns: seq<Node>)
    ensures AnyComponent(ns) <==> HoldsComponent(ns)
    decreases ns
  {
    if ns != [] {
      ComponentsHeld(ns[1..]);
      if ns[0].El? {
        ComponentsHeld(ns[0].children);
      }
      FirstOrLater(ns, ComponentHere);
    }
  }

  lemma CellsAgree(n: Node)
    ensures TableSafe(n) <==> CellsOnly(n)
  {
    if n.El? {
      forall i | 0 <= i < |n.children| && IsCol(n.children[i])
        ensures AnyComponent(n.children[i].children) <==> HoldsComponent(n.children[i].children)
      {
        ComponentsHeld(n.children[i].children);
      }
    }
  }

  lemma {:induction false} RowsFitAgree(ns: seq<Node>)
    ensures BreakoutsTableSafe(ns) <==> AllRowsFit(ns)
    decreases ns
  {
    if ns != [] {
      RowsFitAgree(ns[1..]);
      RowsAgree(ns[0]);
      CellsAgree(ns[0]);
      if ns[0].El? {
        RowsFitAgree(ns[0].children);
      }
      FirstOrLater(ns, n => !RowsFit(n));
    }
  }

  lemma CardStyleAgrees(style: Style)
    ensures IsCard(style) <==> HasCardStyle(style)
  {
    assert "border-radius" in ["border-radius", "background-color", "background"];
    assert "background-color" in ["border-radius", "background-color", "background"];
    assert "background" in ["border-radius", "background-color", "background"];
  }

  lemma BoxAgrees(ns: seq<Node>)
    ensures IsSoleWrapper(ns) <==> InOneBox(ns)
  {
    if |ns| == 1 && ns[0].El? {
      BlocksHeld(ns[0].children);
    }
  }

  lemma RidesAgrees(n: Node)
    ensures Rides(n) <==> !(n.El? && (IsBlockLevel(n) || HasBlockDescendant(n)))
  {
    if n.El? {
      BlocksHeld(n.children);
    }
  }

  /* ---- the looks agree ---- */

  lemma {:induction false} PromotedShows(style: Style, allow: set<string>, prop: string)
    requires prop in allow
    ensures CssProp(Promoted(style, allow), prop) == FirstSet(style, prop)
  {
    if style != [] {
      PromotedShows(style[1..], allow, prop);
      var rest := Promoted(style[1..], allow);
      assert ([style[0]] + rest)[1..] == rest && [] + rest == rest;
    }
  }

  lemma {:induction false} PromotedOnly(style: Style, allow: set<string>, props: seq<string>)
    requires forall p :: p in allow ==> p in props
    ensures Others(Promoted(style, allow), props) == []
  {
    if style != [] {
      PromotedOnly(style[1..], allow, props);
      var rest := Promoted(style[1..], allow);
      assert ([style[0]] + rest)[1..] == rest && [] + rest == rest;
    }
  }

  lemma PromotedLook(style: Style, allow: set<string>, props: seq<string>)
    requires forall p :: p in allow <==> p in props
    ensures Shown(Promoted(style, allow), props) == Authored(style, props)
  {
    PromotedOnly(style, allow, props);
    forall i | 0 <= i < |props| ensures CssProp(Promoted(style, allow), props[i]) == FirstSet(style, props[i]) {
      PromotedShows(style, allow, props[i]);
    }
  }

  lemma SectionLook(style: Style)
    ensures Shown(Promoted(style, SECTION_ATTRS), SECTION_PROPS) == Authored(style, SECTION_PROPS)
  {
    PromotedLook(style, SECTION_ATTRS, SECTION_PROPS);
  }

  lemma ColumnLook(style: Style)
    ensures Shown(Promoted(style, COLUMN_ATTRS), COLUMN_PROPS) == Authored(style, COLUMN_PROPS)
  {
    PromotedLook(style, COLUMN_ATTRS, COLUMN_PROPS);
  }

  lemma TextLook(style: Style)
    ensures Shown(Promoted(style, TEXT_ATTRS), TEXT_PROPS) == Authored(style, TEXT_PROPS)
  {
    PromotedLook(style, TEXT_ATTRS, TEXT_PROPS);
  }

  lemma ImageLook(style: Style)
    ensures Shown(Promoted(style, IMAGE_ATTRS), IMAGE_PROPS) == Authored(style, IMAGE_PROPS)
  {
    PromotedLook(style, IMAGE_ATTRS, IMAGE_PROPS);
  }

  lemma {:induction false} MappedShows(style: Style, names: map<string, string>, prop: string)
    requires prop in names && forall p :: p in names && names[p] == names[prop] ==> p == prop
    ensures CssProp(Mapped(style, names), names[prop]) == FirstSet(style, prop)
  {
    if style != [] {
      MappedShows(style[1..], names, prop);
      var rest := Mapped(style[1..], names);
      if style[0].val != "" && style[0].prop in names {
        assert ([Decl(names[style[0].prop], style[0].val)] + rest)[1..] == rest;
      } else {
        assert [] + rest == rest;
      }
    }
  }

  lemma {:induction false} MappedOnly(style: Style, names: map<string, string>, shown: seq<string>)
    requires forall p :: p in names ==> names[p] in shown
    ensures Others(Mapped(style, names), shown) == []
  {
    if style != [] {
      MappedOnly(style[1..], names, shown);
      var rest := Mapped(style[1..], names);
      if style[0].val != "" && style[0].prop in names {
        assert ([Decl(names[style[0].prop], style[0].val)] + rest)[1..] == rest;
      } else {
        assert [] + rest == rest;
      }
    }
  }

  // The table takes each property to its own name.
  lemma ButtonNames(i: nat)
    requires i < |BUTTON_PROPS|
    ensures |BUTTON_NAMES| == |BUTTON_PROPS| && BUTTON_PROPS[i] in BUTTON_ATTRS
    ensures BUTTON_ATTRS[BUTTON_PROPS[i]] == BUTTON_NAMES[i]
    ensures forall p :: p in BUTTON_ATTRS && BUTTON_ATTRS[p] == BUTTON_NAMES[i] ==> p == BUTTON_PROPS[i]
  {
  }

  lemma ButtonNamesOnly()
    ensures forall p :: p in BUTTON_ATTRS ==> BUTTON_ATTRS[p] in BUTTON_NAMES
  {
  }

  lemma ButtonLook(style: Style)
    ensures Shown(Mapped(style, BUTTON_ATTRS), BUTTON_NAMES) == Authored(style, BUTTON_PROPS)
  {
    hide BUTTON_ATTRS;
    hide Mapped, CssProp, FirstSet, Others;
    ButtonNamesOnly();
    MappedOnly(style, BUTTON_ATTRS, BUTTON_NAMES);
    forall i | 0 <= i < |BUTTON_PROPS|
      ensures |BUTTON_NAMES| == |BUTTON_PROPS|
      ensures CssProp(Mapped(style, BUTTON_ATTRS), BUTTON_NAMES[i]) == FirstSet(style, BUTTON_PROPS[i])
    {
      ButtonNames(i);
      MappedShows(style, BUTTON_ATTRS, BUTTON_PROPS[i]);
    }
  }

  lemma BlankLook(names: seq<string>, values: seq<string>)
    requires |values| == |names| && forall i :: 0 <= i < |values| ==> values[i] == ""
    ensures Shown([], names) == Look(values, [])
  {
  }

  lemma {:induction false} InnerAgrees(style: Style)
    ensures TextInner(style) == Unpadded(style)
  {
    if style != [] {
      var n := |style| - 1;
      InnerAgrees(style[..n]);
      InnerConcat(style[..n], [style[n]]);
      assert style == style[..n] + [style[n]] && [style[n]][1..] == [];
    }
  }

  lemma {:induction false} InnerConcat(a: Style, b: Style)
    ensures TextInner(a + b) == TextInner(a) + TextInner(b)
  {
    if a == [] {
      assert a + b == b;
    } else {
      var here := if a[0].val != "" && a[0].prop != "padding" then [a[0]] else [];
      InnerConcat(a[1..], b);
      assert (a + b)[0] == a[0] && (a + b)[1..] == a[1..] + b;
      Assoc(here, TextInner(a[1..]), TextInner(b));
    }
  }

  /* ---- lines of text ---- */

  lemma {:induction false} HtmlPartsConcat(a: seq<Html>, b: seq<Html>)
    ensures HtmlParts(a + b) == HtmlParts(a) + HtmlParts(b)
  {
    if a == [] {
      assert a + b == b;
    } else {
      HtmlPartsConcat(a[1..], b);
      assert (a + b)[1..] == a[1..] + b && (a + b)[0] == a[0];
      Assoc(HtmlPartsIn(a[0]), HtmlParts(a[1..]), HtmlParts(b));
    }
  }

  lemma {:induction false} MjPartsConcat(a: seq<Mj>, b: seq<Mj>)
    ensures MjParts(a + b) == MjParts(a) + MjParts(b)
  {
    if a == [] {
      assert a + b == b;
    } else {
      MjPartsConcat(a[1..], b);
      assert (a + b)[1..] == a[1..] + b && (a + b)[0] == a[0];
      Assoc(MjPartsIn(a[0]), MjParts(a[1..]), MjParts(b));
    }
  }

  lemma OnePart(m: Mj)
    ensures MjParts([m]) == MjPartsIn(m)
  {
  }

  lemma OneHtmlPart(h: Html)
    ensures HtmlParts([h]) == HtmlPartsIn(h)
  {
  }

  lemma {:induction false} LineAgreesIn(n: Node)
    ensures HtmlParts(InlineOf(n)) == LinePartsIn(n)
    decreases n
  {
    hide HtmlParts, Inline, LineParts;
    match n {
      case Raw(t) => OneHtmlPart(Chunk(t));
      case RichText(t, _) => OneHtmlPart(Chunk(t));
      case El(tag, attrs, children) =>
        LineAgrees(children);
        OneHtmlPart(LineBreak);
        OneHtmlPart(Elem("a", attrs, Inline(children)));
        OneHtmlPart(Elem("div", attrs, Inline(children)));
        if tag.Inert? {
          OneHtmlPart(Elem(tag.name, attrs, Inline(children)));
        }
    }
  }

  /** In a line of text every link, styled text and plain element keeps its own
      attributes; buttons, images and dividers leave only their content. */
  lemma {:induction false} LineAgrees(ns: seq<Node>)
    ensures HtmlParts(Inline(ns)) == LineParts(ns)
    decreases ns
  {
    if ns != [] {
      LineAgreesIn(ns[0]);
      LineAgrees(ns[1..]);
      HtmlPartsConcat(InlineOf(ns[0]), Inline(ns[1..]));
    }
  }

  lemma StyledParts(style: Style, content: seq<Html>)
    ensures HtmlParts(Styled("div", TextInner(style), content)) == InnerPart(style) + HtmlParts(content)
  {
    InnerAgrees(style);
    if TextInner(style) != [] {
      OneHtmlPart(Elem("div", PLAIN.(style := TextInner(style)), content));
    }
  }

  lemma RunAgrees(run: seq<Node>)
    ensures MjParts([RunText(run)]) == MjPartsIn(RunText(run)) == RunParts(run)
  {
    OnePart(RunText(run));
    if |run| == 1 && run[0].RichText? && run[0].style != [] {
      TextLook(run[0].style);
      StyledParts(run[0].style, [Chunk(run[0].text)]);
      OneHtmlPart(Chunk(run[0].text));
      Assoc([TextPart(Authored(run[0].style, TEXT_PROPS))], InnerPart(run[0].style), [Words(run[0].text)]);
    } else {
      LineAgrees(run);
      BlankLook(TEXT_PROPS, ["", ""]);
    }
  }

  /* ---- column content ---- */

  lemma HrefAgrees(tag: Tag, attrs: Attrs, link: string)
    ensures LinkIn(tag, attrs, link) == Inside(tag, attrs, link)
    ensures ImageHref(attrs.href, link) == if IsNowhere(attrs.href) && !IsNowhere(link) then link else attrs.href
  {
  }

  lemma TextBlockAgrees(tag: Tag, attrs: Attrs, children: seq<Node>, link: string)
    requires tag.Text? || tag.Heading?
    ensures MjPartsIn(TextBlock(tag, attrs.style, children)) == ElementParts(tag, attrs, children, link)
  {
    var style := attrs.style;
    TextLook(style);
    LineAgrees(children);
    if tag.Heading? {
      InnerAgrees(style);
      OneHtmlPart(Elem("h2", PLAIN.(style := [Decl("margin", "0")] + TextInner(style)), Inline(children)));
    } else {
      StyledParts(style, Inline(children));
      Assoc([TextPart(Authored(style, TEXT_PROPS))], InnerPart(style), LineParts(children));
    }
  }

  lemma ElementAgrees(tag: Tag, attrs: Attrs, children: seq<Node>, link: string)
    requires tag.Img? || tag.Button? || tag.Hr? || tag.Text? || tag.Heading?
    ensures MjParts([Element(tag, attrs, children, link)]) == ElementParts(tag, attrs, children, link)
  {
    OnePart(Element(tag, attrs, children, link));
    if tag.Img? {
      ImageLook(attrs.style);
      HrefAgrees(tag, attrs, link);
    } else if tag.Button? {
      ButtonLook(attrs.style);
      LineAgrees(children);
    } else if tag.Text? || tag.Heading? {
      TextBlockAgrees(tag, attrs, children, link);
    }
  }

  // The content with the line under way put in front.
  function WithRun(ns: seq<Node>, run: seq<Node>, link: string): seq<Part> {
    if run == [] then ContentParts(ns, link)
    else RunParts(run + ns[..Riding(ns)]) + ContentParts(ns[Riding(ns)..], link)
  }

  lemma RunOn(ns: seq<Node>, run: seq<Node>, link: string)
    requires ns != [] && Rides(ns[0])
    ensures WithRun(ns[1..], run + [ns[0]], link) == WithRun(ns, run, link)
  {
    var k := Riding(ns[1..]);
    assert ns[1..][k..] == ns[k + 1..];
    assert run + [ns[0]] + ns[1..][..k] == run + ns[..k + 1];
    if run == [] {
      assert run + ns[..k + 1] == ns[..k + 1];
    }
  }

  lemma RunEnds(ns: seq<Node>, run: seq<Node>, link: string)
    requires Riding(ns) == 0
    ensures WithRun(ns, run, link) == MjParts(Flush(run)) + ContentParts(ns, link)
  {
    assert ns[..0] == [] && ns[0..] == ns && run + [] == run;
    RunAgrees(run);
    assert [] + ContentParts(ns, link) == ContentParts(ns, link);
  }

  /** A column's content is exactly the reference's: every element with its own
      attributes, in document order, lines of text grouped between them. */
  lemma {:induction false} ContentAgrees(ns: seq<Node>, run: seq<Node>, link: string)
    ensures MjParts(Flow(ns, run, link)) == WithRun(ns, run, link)
    decreases ns
  {
    if ns == [] {
      RunEnds(ns, run, link);
      assert MjParts(Flush(run)) + [] == MjParts(Flush(run));
    } else {
      var n, rest := ns[0], ns[1..];
      RidesAgrees(n);
      if Rides(n) {
        ContentAgrees(rest, run + [n], link);
        RunOn(ns, run, link);
      } else {
        var middle := FlowParts(ns, run, link);
        ContentAgrees(rest, [], link);
        if IsBlockLevel(n) && !IsBlockTag(n.tag) {
          ElementAgrees(n.tag, n.attrs, n.children, link);
        } else {
          HrefAgrees(n.tag, n.attrs, link);
          ContentAgrees(n.children, [], if IsBlockTag(n.tag) then link else LinkIn(n.tag, n.attrs, link));
        }
        ThreeParts(Flush(run), middle, Flow(rest, [], link));
        RunEnds(ns, run, link);
      }
    }
  }

  lemma ThreeParts(a: seq<Mj>, b: seq<Mj>, c: seq<Mj>)
    ensures MjParts(a + b + c) == MjParts(a) + (MjParts(b) + MjParts(c))
  {
    MjPartsConcat(a + b, c);
    MjPartsConcat(a, b);
    Assoc(MjParts(a), MjParts(b), MjParts(c));
  }

  /* ---- columns ---- */

  lemma {:induction false} OthersOfConcat(a: seq<Node>, b: seq<Node>)
    ensures OthersOf(a + b) == OthersOf(a) + OthersOf(b)
    ensures |ColumnsOf(a + b)| == |ColumnsOf(a)| + |ColumnsOf(b)|
  {
    if a == [] {
      assert a + b == b;
    } else {
      OthersOfConcat(a[1..], b);
      assert (a + b)[0] == a[0] && (a + b)[1..] == a[1..] + b;
      Assoc(if IsColumn(a[0]) then [] else [a[0]], OthersOf(a[1..]), OthersOf(b));
    }
  }

  lemma {:induction false} PartitionAgrees(ns: seq<Node>)
    ensures OthersOf(ns) == NotColumns(ns) && |ColumnsOf(ns)| == ColumnCount(ns)
  {
    if ns != [] {
      var n := |ns| - 1;
      PartitionAgrees(ns[..n]);
      OthersOfConcat(ns[..n], [ns[n]]);
      assert ns == ns[..n] + [ns[n]] && [ns[n]][1..] == [];
    }
  }

  lemma ColumnAgrees(style: Style, children: seq<Node>)
    ensures MjPartsIn(ColumnOut(style, children)) ==
            [ColumnPart(Authored(style, COLUMN_PROPS))] + ContentParts(children, "")
  {
    ColumnLook(style);
    ContentAgrees(children, [], "");
  }

  lemma BlankColumnAgrees(children: seq<Node>)
    ensures MjPartsIn(MjColumn([], Flow(children, [], ""))) == [BLANK_COLUMN] + ContentParts(children, "")
  {
    BlankLook(COLUMN_PROPS, ["", "", "", "", ""]);
    ContentAgrees(children, [], "");
  }

  lemma {:induction false} EachColumnAgrees(ns: seq<Node>)
    ensures forall i :: 0 <= i < |ColumnsOf(ns)| ==> ColumnsOf(ns)[i].El?
    ensures MjParts(ColumnsOut(ColumnsOf(ns))) == EachColumn(ns)
  {
    ColumnsAreColumns(ns);
    if ns != [] {
      EachColumnAgrees(ns[1..]);
      if IsColumn(ns[0]) {
        var out, later := ColumnOut(ns[0].attrs.style, ns[0].children), ColumnsOut(ColumnsOf(ns[1..]));
        ColumnAgrees(ns[0].attrs.style, ns[0].children);
        assert ColumnsOf(ns) == [ns[0]] + ColumnsOf(ns[1..]) && ColumnsOf(ns)[1..] == ColumnsOf(ns[1..]);
        assert MjParts([out] + later) == MjPartsIn(out) + MjParts(later) by {
          MjPartsConcat([out], later);
          OnePart(out);
        }
      } else {
        assert [] + EachColumn(ns[1..]) == EachColumn(ns[1..]) && [] + ColumnsOf(ns[1..]) == ColumnsOf(ns[1..]);
      }
    }
  }

  lemma BesideAgrees(style: Style, children: seq<Node>, look: Look)
    requires Shown(Promoted(style, SECTION_ATTRS), SECTION_PROPS) == look
    ensures MjParts([SideBySide(style, children)]) == BesideParts(look, children)
  {
    var others := OthersOf(children);
    ColumnsAreColumns(children);
    EachColumnAgrees(children);
    PartitionAgrees(children);
    BlankColumnAgrees(others);
    OnePart(SideBySide(style, children));
    if others != [] {
      OnePart(MjColumn([], Flow(others, [], "")));
    }
    MjPartsConcat(ColumnsOut(ColumnsOf(children)), TrailingOut(others));
    Assoc([SectionPart(look)], EachColumn(children), MjParts(TrailingOut(others)));
  }

  /* ---- sections split around rows of columns ---- */

  lemma {:induction false} FirstSetOnce(style: Style, prop: string)
    requires Once(style)
    ensures FirstSet(style, prop) == CssProp(style, prop)
  {
    if style != [] {
      FirstSetOnce(style[1..], prop);
      if style[0].prop == prop {
        FirstSetAbsent(style[1..], prop);
      }
    }
  }

  lemma {:induction false} FirstSetAbsent(style: Style, prop: string)
    requires forall i :: 0 <= i < |style| ==> style[i].prop != prop
    ensures FirstSet(style, prop) == ""
  {
    if style != [] {
      FirstSetAbsent(style[1..], prop);
    }
  }

  lemma {:induction false} LastSetOf(a: Style, b: Style, prop: string)
    ensures LastSet(a + b, prop) == if LastSet(b, prop) != "" then LastSet(b, prop) else LastSet(a, prop)
  {
    if a == [] {
      assert a + b == b;
    } else {
      LastSetOf(a[1..], b, prop);
      assert (a + b)[0] == a[0] && (a + b)[1..] == a[1..] + b;
    }
  }

  lemma {:induction false} LastAgrees(style: Style, prop: string)
    ensures LastValue(style, prop) == LastSet(style, prop)
  {
    if style != [] {
      var n := |style| - 1;
      LastAgrees(style[..n], prop);
      LastSetOf(style[..n], [style[n]], prop);
      assert style == style[..n] + [style[n]] && [style[n]][1..] == [];
    }
  }

  lemma {:induction false} PutNothing(style: Style, more: Style)
    ensures PutAll(style, more) == [] <==> style == [] && SaysNothing(more)
  {
    if more != [] {
      var n := |more| - 1;
      PutNothing(style, more[..n]);
      assert SaysNothing(more) <==> SaysNothing(more[..n]) && !Usable(more[n]);
    }
  }

  // A merged style that says what the chain of containers says.
  ghost predicate Carries(style: Style, chain: seq<Style>) {
    && chain != [] && (style == [] <==> Unstyled(chain))
    && (SaysNothing(style) <==> forall i :: 0 <= i < |chain| ==> SaysNothing(chain[i]))
    && forall p :: p != "" ==> LastValue(style, p) == Innermost(chain, p)
  }

  lemma CarriesFirst(style: Style)
    ensures Carries(style, [style])
  {
    forall p | p != "" ensures LastValue(style, p) == Innermost([style], p) {
      LastAgrees(style, p);
      assert [style][..0] == [];
    }
  }

  lemma MergeSays(style: Style, chain: seq<Style>, own: Style, prop: string)
    requires Carries(style, chain) && prop != ""
    ensures CssProp(Merge(style, own), prop) == LastValue(Merge(style, own), prop) == Innermost(chain + [own], prop)
  {
    var longer := chain + [own];
    assert longer[..|longer| - 1] == chain;
    MergeCanonical(style, own);
    MergeRightBiased(style, own, prop);
    LastValueOnce(Merge(style, own), prop);
    LastAgrees(own, prop);
  }

  lemma CarriesOn(style: Style, chain: seq<Style>, own: Style)
    requires Carries(style, chain)
    ensures Carries(Merge(style, own), chain + [own])
  {
    var longer, merged := chain + [own], Merge(style, own);
    forall p | p != "" ensures LastValue(merged, p) == Innermost(longer, p) {
      MergeSays(style, chain, own, p);
    }
    MergeCanonical(style, own);
    PutNothing([], style);
    PutNothing(PutAll([], style), own);
    assert SaysNothing(merged) <==> merged == [] by {
      if merged != [] {
        assert Usable(merged[0]);
      }
    }
    assert (forall i :: 0 <= i < |longer| ==> SaysNothing(longer[i])) <==>
           SaysNothing(own) && forall i :: 0 <= i < |chain| ==> SaysNothing(chain[i]) by {
      assert longer[|chain|] == own && forall i :: 0 <= i < |chain| ==> longer[i] == chain[i];
    }
  }

  lemma LiftedLook(style: Style, chain: seq<Style>, own: Style)
    requires Carries(style, chain)
    ensures Shown(Promoted(Carried(style, own), SECTION_ATTRS), SECTION_PROPS) == Lifted(chain, own, SECTION_PROPS)
  {
    hide Innermost;
    SectionLook(Carried(style, own));
    if style != [] {
      MergeCanonical(style, own);
      forall i | 0 <= i < |SECTION_PROPS|
        ensures FirstSet(Merge(style, own), SECTION_PROPS[i]) == Innermost(chain + [own], SECTION_PROPS[i])
      {
        FirstSetOnce(Merge(style, own), SECTION_PROPS[i]);
        MergeSays(style, chain, own, SECTION_PROPS[i]);
      }
    }
  }

  lemma PlainAgrees(run: seq<Node>, style: Style)
    ensures MjParts([RunSection(run, style)]) == PlainParts(Shown(style, SECTION_PROPS), run)
  {
    BoxAgrees(run);
    OnePart(RunSection(run, style));
    if IsSoleWrapper(run) {
      ColumnAgrees(run[0].attrs.style, run[0].children);
      OnePart(ColumnOut(run[0].attrs.style, run[0].children));
    } else {
      BlankColumnAgrees(run);
      OnePart(MjColumn([], Flow(run, [], "")));
    }
  }

  lemma FlushAgrees(run: seq<Node>, style: Style)
    ensures MjParts(SegmentsOut(FlushRun(run), style)) ==
            if run == [] then [] else PlainParts(Shown(style, SECTION_PROPS), run)
  {
    if run != [] {
      PlainAgrees(run, style);
      assert [Run(run)][1..] == [];
      assert SegmentsOut([Run(run)], style) == [RunSection(run, style)] + [] == [RunSection(run, style)];
    }
  }

  // The sections to come with the run under way put in front.
  function WithSection(ns: seq<Node>, run: seq<Node>, look: Look, chain: seq<Style>): seq<Part> {
    if run == [] then SplitParts(ns, look, chain)
    else PlainParts(look, run + ns[..BeforeRow(ns)]) + SplitParts(ns[BeforeRow(ns)..], look, chain)
  }

  lemma SectionOn(ns: seq<Node>, run: seq<Node>, look: Look, chain: seq<Style>)
    requires ns != [] && !RowHere(ns[0])
    ensures WithSection(ns[1..], run + [ns[0]], look, chain) == WithSection(ns, run, look, chain)
  {
    var k := BeforeRow(ns[1..]);
    assert ns[1..][k..] == ns[k + 1..];
    assert run + [ns[0]] + ns[1..][..k] == run + ns[..k + 1];
    if run == [] {
      assert run + ns[..k + 1] == ns[..k + 1];
    }
  }

  lemma SectionEnds(ns: seq<Node>, run: seq<Node>, style: Style, chain: seq<Style>)
    requires BeforeRow(ns) == 0
    ensures var look := Shown(style, SECTION_PROPS);
            WithSection(ns, run, look, chain) == MjParts(SegmentsOut(FlushRun(run), style)) + SplitParts(ns, look, chain)
  {
    var look := Shown(style, SECTION_PROPS);
    FlushAgrees(run, style);
    assert ns[..0] == [] && ns[0..] == ns && run + [] == run;
    assert [] + SplitParts(ns, look, chain) == SplitParts(ns, look, chain);
  }

  lemma ThreeSegments(a: seq<Segment>, b: seq<Segment>, c: seq<Segment>, style: Style)
    ensures MjParts(SegmentsOut(a + b + c, style)) ==
            MjParts(SegmentsOut(a, style)) + (MjParts(SegmentsOut(b, style)) + MjParts(SegmentsOut(c, style)))
  {
    SegmentsConcat(a + b, c, style);
    SegmentsConcat(a, b, style);
    ThreeParts(SegmentsOut(a, style), SegmentsOut(b, style), SegmentsOut(c, style));
  }

  lemma RowAgrees(ancestor: Style, chain: seq<Style>, own: Style, children: seq<Node>, style: Style)
    requires Carries(ancestor, chain)
    ensures MjParts(SegmentsOut([Breakout(Carried(ancestor, own), children)], style)) ==
            BesideParts(Lifted(chain, own, SECTION_PROPS), children)
  {
    var carried := Carried(ancestor, own);
    LiftedLook(ancestor, chain, own);
    BesideAgrees(carried, children, Lifted(chain, own, SECTION_PROPS));
    assert [Breakout(carried, children)][1..] == [];
    assert SegmentsOut([Breakout(carried, children)], style) == [SideBySide(carried, children)] + []
        == [SideBySide(carried, children)];
  }

  lemma {:induction false} SplitAgrees(ns: seq<Node>, run: seq<Node>, ancestor: Style, chain: seq<Style>, style: Style)
    requires Carries(ancestor, chain)
    ensures MjParts(SegmentsOut(Split(ns, run, ancestor), style)) ==
            WithSection(ns, run, Shown(style, SECTION_PROPS), chain)
    decreases ns
  {
    hide Carries, PlainParts, BesideParts, SegmentsOut, MjParts, IsBreakout, IsRowOfColumns, AnyBreakout, Shown, Merge,
         Carried, Lifted;
    var look := Shown(style, SECTION_PROPS);
    if ns == [] {
      SectionEnds(ns, run, style, chain);
    } else {
      var n, rest := ns[0], ns[1..];
      RowsAgree(n);
      if n.El? {
        RowsHeld(n.children);
      }
      if RowHere(n) {
        var own := n.attrs.style;
        CarriesOn(ancestor, chain, own);
        SplitAgrees(rest, [], ancestor, chain, style);
        SectionEnds(ns, run, style, chain);
        if IsBreakout(n) {
          RowAgrees(ancestor, chain, own, n.children, style);
          ThreeSegments(FlushRun(run), [Breakout(Carried(ancestor, own), n.children)], Split(rest, [], ancestor), style);
        } else {
          SplitAgrees(n.children, [], Merge(ancestor, own), chain + [own], style);
          ThreeSegments(FlushRun(run), Split(n.children, [], Merge(ancestor, own)), Split(rest, [], ancestor), style);
        }
      } else {
        SplitAgrees(rest, run + [n], ancestor, chain, style);
        SectionOn(ns, run, look, chain);
      }
    }
  }

  /* ---- cards in one piece ---- */

  lemma {:induction false} EachCellAgrees(ns: seq<Node>, width: nat)
    ensures forall i :: 0 <= i < |ColumnsOf(ns)| ==> ColumnsOf(ns)[i].El?
    ensures CellParts(CellsOut(ColumnsOf(ns), width)) == EachCell(ns, width)
  {
    ColumnsAreColumns(ns);
    if ns != [] {
      EachCellAgrees(ns[1..], width);
      if IsColumn(ns[0]) {
        var cols := ColumnsOf(ns[1..]);
        LineAgrees(ns[0].children);
        assert ColumnsOf(ns) == [ns[0]] + cols && ColumnsOf(ns)[1..] == cols;
        assert CellsOut(ColumnsOf(ns), width)[1..] == CellsOut(cols, width);
      } else {
        assert [] + EachCell(ns[1..], width) == EachCell(ns[1..], width) && [] + ColumnsOf(ns[1..]) == ColumnsOf(ns[1..]);
      }
    }
  }

  lemma TableAgrees(children: seq<Node>)
    ensures MjParts(TableOut(children)) == TableParts(children)
  {
    var cols := ColumnsOf(children);
    ColumnsAreColumns(children);
    PartitionAgrees(children);
    if cols != [] {
      EachCellAgrees(children, 100 / |cols|);
      OnePart(MjTable(CellsOut(cols, 100 / |cols|)));
    }
  }

  function WithCard(ns: seq<Node>, run: seq<Node>): seq<Part> {
    if run == [] then CardContent(ns)
    else ContentParts(run + ns[..BeforeOwnRow(ns)], "") + CardContent(ns[BeforeOwnRow(ns)..])
  }

  lemma CardOn(ns: seq<Node>, run: seq<Node>)
    requires ns != [] && !IsRowOfColumns(ns[0])
    ensures WithCard(ns[1..], run + [ns[0]]) == WithCard(ns, run)
  {
    var k := BeforeOwnRow(ns[1..]);
    assert ns[1..][k..] == ns[k + 1..];
    assert run + [ns[0]] + ns[1..][..k] == run + ns[..k + 1];
    if run == [] {
      assert run + ns[..k + 1] == ns[..k + 1];
    }
  }

  lemma CardEnds(ns: seq<Node>, run: seq<Node>)
    requires BeforeOwnRow(ns) == 0
    ensures WithCard(ns, run) == MjParts(Flow(run, [], "")) + CardContent(ns)
  {
    ContentAgrees(run, [], "");
    assert ns[..0] == [] && ns[0..] == ns && run + [] == run;
    assert [] + CardContent(ns) == CardContent(ns);
  }

  lemma {:induction false} CardContentAgrees(ns: seq<Node>, run: seq<Node>)
    ensures MjParts(CardBody(ns, run)) == WithCard(ns, run)
    decreases ns
  {
    hide MjParts, IsBreakout, IsRowOfColumns, TableOut, TableParts, Flow, ContentParts;
    if ns == [] {
      CardEnds(ns, run);
      assert WithCard(ns, run) == MjParts(Flow(run, [], "")) + [] == MjParts(Flow(run, [], ""));
    } else {
      var n, rest := ns[0], ns[1..];
      RowsAgree(n);
      if IsBreakout(n) {
        TableAgrees(n.children);
        CardContentAgrees(rest, []);
        ThreeParts(Flow(run, [], ""), TableOut(n.children), CardBody(rest, []));
        CardEnds(ns, run);
      } else {
        CardContentAgrees(rest, run + [n]);
        CardOn(ns, run);
      }
    }
  }

  lemma CardColumnAgrees(attrs: Style, body: seq<Node>)
    ensures MjParts([MjColumn(attrs, CardBody(body, []))]) == [ColumnPart(Shown(attrs, COLUMN_PROPS))] + CardContent(body)
  {
    CardContentAgrees(body, []);
    OnePart(MjColumn(attrs, CardBody(body, [])));
  }

  lemma CardAgrees(style: Style, children: seq<Node>)
    ensures MjParts([CardOut(style, children)]) == CardParts(Authored(style, SECTION_PROPS), children)
  {
    hide CardBody, CardContent, Promoted, Authored, Shown;
    SectionLook(style);
    BoxAgrees(children);
    OnePart(CardOut(style, children));
    if IsSoleWrapper(children) {
      var box := children[0];
      ColumnLook(box.attrs.style);
      CardColumnAgrees(Promoted(box.attrs.style, COLUMN_ATTRS), box.children);
    } else {
      BlankLook(COLUMN_PROPS, ["", "", "", "", ""]);
      CardColumnAgrees([], children);
    }
  }

  /* ---- the document ---- */

  lemma SectionForm(style: Style, children: seq<Node>)
    ensures SectionOut(style, children) ==
            if ColumnCount(children) > 0 then [SideBySide(style, children)]
            else if HasCardStyle(style) && HoldsRow(children) && AllRowsFit(children) then [CardOut(style, children)]
            else SegmentsOut(Split(children, [], style), Promoted(style, SECTION_ATTRS))
  {
    PartitionAgrees(children);
    CardStyleAgrees(style);
    RowsHeld(children);
    RowsFitAgree(children);
  }

  lemma SectionAgrees(style: Style, children: seq<Node>)
    ensures MjParts(SectionOut(style, children)) == SectionParts(style, children)
  {
    hide SectionOut, SideBySide, CardOut, Split, ColumnCount, HasCardStyle, HoldsRow, AllRowsFit, BesideParts, CardParts,
         SplitParts, Authored, Shown;
    SectionForm(style, children);
    SectionLook(style);
    if ColumnCount(children) > 0 {
      BesideAgrees(style, children, Authored(style, SECTION_PROPS));
    } else if HasCardStyle(style) && HoldsRow(children) && AllRowsFit(children) {
      CardAgrees(style, children);
    } else {
      CarriesFirst(style);
      SplitAgrees(children, [], style, [style], Promoted(style, SECTION_ATTRS));
    }
  }

  lemma LooseAgrees(n: Node)
    ensures MjParts([Loose(n)]) ==
            [SectionPart(Look(["", "", "", "", "", "", ""], [])), BLANK_COLUMN] + RunParts([n])
  {
    hide RunText, RunParts, Shown;
    RunAgrees([n]);
    BlankLook(SECTION_PROPS, ["", "", "", "", "", "", ""]);
    BlankLook(COLUMN_PROPS, ["", "", "", "", ""]);
    OnePart(MjColumn([], [RunText([n])]));
    OnePart(Loose(n));
  }

  lemma StrayColumnAgrees(style: Style, children: seq<Node>)
    ensures MjParts([MjSection(Promoted(style, SECTION_ATTRS), [ColumnOut(style, children)])]) ==
            [SectionPart(Authored(style, SECTION_PROPS)), ColumnPart(Authored(style, COLUMN_PROPS))]
            + ContentParts(children, "")
  {
    hide ColumnOut, ContentParts, Promoted, Authored, Shown;
    SectionLook(style);
    ColumnAgrees(style, children);
    OnePart(ColumnOut(style, children));
    OnePart(MjSection(Promoted(style, SECTION_ATTRS), [ColumnOut(style, children)]));
  }

  lemma {:induction false} BlockAgrees(n: Node)
    ensures MjParts(BlockOut(n)) == BlockPartsIn(n)
    decreases n
  {
    hide SectionOut, SectionParts, Loose, RunParts, ContentParts, ColumnOut, Promoted, Authored;
    if !n.El? {
      LooseAgrees(n);
    } else if n.tag.SpacingWrapper? {
      DocumentAgrees(n.children);
      OnePart(MjWrapper(n.attrs.padding, Blocks(n.children)));
    } else if n.tag.Section? || n.tag.Row? {
      SectionAgrees(n.attrs.style, n.children);
    } else if n.tag.Column? {
      StrayColumnAgrees(n.attrs.style, n.children);
    } else {
      LooseAgrees(n);
    }
  }

  /** The document is part by part the reference: what every element is, where it leads,
      how it looks and what it says, in document order. */
  lemma {:induction false} DocumentAgrees(ns: seq<Node>)
    ensures MjParts(Blocks(ns)) == BlockParts(ns)
    decreases ns
  {
    if ns != [] {
      BlockAgrees(ns[0]);
      DocumentAgrees(ns[1..]);
      MjPartsConcat(BlockOut(ns[0]), Blocks(ns[1..]));
    }
  }
}
