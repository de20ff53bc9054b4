/** What every translation guarantees: legal MJML nesting. */
module TranslationLaws {
  import opened Styles
  import opened Markup
  import opened Translation

  /* ---- nesting ---- */

  lemma {:induction false} FlowLeaves(ns: seq<Node>, run: seq<Node>, link: string)
    ensures Leaves(Flow(ns, run, link))
    decreases ns
  {
    if ns != [] {
      match ns[0] {
        case Raw(_) => FlowLeaves(ns[1..], run + [ns[0]], link);
        case RichText(_, _) => FlowLeaves(ns[1..], run + [ns[0]], link);
        case El(tag, attrs, children) =>
          if IsBlockTag(tag) {
            FlowLeaves(children, [], link);
            FlowLeaves(ns[1..], [], link);
          } else if IsBlockLevel(ns[0]) {
            FlowLeaves(ns[1..], [], link);
          } else if HasBlockDescendant(ns[0]) {
            FlowLeaves(children, [], LinkIn(tag, attrs, link));
            FlowLeaves(ns[1..], [], link);
          } else {
            FlowLeaves(ns[1..], run + [ns[0]], link);
          }
      }
    }
  }

  lemma {:induction false} ColumnsValid(cols: seq<Node>)
    requires forall i :: 0 <= i < |cols| ==> cols[i].El?
    ensures forall i :: 0 <= i < |ColumnsOut(cols)| ==> ValidColumn(ColumnsOut(cols)[i])
  {
    if cols != [] {
      FlowLeaves(cols[0].children, [], "");
      ColumnsValid(cols[1..]);
    }
  }

  lemma SideBySideValid(style: Style, children: seq<Node>)
    ensures ValidSection(SideBySide(style, children))
  {
    ColumnsAreColumns(children);
    ColumnsValid(ColumnsOf(children));
    FlowLeaves(OthersOf(children), [], "");
  }

  lemma {:induction false} SegmentsValid(segs: seq<Segment>, style: Style)
    ensures Sections(SegmentsOut(segs, style))
  {
    if segs != [] {
      SegmentsValid(segs[1..], style);
      match segs[0] {
        case Breakout(s, children) => SideBySideValid(s, children);
        case Run(run) =>
          FlowLeaves(run, [], "");
          if IsSoleWrapper(run) {
            FlowLeaves(run[0].children, [], "");
          }
      }
    }
  }

  lemma {:induction false} CardBodyLeaves(ns: seq<Node>, run: seq<Node>)
    ensures Leaves(CardBody(ns, run))
    decreases ns
  {
    FlowLeaves(run, [], "");
    if ns != [] {
      CardBodyLeaves(ns[1..], if IsBreakout(ns[0]) then [] else run + [ns[0]]);
    }
  }

  lemma SectionValid(style: Style, children: seq<Node>)
    ensures Sections(SectionOut(style, children))
  {
    SideBySideValid(style, children);
    SegmentsValid(Split(children, [], style), Promoted(style, SECTION_ATTRS));
    CardBodyLeaves(children, []);
    if IsSoleWrapper(children) {
      CardBodyLeaves(children[0].children, []);
    }
  }

  predicate IsSpacing(n: Node) {
    n.El? && n.tag.SpacingWrapper?
  }

  predicate HoldsSpacing(n: Node) {
    IsSpacing(n) && exists i :: 0 <= i < |n.children| && IsSpacing(n.children[i])
  }

  // Only a spacing wrapper becomes an mj-wrapper.
  lemma {:induction false} BlockShape(n: Node)
    ensures Sections(BlockOut(n)) <==> !IsSpacing(n)
    ensures ValidBody(BlockOut(n)) <==> !HoldsSpacing(n)
    decreases n
  {
    if n.El? {
      FlowLeaves(n.children, [], "");
      if n.tag.Section? || n.tag.Row? {
        SectionValid(n.attrs.style, n.children);
        AppendBlocks(SectionOut(n.attrs.style, n.children), []);
      }
      if n.tag.SpacingWrapper? {
        BlocksShape(n.children);
        assert BlockOut(n)[0].MjWrapper?;
      }
    }
  }

  lemma {:induction false} BlocksShape(ns: seq<Node>)
    ensures Sections(Blocks(ns)) <==> forall i :: 0 <= i < |ns| ==> !IsSpacing(ns[i])
    ensures ValidBody(Blocks(ns)) <==> forall i :: 0 <= i < |ns| ==> !HoldsSpacing(ns[i])
    decreases ns
  {
    if ns != [] {
      BlockShape(ns[0]);
      BlocksShape(ns[1..]);
      AppendBlocks(BlockOut(ns[0]), Blocks(ns[1..]));
      AllOfRest(ns);
    }
  }

  lemma AppendBlocks(a: seq<Mj>, b: seq<Mj>)
    ensures Sections(a + b) <==> Sections(a) && Sections(b)
    ensures ValidBody(a + b) <==> ValidBody(a) && ValidBody(b)
    ensures Sections(a) ==> ValidBody(a)
  {
    forall i | 0 <= i < |a| ensures (a + b)[i] == a[i] {}
    forall i | 0 <= i < |b| ensures (a + b)[|a| + i] == b[i] {}
  }

  lemma AllOfRest(ns: seq<Node>)
    requires ns != []
    ensures (forall i :: 0 <= i < |ns| ==> !IsSpacing(ns[i])) <==>
            !IsSpacing(ns[0]) && forall i :: 0 <= i < |ns[1..]| ==> !IsSpacing(ns[1..][i])
    ensures (forall i :: 0 <= i < |ns| ==> !HoldsSpacing(ns[i])) <==>
            !HoldsSpacing(ns[0]) && forall i :: 0 <= i < |ns[1..]| ==> !HoldsSpacing(ns[1..][i])
  {
    assert ns == [ns[0]] + ns[1..];
  }

  /** Every tree translates to legal nesting unless a spacing wrapper sits directly in
      another one at the top. */
  lemma TranslationIsValid(roots: seq<Node>)
    ensures ValidBody(Blocks(roots)) <==> forall i :: 0 <= i < |roots| ==> !HoldsSpacing(roots[i])
  {
    BlocksShape(roots);
  }

  /* ---- how the output is put together ---- */

  // The parts the first node of a column's content contributes.
  lemma FlowParts(ns: seq<Node>, run: seq<Node>, link: string) returns (middle: seq<Mj>)
    requires ns != [] && ns[0].El? && (IsBlockLevel(ns[0]) || HasBlockDescendant(ns[0]))
    ensures Flow(ns, run, link) == Flush(run) + middle + Flow(ns[1..], [], link)
    ensures middle == var n := ns[0];
                      if IsBlockLevel(n) && !IsBlockTag(n.tag) then [Element(n.tag, n.attrs, n.children, link)]
                      else Flow(n.children, [], if IsBlockTag(n.tag) then link else LinkIn(n.tag, n.attrs, link))
  {
    var n := ns[0];
    middle := if IsBlockLevel(n) && !IsBlockTag(n.tag) then [Element(n.tag, n.attrs, n.children, link)]
              else Flow(n.children, [], if IsBlockTag(n.tag) then link else LinkIn(n.tag, n.attrs, link));
  }

  lemma Assoc<T>(a: seq<T>, b: seq<T>, c: seq<T>)
    ensures (a + b) + c == a + (b + c)
  {
  }

  lemma FirstPart(n: Node, rest: seq<Node>)
    ensures IsColumn(n) ==> ColumnsOf([n] + rest) == [n] + ColumnsOf(rest) && OthersOf([n] + rest) == OthersOf(rest)
    ensures !IsColumn(n) ==> ColumnsOf([n] + rest) == ColumnsOf(rest) && OthersOf([n] + rest) == [n] + OthersOf(rest)
  {
    assert ([n] + rest)[1..] == rest;
  }

  lemma SegmentsCons(seg: Segment, rest: seq<Segment>, style: Style)
    ensures SegmentsOut([seg] + rest, style) == SegmentOut(seg, style) + SegmentsOut(rest, style)
  {
    assert ([seg] + rest)[1..] == rest;
  }

  lemma {:induction false} SegmentsConcat(a: seq<Segment>, b: seq<Segment>, style: Style)
    ensures SegmentsOut(a + b, style) == SegmentsOut(a, style) + SegmentsOut(b, style)
  {
    if a == [] {
      assert a + b == b;
    } else {
      var seg, tail := a[0], a[1..];
      assert a == [seg] + tail && a + b == [seg] + (tail + b);
      SegmentsConcat(tail, b, style);
      SegmentsCons(seg, tail, style);
      SegmentsCons(seg, tail + b, style);
      Assoc(SegmentOut(seg, style), SegmentsOut(tail, style), SegmentsOut(b, style));
    }
  }
}
