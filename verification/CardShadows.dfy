/** Card shadows are collected from the tree before translation and re-applied after
    it by position, so the list has to line up with the rounded sections emitted. */
module CardShadows {
  import opened Styles
  import opened Markup
  import opened Translation
  import TranslationLaws

  datatype Card = Card(radius: string, shadow: string)

  predicate IsCardNode(n: Node) {
    n.El? && (n.tag.Section? || n.tag.Row?) && CssProp(n.attrs.style, "border-radius") != ""
  }

  function CardsIn(n: Node): seq<Card> {
    if !n.El? then [] else
    (if IsCardNode(n) then [Card(CssProp(n.attrs.style, "border-radius"), CssProp(n.attrs.style, "box-shadow"))] else [])
    + Cards(n.children)
  }

  /** The cards authored in the tree, in document order. */
  function Cards(ns: seq<Node>): seq<Card> {
    if ns == [] then [] else CardsIn(ns[0]) + Cards(ns[1..])
  }

  function Shadows(cards: seq<Card>): seq<string> {
    seq(|cards|, i requires 0 <= i < |cards| => cards[i].shadow)
  }

  function Radii(cards: seq<Card>): seq<string> {
    seq(|cards|, i requires 0 <= i < |cards| => cards[i].radius)
  }

  function RoundedIn(m: Mj): seq<string> {
    match m
    case MjWrapper(_, body) => Rounded(body)
    case MjSection(attrs, _) => if CssProp(attrs, "border-radius") != "" then [CssProp(attrs, "border-radius")] else []
    case _ => []
  }

  /** The radii of the rounded mj-sections, in document order. */
  function Rounded(ms: seq<Mj>): seq<string> {
    if ms == [] then [] else RoundedIn(ms[0]) + Rounded(ms[1..])
  }

  /* ---- the walk that collects the shadows ---- */

  lemma ShadowsAppend(found: seq<string>, a: seq<Card>, b: seq<Card>)
    ensures found + Shadows(a + b) == found + Shadows(a) + Shadows(b)
  {
  }

  // The cards still to be found from position i on.
  lemma CardsStep(found: seq<string>, ns: seq<Node>, i: nat)
    requires i < |ns|
    ensures found + Shadows(Cards(ns[i..])) == found + Shadows(CardsIn(ns[i])) + Shadows(Cards(ns[i + 1..]))
  {
  }

  method WalkCards(ns: seq<Node>, found: seq<string>) returns (out: seq<string>)
    ensures out == found + Shadows(Cards(ns))
    decreases ns, 1
  {
    out := found;
    for i := 0 to |ns|
      invariant out + Shadows(Cards(ns[i..])) == found + Shadows(Cards(ns))
    {
      CardsStep(out, ns, i);
      out := WalkNode(ns[i], out);
    }
    assert ns[|ns|..] == [];
  }

  method WalkNode(n: Node, found: seq<string>) returns (out: seq<string>)
    ensures out == found + Shadows(CardsIn(n))
    decreases n, 0
  {
    out := found;
    if n.El? {
      ShadowsAppend(found,
                    if IsCardNode(n)
                    then [Card(CssProp(n.attrs.style, "border-radius"), CssProp(n.attrs.style, "box-shadow"))]
                    else [], Cards(n.children));
      if (n.tag.Section? || n.tag.Row?) && CssProp(n.attrs.style, "border-radius") != "" {
        out := out + [CssProp(n.attrs.style, "box-shadow")];
      }
      out := WalkCards(n.children, out);
    }
  }

  method CollectCardShadows(ns: seq<Node>) returns (out: seq<string>)
    ensures out == Shadows(Cards(ns))
  {
    out := WalkCards(ns, []);
  }

  /** All elements of the tree, the outer before the inner. */
  function Elements(ns: seq<Node>): seq<Node> {
    if ns == [] then [] else
    (if ns[0].El? then [ns[0]] + Elements(ns[0].children) else []) + Elements(ns[1..])
  }

  // A rounded section or row, with its radius and its shadow.
  function CardOf(n: Node): seq<Card> {
    if n.El? && (n.tag == Section || n.tag == Row) && CssProp(n.attrs.style, "border-radius") != "" then
      [Card(CssProp(n.attrs.style, "border-radius"), CssProp(n.attrs.style, "box-shadow"))]
    else []
  }

  function CardsAmong(es: seq<Node>): seq<Card> {
    if es == [] then [] else CardOf(es[0]) + CardsAmong(es[1..])
  }

  lemma {:induction false} CardsAmongBoth(a: seq<Node>, b: seq<Node>)
    ensures CardsAmong(a + b) == CardsAmong(a) + CardsAmong(b)
  {
    if a == [] {
      assert a + b == b;
    } else {
      CardsAmongBoth(a[1..], b);
      assert (a + b)[0] == a[0] && (a + b)[1..] == a[1..] + b;
      TranslationLaws.Assoc(CardOf(a[0]), CardsAmong(a[1..]), CardsAmong(b));
    }
  }

  /** The cards collected are the rounded sections and rows of the whole tree, in
      document order, each with the shadow it was given. */
  lemma {:induction false} CardsAreRoundedElements(ns: seq<Node>)
    ensures Cards(ns) == CardsAmong(Elements(ns))
    decreases ns
  {
    if ns != [] {
      var n, rest := ns[0], Elements(ns[1..]);
      CardsAreRoundedElements(ns[1..]);
      if n.El? {
        CardsAreRoundedElements(n.children);
        CardsAmongBoth([n] + Elements(n.children), rest);
        CardsAmongBoth([n], Elements(n.children));
        assert [n][1..] == [];
      } else {
        assert [] + rest == rest;
      }
    }
  }

  /* ---- where a radius may sit ---- */

  const RADIUS := "border-radius"

  // Images and buttons keep a radius of their own and never become sections, as long
  // as they are not dissolved to free a breakout inside them.
  predicate NoRadius(n: Node) {
    n.El? ==> && (Absent(n.attrs.style, RADIUS) || ((n.tag.Img? || n.tag.Button?) && !ContainsBreakout(n)))
              && NoRadiusAll(n.children)
  }

  predicate NoRadiusAll(ns: seq<Node>) {
    ns == [] || (NoRadius(ns[0]) && NoRadiusAll(ns[1..]))
  }

  // How many mj-sections a block-level Section or Row becomes.
  function Copies(style: Style, children: seq<Node>): nat {
    if ColumnsOf(children) != [] then 1
    else if IsCard(style) && AnyBreakout(children) && BreakoutsTableSafe(children) then 1
    else |Split(children, [], style)|
  }

  // A breakout and nothing beside it, however many containers are dissolved around it.
  predicate Sole(ns: seq<Node>) {
    |ns| == 1 && (IsBreakout(ns[0]) || (ContainsBreakout(ns[0]) && Sole(ns[0].children)))
  }

  /** The authored content that stays one section: with columns of its own, or not empty
      and without a breakout, or with only breakouts that can be table rows, or with
      nothing but one breakout. */
  predicate StaysWhole(children: seq<Node>) {
    ColumnsOf(children) != [] || (children != [] && (AnyBreakout(children) ==> BreakoutsTableSafe(children) || Sole(children)))
  }

  function Repeat<T>(x: T, n: nat): seq<T> {
    seq(n, _ => x)
  }

  lemma {:induction false} RoundedConcat(a: seq<Mj>, b: seq<Mj>)
    ensures Rounded(a + b) == Rounded(a) + Rounded(b)
  {
    if a == [] {
      assert a + b == b;
    } else {
      RoundedConcat(a[1..], b);
      assert (a + b)[1..] == a[1..] + b && (a + b)[0] == a[0];
      assert Rounded(a + b) == RoundedIn(a[0]) + Rounded(a[1..] + b);
    }
  }

  lemma OneRounded(m: Mj)
    ensures Rounded([m]) == RoundedIn(m)
  {
  }

  lemma AbsentProp(style: Style)
    requires Absent(style, RADIUS)
    ensures CssProp(style, RADIUS) == "" && LastValue(style, RADIUS) == ""
  {
  }

  lemma {:induction false} NoRadiusNoCards(ns: seq<Node>)
    requires NoRadiusAll(ns)
    ensures Cards(ns) == []
    decreases ns
  {
    if ns != [] {
      NoRadiusNoCards(ns[1..]);
      if ns[0].El? {
        NoRadiusNoCards(ns[0].children);
        if ns[0].tag.Section? || ns[0].tag.Row? {
          AbsentProp(ns[0].attrs.style);
        }
      }
    }
  }

  /* ---- the style a breakout carries out ---- */

  // The containers dissolved so far still show the card's radius, "" for none.
  predicate Shows(style: Style, radius: string) {
    LastValue(style, RADIUS) == radius && CssProp(Promoted(style, SECTION_ATTRS), RADIUS) == radius
  }

  lemma MergeKeepsShowing(ancestor: Style, own: Style, radius: string)
    requires Shows(ancestor, radius) && Absent(own, RADIUS)
    ensures Shows(Merge(ancestor, own), radius)
  {
    MergeShows(ancestor, own, RADIUS);
    PromotedProp(Merge(ancestor, own), SECTION_ATTRS, RADIUS);
  }

  lemma CarriedShows(ancestor: Style, own: Style, radius: string)
    requires Shows(ancestor, radius) && Absent(own, RADIUS)
    ensures CssProp(Promoted(Carried(ancestor, own), SECTION_ATTRS), RADIUS) == radius
  {
    if ancestor == [] {
      PromotedAbsent(own, SECTION_ATTRS, RADIUS);
    } else {
      MergeKeepsShowing(ancestor, own, radius);
    }
  }

  lemma OnceShows(style: Style)
    requires Once(style)
    ensures Shows(style, CssProp(style, RADIUS))
  {
    LastValueOnce(style, RADIUS);
    PromotedProp(style, SECTION_ATTRS, RADIUS);
  }

  function RadiusIfAny(radius: string): seq<string> {
    if radius == "" then [] else [radius]
  }

  lemma OneSegmentRounded(seg: Segment, style: Style, radius: string)
    requires CssProp(style, RADIUS) == radius
    requires match seg case Run(run) => run != [] case Breakout(s, _) => CssProp(Promoted(s, SECTION_ATTRS), RADIUS) == radius
    ensures Rounded(SegmentsOut([seg], style)) == RadiusIfAny(radius)
  {
  }

  // Every slice a split card is cut into is a rounded section of its own.
  predicate AllRounded(segs: seq<Segment>, style: Style, radius: string) {
    Rounded(SegmentsOut(segs, style)) == if radius == "" then [] else Repeat(radius, |segs|)
  }

  lemma RepeatConcat(x: string, m: nat, n: nat)
    ensures Repeat(x, m) + Repeat(x, n) == Repeat(x, m + n)
  {
  }

  lemma RoundedTogether(a: seq<Segment>, b: seq<Segment>, style: Style, radius: string)
    requires AllRounded(a, style, radius) && AllRounded(b, style, radius)
    ensures AllRounded(a + b, style, radius)
  {
    TranslationLaws.SegmentsConcat(a, b, style);
    RoundedConcat(SegmentsOut(a, style), SegmentsOut(b, style));
    RepeatConcat(radius, |a|, |b|);
  }

  lemma ThreeTogether(a: seq<Segment>, b: seq<Segment>, c: seq<Segment>, style: Style, radius: string)
    requires AllRounded(a, style, radius) && AllRounded(b, style, radius) && AllRounded(c, style, radius)
    ensures AllRounded(a + b + c, style, radius)
  {
    RoundedTogether(a, b, style, radius);
    RoundedTogether(a + b, c, style, radius);
  }

  lemma FlushRounded(run: seq<Node>, style: Style, radius: string)
    requires CssProp(style, RADIUS) == radius
    ensures AllRounded(FlushRun(run), style, radius)
  {
  }

  lemma {:induction false} SplitRounded(ns: seq<Node>, run: seq<Node>, ancestor: Style, style: Style, radius: string)
    requires NoRadiusAll(ns) && Shows(ancestor, radius) && CssProp(style, RADIUS) == radius
    ensures AllRounded(Split(ns, run, ancestor), style, radius)
    decreases ns
  {
    var flushed := FlushRun(run);
    FlushRounded(run, style, radius);
    if ns != [] {
      var n, rest := ns[0], ns[1..];
      if IsBreakout(n) {
        var seg := Breakout(Carried(ancestor, n.attrs.style), n.children);
        CarriedShows(ancestor, n.attrs.style, radius);
        OneSegmentRounded(seg, style, radius);
        SplitRounded(rest, [], ancestor, style, radius);
        ThreeTogether(flushed, [seg], Split(rest, [], ancestor), style, radius);
      } else if ContainsBreakout(n) {
        MergeKeepsShowing(ancestor, n.attrs.style, radius);
        SplitRounded(n.children, [], Merge(ancestor, n.attrs.style), style, radius);
        SplitRounded(rest, [], ancestor, style, radius);
        ThreeTogether(flushed, Split(n.children, [], Merge(ancestor, n.attrs.style)), Split(rest, [], ancestor), style, radius);
      } else {
        SplitRounded(rest, run + [n], ancestor, style, radius);
      }
    }
  }

  /* ---- sections ---- */

  /** A block-level Section or Row with nothing rounded inside becomes Copies rounded
      mj-sections if it is a card, and none if it is not. */
  lemma SectionRounded(style: Style, children: seq<Node>)
    requires Once(style) && NoRadiusAll(children)
    ensures var radius := CssProp(style, RADIUS);
            Rounded(SectionOut(style, children)) == if radius == "" then [] else Repeat(radius, Copies(style, children))
  {
    var radius := CssProp(style, RADIUS);
    OnceShows(style);
    if ColumnsOf(children) != [] {
      OneRounded(SideBySide(style, children));
    } else if IsCard(style) && AnyBreakout(children) && BreakoutsTableSafe(children) {
      OneRounded(CardOut(style, children));
    } else {
      SplitRounded(children, [], style, Promoted(style, SECTION_ATTRS), radius);
    }
  }

  lemma {:induction false} SplitWhole(ns: seq<Node>, run: seq<Node>, ancestor: Style)
    requires !AnyBreakout(ns)
    ensures Split(ns, run, ancestor) == FlushRun(run + ns)
    decreases ns
  {
    if ns == [] {
      assert run + ns == run;
    } else {
      SplitWhole(ns[1..], run + [ns[0]], ancestor);
      assert run + [ns[0]] + ns[1..] == run + ns;
    }
  }

  lemma {:induction false} SplitSomething(ns: seq<Node>, run: seq<Node>, ancestor: Style)
    requires ns != [] || run != []
    ensures Split(ns, run, ancestor) != []
    decreases ns
  {
    if ns != [] && !IsBreakout(ns[0]) {
      if ContainsBreakout(ns[0]) {
        SplitSomething(ns[0].children, [], Merge(ancestor, ns[0].attrs.style));
      } else {
        SplitSomething(ns[1..], run + [ns[0]], ancestor);
      }
    }
  }

  lemma ThreeLengths(a: seq<Segment>, b: seq<Segment>, c: seq<Segment>)
    ensures |a + b + c| == |a| + |b| + |c|
  {
  }

  // One segment comes of a breakout alone, and of nothing else that holds one.
  lemma {:induction false} SplitOnce(ns: seq<Node>, run: seq<Node>, ancestor: Style)
    requires AnyBreakout(ns)
    ensures |Split(ns, run, ancestor)| == 1 <==> run == [] && Sole(ns)
    decreases ns
  {
    var n, rest := ns[0], ns[1..];
    if rest != [] {
      SplitSomething(rest, [], ancestor);
    }
    if IsBreakout(n) {
      ThreeLengths(FlushRun(run), [Breakout(Carried(ancestor, n.attrs.style), n.children)], Split(rest, [], ancestor));
    } else if ContainsBreakout(n) {
      var inner := Merge(ancestor, n.attrs.style);
      SplitSomething(n.children, [], inner);
      SplitOnce(n.children, [], inner);
      ThreeLengths(FlushRun(run), Split(n.children, [], inner), Split(rest, [], ancestor));
    } else {
      SplitOnce(rest, run + [n], ancestor);
    }
  }

  /** A rounded Section or Row becomes exactly one section if and only if its authored
      content stays whole. */
  lemma WholeIff(style: Style, children: seq<Node>)
    requires CssProp(style, RADIUS) != ""
    ensures Copies(style, children) == 1 <==> StaysWhole(children)
  {
    if AnyBreakout(children) {
      SplitOnce(children, [], style);
    } else {
      SplitWhole(children, [], style);
      assert [] + children == children;
    }
  }

  /** A card that is not empty and whose breakouts, if any, can all be rendered as
      tables stays one section. */
  lemma WholeCard(style: Style, children: seq<Node>)
    requires CssProp(style, RADIUS) != "" && children != []
    requires AnyBreakout(children) && ColumnsOf(children) == [] ==> BreakoutsTableSafe(children)
    ensures Copies(style, children) == 1
  {
    WholeIff(style, children);
  }

  /** An empty card disappears. */
  lemma EmptyCard(style: Style)
    ensures Copies(style, []) == 0 && SectionOut(style, []) == []
  {
  }

  lemma {:induction false} SplitThenBreakout(before: seq<Node>, run: seq<Node>, row: Node, ancestor: Style)
    requires !AnyBreakout(before) && IsBreakout(row)
    ensures Split(before + [row], run, ancestor) ==
            FlushRun(run + before) + [Breakout(Carried(ancestor, row.attrs.style), row.children)]
    decreases before
  {
    var ns := before + [row];
    if before == [] {
      assert ns[1..] == [] && run + before == run;
    } else {
      assert ns[0] == before[0] && ns[1..] == before[1..] + [row];
      SplitThenBreakout(before[1..], run + [before[0]], row, ancestor);
      assert run + [before[0]] + before[1..] == run + before;
    }
  }

  lemma {:induction false} UnsafeAfter(before: seq<Node>, row: Node)
    requires IsBreakout(row) && !TableSafe(row) && !IsColumn(row)
    ensures !BreakoutsTableSafe(before + [row])
    ensures ColumnsOf(before) == [] ==> ColumnsOf(before + [row]) == []
    decreases before
  {
    var ns := before + [row];
    if before == [] {
      assert ns[1..] == [];
    } else {
      assert ns[0] == before[0] && ns[1..] == before[1..] + [row];
      UnsafeAfter(before[1..], row);
    }
  }

  /** A card that ends in a poll, a row whose columns hold buttons, becomes two rounded
      sections. */
  lemma PollCardDoubles(style: Style, before: seq<Node>, row: Node)
    requires before != [] && !AnyBreakout(before) && ColumnsOf(before) == []
    requires IsBreakout(row) && row.tag.Row? && !TableSafe(row)
    ensures Copies(style, before + [row]) == 2
  {
    SplitThenBreakout(before, [], row, style);
    UnsafeAfter(before, row);
    assert [] + before == before;
  }

  /* ---- the document ---- */

  predicate CardPlaced(n: Node) {
    if n.El? && (n.tag.Section? || n.tag.Row?) then Once(n.attrs.style) && NoRadiusAll(n.children)
    else if n.El? && n.tag.SpacingWrapper? then Absent(n.attrs.style, RADIUS) && CardsPlaced(n.children)
    else NoRadius(n) && (n.El? && n.tag.Column? ==> Absent(n.attrs.style, RADIUS))
  }

  /** A radius sits only on block-level Sections and Rows. */
  predicate CardsPlaced(ns: seq<Node>) {
    ns == [] || (CardPlaced(ns[0]) && CardsPlaced(ns[1..]))
  }

  predicate CardWhole(n: Node) {
    if IsCardNode(n) then StaysWhole(n.children)
    else n.El? && n.tag.SpacingWrapper? ==> CardsWhole(n.children)
  }

  /** Every block-level card's authored content stays whole. */
  predicate CardsWhole(ns: seq<Node>) {
    ns == [] || (CardWhole(ns[0]) && CardsWhole(ns[1..]))
  }

  lemma LooseNotRounded(n: Node)
    requires CardPlaced(n) && !(n.El? && (n.tag.Section? || n.tag.Row? || n.tag.SpacingWrapper?))
    ensures Rounded(BlockOut(n)) == [] && CardsIn(n) == []
  {
    OneRounded(BlockOut(n)[0]);
    if n.El? {
      NoRadiusNoCards(n.children);
      if n.tag.Column? {
        PromotedAbsent(n.attrs.style, SECTION_ATTRS, RADIUS);
      }
    }
  }

  // A block-level Section or Row is one card or none.
  lemma SectionCards(n: Node)
    requires CardPlaced(n) && n.El? && (n.tag.Section? || n.tag.Row?)
    ensures var radius := CssProp(n.attrs.style, RADIUS);
            && Radii(CardsIn(n)) == RadiusIfAny(radius) && (IsCardNode(n) <==> radius != "")
            && Rounded(BlockOut(n)) == if radius == "" then [] else Repeat(radius, Copies(n.attrs.style, n.children))
  {
    SectionRounded(n.attrs.style, n.children);
    NoRadiusNoCards(n.children);
  }

  lemma WrapperCards(n: Node)
    requires CardPlaced(n) && n.El? && n.tag.SpacingWrapper?
    ensures CardsIn(n) == Cards(n.children) && Rounded(BlockOut(n)) == Rounded(Blocks(n.children)) && !IsCardNode(n)
  {
    OneRounded(MjWrapper(n.attrs.padding, Blocks(n.children)));
  }

  /** One block-level card lines up with its shadow exactly when its authored content
      stays whole. */
  lemma CardLinesUpIff(n: Node)
    requires IsCardNode(n) && Once(n.attrs.style) && NoRadiusAll(n.children)
    ensures Rounded(BlockOut(n)) == Radii(CardsIn(n)) <==> StaysWhole(n.children)
  {
    SectionCards(n);
    WholeIff(n.attrs.style, n.children);
    assert |Radii(CardsIn(n))| == 1;
  }

  /* ---- which card each rounded section came from ---- */

  // A block's rounded sections, each tagged with the number of the card it came from;
  // k cards came before.
  function TagsIn(n: Node, k: nat): seq<nat> {
    if IsCardNode(n) then Repeat(k, |Rounded(BlockOut(n))|)
    else if n.El? && n.tag.SpacingWrapper? then Tags(n.children, k)
    else []
  }

  /** The card numbers of the rounded sections, in document order. */
  function Tags(ns: seq<Node>, k: nat): seq<nat> {
    if ns == [] then [] else TagsIn(ns[0], k) + Tags(ns[1..], k + |CardsIn(ns[0])|)
  }

  function Numbers(k: nat, n: nat): seq<nat> {
    seq(n, i requires 0 <= i < n => k + i)
  }

  predicate Between(ts: seq<nat>, low: nat, high: nat) {
    forall i :: 0 <= i < |ts| ==> low <= ts[i] < high
  }

  // Tags are true: each rounded section shows the radius of the card it is tagged with.
  predicate TagsShow(radii: seq<string>, ts: seq<nat>, cards: seq<Card>, k: nat) {
    && |ts| == |radii| && Between(ts, k, k + |cards|)
    && forall i :: 0 <= i < |ts| ==> radii[i] == cards[ts[i] - k].radius
  }

  lemma ShowJoined(ra: seq<string>, ta: seq<nat>, a: seq<Card>, rb: seq<string>, tb: seq<nat>, b: seq<Card>, k: nat)
    requires TagsShow(ra, ta, a, k) && TagsShow(rb, tb, b, k + |a|)
    ensures TagsShow(ra + rb, ta + tb, a + b, k)
  {
    forall i | 0 <= i < |ta + tb| ensures (ra + rb)[i] == (a + b)[(ta + tb)[i] - k].radius {
      if i >= |ta| {
        assert (ta + tb)[i] == tb[i - |ta|] && (ra + rb)[i] == rb[i - |ta|];
      }
    }
  }

  // Numbered stretches one after the other are the numbers only if each is.
  lemma NumbersJoined(ta: seq<nat>, tb: seq<nat>, k: nat, m: nat, n: nat)
    requires Between(ta, k, k + m) && Between(tb, k + m, k + m + n)
    ensures ta + tb == Numbers(k, m + n) <==> ta == Numbers(k, m) && tb == Numbers(k + m, n)
  {
    if ta + tb == Numbers(k, m + n) {
      NumbersParted(ta, tb, k, m, n);
    }
    assert Numbers(k, m) + Numbers(k + m, n) == Numbers(k, m + n);
  }

  lemma NumbersParted(ta: seq<nat>, tb: seq<nat>, k: nat, m: nat, n: nat)
    requires Between(ta, k, k + m) && Between(tb, k + m, k + m + n) && ta + tb == Numbers(k, m + n)
    ensures ta == Numbers(k, m) && tb == Numbers(k + m, n)
  {
    var all := Numbers(k, m + n);
    assert |ta| + |tb| == |ta + tb| == m + n;
    forall i | 0 <= i < |ta| ensures ta[i] == k + i {
      assert ta[i] == (ta + tb)[i] == all[i];
    }
    forall i | 0 <= i < |tb| ensures tb[i] == k + |ta| + i {
      assert tb[i] == (ta + tb)[|ta| + i] == all[|ta| + i];
    }
    assert |ta| > 0 ==> ta[|ta| - 1] < k + m;
    assert |tb| > 0 ==> tb[0] >= k + m;
  }

  lemma TagsJoined(ra: seq<string>, ta: seq<nat>, a: seq<Card>, rb: seq<string>, tb: seq<nat>, b: seq<Card>, k: nat)
    requires TagsShow(ra, ta, a, k) && TagsShow(rb, tb, b, k + |a|)
    ensures TagsShow(ra + rb, ta + tb, a + b, k)
    ensures ta + tb == Numbers(k, |a + b|) <==> ta == Numbers(k, |a|) && tb == Numbers(k + |a|, |b|)
  {
    ShowJoined(ra, ta, a, rb, tb, b, k);
    NumbersJoined(ta, tb, k, |a|, |b|);
  }

  // So many sections of one card.
  lemma CopiesTagged(c: Card, n: nat, k: nat)
    ensures TagsShow(Repeat(c.radius, n), Repeat(k, n), [c], k)
    ensures Repeat(k, n) == Numbers(k, 1) <==> n == 1
  {
    assert n >= 1 ==> Repeat(k, n)[0] == k;
    assert |Repeat(k, n)| == n && |Numbers(k, 1)| == 1;
  }

  lemma CardTagged(n: Node, k: nat)
    requires CardPlaced(n) && IsCardNode(n)
    ensures TagsShow(Rounded(BlockOut(n)), TagsIn(n, k), CardsIn(n), k)
    ensures |CardsIn(n)| == 1 && (TagsIn(n, k) == Numbers(k, 1) <==> CardWhole(n))
  {
    hide TagsShow, Numbers, BlockOut, Repeat, Rounded, StaysWhole, Copies;
    SectionCards(n);
    WholeIff(n.attrs.style, n.children);
    assert |Radii(CardsIn(n))| == 1 && CardsIn(n)[0].radius == Radii(CardsIn(n))[0];
    assert CardsIn(n) == [CardsIn(n)[0]];
    CopiesTagged(CardsIn(n)[0], Copies(n.attrs.style, n.children), k);
    RepeatLength(CssProp(n.attrs.style, RADIUS), Copies(n.attrs.style, n.children));
  }

  lemma RepeatLength<T>(x: T, n: nat)
    ensures |Repeat(x, n)| == n
  {
  }

  lemma {:induction false} BlockTagged(n: Node, k: nat)
    requires CardPlaced(n)
    ensures TagsShow(Rounded(BlockOut(n)), TagsIn(n, k), CardsIn(n), k)
    ensures TagsIn(n, k) == Numbers(k, |CardsIn(n)|) <==> CardWhole(n)
    decreases n
  {
    hide TagsShow, Numbers, BlockOut, Rounded;
    if IsCardNode(n) {
      CardTagged(n, k);
    } else if n.El? && n.tag.SpacingWrapper? {
      WrapperCards(n);
      CardsTagged(n.children, k);
    } else {
      if n.El? && (n.tag.Section? || n.tag.Row?) {
        SectionCards(n);
      } else {
        LooseNotRounded(n);
      }
      assert Rounded(BlockOut(n)) == [] && |Radii(CardsIn(n))| == 0;
      NothingTagged(k);
    }
  }

  lemma NothingTagged(k: nat)
    ensures TagsShow([], [], [], k) && Numbers(k, 0) == [] && Rounded([]) == []
  {
  }

  /** Each rounded section shows the radius of the card it came from, and the k-th of
      them came from the k-th authored card, for all k, if and only if every card's
      authored content stays whole. */
  lemma {:induction false} CardsTagged(ns: seq<Node>, k: nat)
    requires CardsPlaced(ns)
    ensures TagsShow(Rounded(Blocks(ns)), Tags(ns, k), Cards(ns), k)
    ensures Tags(ns, k) == Numbers(k, |Cards(ns)|) <==> CardsWhole(ns)
    decreases ns
  {
    hide TagsShow, Numbers, BlockOut, CardsIn, TagsIn, CardPlaced, CardWhole, Rounded;
    if ns == [] {
      NothingTagged(k);
    } else {
      var n, rest := ns[0], ns[1..];
      var here, later := CardsIn(n), Cards(rest);
      BlockTagged(n, k);
      CardsTagged(rest, k + |here|);
      RoundedConcat(BlockOut(n), Blocks(rest));
      TagsJoined(Rounded(BlockOut(n)), TagsIn(n, k), here, Rounded(Blocks(rest)), Tags(rest, k + |here|), later, k);
    }
  }

  /** The k-th rounded mj-section is the k-th authored card. */
  lemma CardsLineUp(ns: seq<Node>)
    requires CardsPlaced(ns) && CardsWhole(ns)
    ensures Rounded(Blocks(ns)) == Radii(Cards(ns))
  {
    CardsTagged(ns, 0);
  }

  /** Exactly when the k-th rounded section came from the k-th authored card, for all k.
      Each of them then finds its own card's shadow at its position in the list. */
  lemma CardsLineUpIff(ns: seq<Node>)
    requires CardsPlaced(ns)
    ensures Tags(ns, 0) == Numbers(0, |Cards(ns)|) <==> CardsWhole(ns)
    ensures CardsWhole(ns) ==>
              forall i :: 0 <= i < |Tags(ns, 0)| ==>
                  i < |Cards(ns)| && Shadows(Cards(ns))[i] == Cards(ns)[Tags(ns, 0)[i]].shadow
  {
    CardsTagged(ns, 0);
  }
}
