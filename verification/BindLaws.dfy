/** How much a layout can expand into: an accepted layout binds to a number of nodes
    linear in its blocks and array items. */
module BindLaws {
  import opened Wrappers
  import opened Layout
  import opened Bind
  import Markup

  // Elements, text and richtext nodes of a bound tree.
  function Total(ns: seq<Node>): nat {
    if ns == [] then 0 else 1 + (if ns[0].El? then Total(ns[0].children) else 0) + Total(ns[1..])
  }

  function Size(b: Bound): nat {
    if b.Ok? then Total(b.value) else 0
  }

  lemma {:induction false} TotalConcat(a: seq<Node>, b: seq<Node>)
    ensures Total(a + b) == Total(a) + Total(b)
  {
    if a == [] {
      assert a + b == b;
    } else {
      TotalConcat(a[1..], b);
      assert (a + b)[0] == a[0] && (a + b)[1..] == a[1..] + b;
    }
  }

  lemma BothSize(a: Bound, b: Bound)
    ensures Size(Both(a, b)) <= Size(a) + Size(b)
  {
    if a.Ok? && b.Ok? {
      TotalConcat(a.value, b.value);
    }
  }

  lemma ElementSize(env: Env, n: TNode, content: Content, blocks: seq<Block>)
    requires n.TNode? && n.kind.Tagged? && n.each.None?
    ensures Size(BindNode(env, n, content, blocks)) <= 1 + Size(BindNodes(env, n.children, content, blocks))
  {
    var kids := BindNodes(env, n.children, content, blocks);
    if ConditionsHold(env, content, n) && kids.Ok? {
      var el := Markup.El(n.kind.tag, env.bindAttrs(n.attrs, content), kids.value);
      assert BindNode(env, n, content, blocks) == Ok([el]);
      var one: seq<Node> := [el];
      assert one[1..] == [];
      assert Total(one) == 1 + Total(kids.value);
      assert Size(BindNode(env, n, content, blocks)) == Total(one);
    }
  }

  lemma LeafSize(env: Env, n: TNode, content: Content, blocks: seq<Block>)
    requires n.TText? || n.kind.BodySlot? || n.kind.OtherSlot? || n.kind.RichTextField?
    ensures Size(BindNode(env, n, content, blocks)) <= 1
  {
    var r := BindNode(env, n, content, blocks);
    if r.value != [] {
      var leaf := r.value[0];
      assert r.value == [leaf] && !leaf.El?;
      assert Total([leaf]) == 1 + Total([leaf][1..]);
      assert [leaf][1..] == [];
    }
  }

  /* ---- the shapes of template the bound is for ---- */

  function SlotsIn(n: TNode): nat {
    match n
    case TText(_) => 0
    case TNode(kind, _, _, _, _, children) => (if kind.ChildrenSlot? then 1 else 0) + Slots(children)
  }

  function Slots(ns: seq<TNode>): nat {
    if ns == [] then 0 else SlotsIn(ns[0]) + Slots(ns[1..])
  }

  predicate NoEach(ns: seq<TNode>) {
    ns == [] || ((ns[0].TNode? ==> ns[0].each.None? && NoEach(ns[0].children)) && NoEach(ns[1..]))
  }

  predicate PlainSlots(ns: seq<TNode>) {
    ns == [] ||
    ((ns[0].TNode? ==>
        && (ns[0].kind.ChildrenSlot? ==> NoEach(SeparatorOf(ns[0].children)))
        && (!ns[0].kind.ChildrenSlot? && ns[0].each.Some? ==> Slots(ns[0].children) == 0)
        && PlainSlots(ns[0].children))
     && PlainSlots(ns[1..]))
  }

  /** At most one children slot, outside every each=, with no each= in its separator. */
  predicate OneSlot(ns: seq<TNode>) {
    Slots(ns) <= 1 && PlainSlots(ns)
  }

  predicate Bounded(env: Env, t: nat) {
    forall name :: name in env.templates ==> OneSlot(env.templates[name]) && Weights(env.templates[name]) <= t
  }

  /* ---- items ---- */

  lemma {:induction false} FieldItems(fields: seq<Field>, name: string)
    ensures Items(FieldOf(fields, name)) <= ItemsIn(fields)
  {
    if fields != [] && fields[0].name != name {
      FieldItems(fields[1..], name);
    }
  }

  lemma {:induction false} LookupItems(v: Value, path: Path)
    ensures Items(LookupFrom(v, path)) <= Items(v)
    decreases path
  {
    if path != [] && v.Obj? {
      FieldItems(v.fields, path[0]);
      LookupItems(FieldOf(v.fields, path[0]), path[1..]);
    }
  }

  // Each object repeated over, and everything in it, is paid for by the array.
  function Cost(items: seq<Content>): nat {
    if items == [] then 0 else 1 + ItemsIn(items[0]) + Cost(items[1..])
  }

  lemma {:induction false} ObjectsCost(vs: seq<Value>)
    ensures Cost(Objects(vs)) <= |vs| + ItemsAll(vs)
  {
    if vs != [] {
      ObjectsCost(vs[1..]);
      assert vs[0].Obj? ==> Objects(vs)[1..] == Objects(vs[1..]);
      assert !vs[0].Obj? ==> Objects(vs) == Objects(vs[1..]);
    }
  }

  lemma EachCost(content: Content, path: Path)
    ensures Cost(ItemsAt(content, path)) <= ItemsIn(content)
  {
    LookupItems(Obj(content), path);
    var v := Lookup(content, path);
    if v.Arr? {
      ObjectsCost(v.items);
    }
  }

  /* ---- templates without a slot ---- */

  lemma Grow(a: nat, b: nat, k: nat)
    ensures (a + b) * k == a * k + b * k
    ensures k >= 1 ==> a <= a * k
  {
  }

  lemma {:induction false} SlotlessNode(env: Env, n: TNode, content: Content, blocks: seq<Block>)
    requires SlotsIn(n) == 0
    ensures Size(BindNode(env, n, content, blocks)) <= Weight(n) * (1 + ItemsIn(content))
    decreases Weight(n), if n.TNode? && n.each.Some? then 2 else 0, 0
  {
    var k := 1 + ItemsIn(content);
    match n {
      case TText(_) => LeafSize(env, n, content, blocks);
      case TNode(kind, _, _, each, attrs, children) =>
        Grow(1, Weights(children), k);
        assert Weight(n) * k == k + Weights(children) * k;
        if kind.Tagged? {
          if each.Some? {
            EachCost(content, each.value);
            Repeated(env, n, ItemsAt(content, each.value), blocks);
            Fits(Weight(n), Cost(ItemsAt(content, each.value)), k);
          } else {
            SlotlessNodes(env, children, content, blocks);
            ElementSize(env, n, content, blocks);
          }
        } else {
          LeafSize(env, n, content, blocks);
        }
    }
  }

  lemma Spread(w: nat, a: nat, b: nat)
    ensures w * (a + b) == w * a + w * b
  {
  }

  lemma Fits(w: nat, cost: nat, k: nat)
    requires cost <= k
    ensures w * cost <= w * k
  {
  }

  lemma {:induction false} Repeated(env: Env, n: TNode, items: seq<Content>, blocks: seq<Block>)
    requires n.TNode? && n.each.Some? && SlotsIn(n) == 0
    ensures Size(BindEach(env, n, items, blocks)) <= Weight(n) * Cost(items)
    decreases Weight(n), 1, |items|
  {
    if items != [] {
      var clone := n.(each := None);
      SlotlessNode(env, clone, items[0], blocks);
      Repeated(env, n, items[1..], blocks);
      BothSize(BindNode(env, clone, items[0], blocks), BindEach(env, n, items[1..], blocks));
      Spread(Weight(n), 1 + ItemsIn(items[0]), Cost(items[1..]));
    }
  }

  lemma {:induction false} SlotlessNodes(env: Env, ns: seq<TNode>, content: Content, blocks: seq<Block>)
    requires Slots(ns) == 0
    ensures Size(BindNodes(env, ns, content, blocks)) <= Weights(ns) * (1 + ItemsIn(content))
    decreases Weights(ns), 3, |ns|
  {
    if ns != [] {
      SlotlessNode(env, ns[0], content, blocks);
      SlotlessNodes(env, ns[1..], content, blocks);
      BothSize(BindNode(env, ns[0], content, blocks), BindNodes(env, ns[1..], content, blocks));
      Grow(Weight(ns[0]), Weights(ns[1..]), 1 + ItemsIn(content));
    }
  }

  // Without repeaters a template yields at most its own nodes.
  lemma {:induction false} Unrepeated(env: Env, ns: seq<TNode>, content: Content, blocks: seq<Block>)
    requires Slots(ns) == 0 && NoEach(ns)
    ensures Size(BindNodes(env, ns, content, blocks)) <= Weights(ns)
    decreases Weights(ns), |ns|
  {
    if ns != [] {
      Unrepeated(env, ns[1..], content, blocks);
      BothSize(BindNode(env, ns[0], content, blocks), BindNodes(env, ns[1..], content, blocks));
      if ns[0].TNode? && ns[0].kind.Tagged? {
        Unrepeated(env, ns[0].children, content, blocks);
      }
    }
  }

  /* ---- templates with a slot ---- */

  /** What a run of blocks may expand to, t the largest template. */
  function Budget(t: nat, bs: seq<Block>): nat {
    t * (2 * BlockCount(bs) + ContentItems(bs))
  }

  lemma BudgetSplit(t: nat, bs: seq<Block>)
    requires bs != []
    ensures Budget(t, bs) == t + t * (1 + ItemsIn(bs[0].content)) + Budget(t, bs[0].blocks) + Budget(t, bs[1..])
  {
    var a, b, c := 1 + ItemsIn(bs[0].content), 2 * BlockCount(bs[0].blocks) + ContentItems(bs[0].blocks),
        2 * BlockCount(bs[1..]) + ContentItems(bs[1..]);
    assert 2 * BlockCount(bs) + ContentItems(bs) == 1 + a + b + c;
    assert t * (1 + a + b + c) == t + t * a + t * b + t * c;
  }

  lemma {:induction false} SeparatorShape(ns: seq<TNode>)
    ensures Slots(SeparatorOf(ns)) <= Slots(ns)
  {
    if ns != [] && !IsSeparator(ns[0]) {
      SeparatorShape(ns[1..]);
    }
  }

  lemma {:induction false} BlockFits(env: Env, t: nat, b: Block)
    requires Bounded(env, t)
    ensures Size(BindBlock(env, b)) <= t * (1 + ItemsIn(b.content)) + Budget(t, b.blocks)
    decreases 1 + BlockCount(b.blocks), 0, 0
  {
    if b.blockType in env.templates {
      var ns := env.templates[b.blockType];
      NodesFit(env, t, ns, b.content, b.blocks);
      Grow(Weights(ns), t - Weights(ns), 1 + ItemsIn(b.content));
    }
  }

  lemma {:induction false} SlotFits(env: Env, t: nat, sep: seq<TNode>, content: Content, blocks: seq<Block>,
                                    rest: seq<Block>, first: bool)
    requires Bounded(env, t) && Slots(sep) == 0 && NoEach(sep) && Weights(sep) <= t
    requires BlockCount(rest) <= BlockCount(blocks) && |rest| <= |blocks|
    ensures Size(BindSlot(env, sep, content, blocks, rest, first)) <= Budget(t, rest)
    decreases BlockCount(blocks), 1 + Weights(sep), |rest|
  {
    if rest != [] {
      BudgetSplit(t, rest);
      Unrepeated(env, sep, content, blocks);
      BlockFits(env, t, rest[0]);
      SlotFits(env, t, sep, content, blocks, rest[1..], false);
      var gap := if first then Ok([]) else BindNodes(env, sep, content, blocks);
      var more := BindSlot(env, sep, content, blocks, rest[1..], false);
      BothSize(BindBlock(env, rest[0]), more);
      BothSize(gap, Both(BindBlock(env, rest[0]), more));
    }
  }

  lemma {:induction false} NodeFits(env: Env, t: nat, n: TNode, content: Content, blocks: seq<Block>)
    requires Bounded(env, t) && OneSlot([n]) && Weight(n) <= t && SlotsIn(n) == 1
    ensures Size(BindNode(env, n, content, blocks)) <= Weight(n) * (1 + ItemsIn(content)) + Budget(t, blocks)
    decreases BlockCount(blocks), Weight(n), |blocks| + 1
  {
    assert [n][0] == n;
    var children := n.children;
    if n.kind.ChildrenSlot? {
      SeparatorShape(children);
      SlotFits(env, t, SeparatorOf(children), content, blocks, blocks, true);
    } else if n.kind.Tagged? {
      NodesFit(env, t, children, content, blocks);
      Grow(1, Weights(children), 1 + ItemsIn(content));
      ElementSize(env, n, content, blocks);
    } else {
      LeafSize(env, n, content, blocks);
      Grow(1, Weights(children), 1 + ItemsIn(content));
    }
  }

  /** A template's own nodes, repeated at most once per item, and its children's share. */
  lemma {:induction false} NodesFit(env: Env, t: nat, ns: seq<TNode>, content: Content, blocks: seq<Block>)
    requires Bounded(env, t) && OneSlot(ns) && Weights(ns) <= t
    ensures Size(BindNodes(env, ns, content, blocks)) <=
            Weights(ns) * (1 + ItemsIn(content)) + if Slots(ns) == 1 then Budget(t, blocks) else 0
    decreases BlockCount(blocks), Weights(ns), |blocks| + 2, |ns|
  {
    if Slots(ns) == 0 {
      SlotlessNodes(env, ns, content, blocks);
    } else {
      BothSize(BindNode(env, ns[0], content, blocks), BindNodes(env, ns[1..], content, blocks));
      Grow(Weight(ns[0]), Weights(ns[1..]), 1 + ItemsIn(content));
      NodesFit(env, t, ns[1..], content, blocks);
      if SlotsIn(ns[0]) == 1 {
        assert [ns[0]][1..] == [];
        NodeFits(env, t, ns[0], content, blocks);
      } else {
        SlotlessNode(env, ns[0], content, blocks);
      }
    }
  }

  lemma {:induction false} BlocksFit(env: Env, t: nat, bs: seq<Block>)
    requires Bounded(env, t)
    ensures Size(BindBlocks(env, bs)) <= Budget(t, bs)
  {
    if bs != [] {
      BudgetSplit(t, bs);
      BlockFits(env, t, bs[0]);
      BlocksFit(env, t, bs[1..]);
      BothSize(BindBlock(env, bs[0]), BindBlocks(env, bs[1..]));
    }
  }

  /** An accepted layout expands to at most t * (2 * blocks + items) nodes, and so to
      at most 4000 times the largest template. */
  lemma AcceptedLayoutsStaySmall(env: Env, t: nat, bs: seq<Block>)
    requires Bounded(env, t) && WithinBounds(bs)
    ensures Size(BindBlocks(env, bs)) <= t * (2 * BlockCount(bs) + ContentItems(bs)) <= 4000 * t
  {
    BlocksFit(env, t, bs);
    Fits(t, 2 * BlockCount(bs) + ContentItems(bs), 4000);
  }

  /* ---- why one slot ---- */

  // A template that renders its children twice, and a chain of such blocks.
  const SLOT := TNode(ChildrenSlot, None, None, None, map[], [])
  const TWO_SLOTS := [TText([]), SLOT, SLOT]

  function Chain(d: nat): seq<Block> {
    if d == 0 then [] else [Block("twice", [], Chain(d - 1))]
  }

  function Power(d: nat): nat {
    if d == 0 then 1 else 2 * Power(d - 1)
  }

  lemma SlotOfOne(env: Env, content: Content, blocks: seq<Block>)
    requires |blocks| <= 1
    ensures BindNode(env, SLOT, content, blocks) == BindBlocks(env, blocks)
  {
    var sep := SeparatorOf(SLOT.children);
    assert BindNode(env, SLOT, content, blocks) == BindSlot(env, sep, content, blocks, blocks, true);
    if blocks != [] {
      assert blocks[1..] == [];
      var one := Both(BindBlock(env, blocks[0]), Ok([]));
      BothEmpty(one);
      assert BindSlot(env, sep, content, blocks, blocks[1..], false) == Ok([]);
      assert BindSlot(env, sep, content, blocks, blocks, true) == Both(Ok([]), one);
    }
  }

  /** With two slots in a template the expansion doubles at every level: sixteen blocks,
      well within the limits, bind to 65535 nodes. */
  lemma {:induction false} TwoSlotsDouble(env: Env, d: nat)
    requires "twice" in env.templates && env.templates["twice"] == TWO_SLOTS
    ensures BlockCount(Chain(d)) == d && Depth(Chain(d)) == d && ContentItems(Chain(d)) == 0
    ensures BindBlocks(env, Chain(d)).Ok? && Size(BindBlocks(env, Chain(d))) == Power(d) - 1
  {
    if d > 0 {
      TwoSlotsDouble(env, d - 1);
      var kids, b := Chain(d - 1), Chain(d)[0];
      assert Chain(d)[1..] == [];
      SlotOfOne(env, [], kids);
      var once := BindBlocks(env, kids);
      assert TWO_SLOTS[1..] == [SLOT, SLOT] && TWO_SLOTS[1..][1..] == [SLOT] && [SLOT][1..] == [];
      var text: seq<Node> := [Markup.Raw("")];
      assert text[1..] == [];
      assert BindNode(env, TText([]), [], kids) == Ok(text);
      assert BindNodes(env, [SLOT], [], kids) == Both(once, Ok([]));
      assert BindNodes(env, [SLOT, SLOT], [], kids) == Both(once, Both(once, Ok([])));
      assert BindNodes(env, TWO_SLOTS, [], kids) == Both(Ok(text), Both(once, Both(once, Ok([]))));
      TotalConcat(once.value, []);
      TotalConcat(once.value, once.value + []);
      TotalConcat(text, once.value + (once.value + []));
      TotalConcat(BindBlock(env, b).value, []);
    }
  }

  /* ---- the wrapper ---- */

  // The body slots binding reaches: those under no each= and under no element whose
  // guards fail.
  function ReachedIn(env: Env, n: TNode, content: Content): nat {
    if n.TText? then 0
    else if n.kind.BodySlot? then 1 + Reached(env, n.children, content)
    else if !ConditionsHold(env, content, n) || !n.kind.Tagged? || n.each.Some? then 0
    else Reached(env, n.children, content)
  }

  function Reached(env: Env, ns: seq<TNode>, content: Content): nat {
    if ns == [] then 0 else ReachedIn(env, ns[0], content) + Reached(env, ns[1..], content)
  }

  lemma BothSizes(a: Bound, b: Bound)
    requires a.Ok? && b.Ok?
    ensures Both(a, b).Ok? && Size(Both(a, b)) == Size(a) + Size(b)
  {
    TotalConcat(a.value, b.value);
  }

  lemma ElementTotal(tag: Markup.Tag, attrs: Markup.Attrs, kids: seq<Node>)
    ensures Size(Ok([Markup.El(tag, attrs, kids)])) == 1 + Total(kids)
  {
    var one: seq<Node> := [Markup.El(tag, attrs, kids)];
    assert one[1..] == [];
    assert Total(one) == 1 + Total(kids);
  }

  lemma {:induction false} NodeCopies(env: Env, n: TNode, content: Content, body: seq<Node>)
    ensures BindWrapperNode(env, n, content, body).Ok? <==> BindWrapperNode(env, n, content, []).Ok?
    ensures BindWrapperNode(env, n, content, body).Ok? ==>
              Size(BindWrapperNode(env, n, content, body)) ==
              Size(BindWrapperNode(env, n, content, [])) + ReachedIn(env, n, content) * Total(body)
    decreases n, 0
  {
    if n.TNode? && (n.kind.BodySlot? || (ConditionsHold(env, content, n) && n.kind.Tagged? && n.each.None?)) {
      BodyCopies(env, n.children, content, body);
      var full, bare := BindWrapperNodes(env, n.children, content, body), BindWrapperNodes(env, n.children, content, []);
      if full.Ok? {
        if n.kind.BodySlot? {
          BothSizes(Ok(body), full);
          BothSizes(Ok([]), bare);
          Grow(1, Reached(env, n.children, content), Total(body));
        } else {
          ElementTotal(n.kind.tag, env.bindAttrs(n.attrs, content), full.value);
          ElementTotal(n.kind.tag, env.bindAttrs(n.attrs, content), bare.value);
        }
      }
    }
  }

  /** Splicing the body into the wrapper adds the nodes of one whole body for every body
      slot that is reached, and no others. */
  lemma {:induction false} BodyCopies(env: Env, ns: seq<TNode>, content: Content, body: seq<Node>)
    ensures BindWrapperNodes(env, ns, content, body).Ok? <==> BindWrapperNodes(env, ns, content, []).Ok?
    ensures BindWrapperNodes(env, ns, content, body).Ok? ==>
              Size(BindWrapperNodes(env, ns, content, body)) ==
              Size(BindWrapperNodes(env, ns, content, [])) + Reached(env, ns, content) * Total(body)
    decreases ns, 1
  {
    if ns != [] {
      NodeCopies(env, ns[0], content, body);
      BodyCopies(env, ns[1..], content, body);
      var a, b := BindWrapperNode(env, ns[0], content, body), BindWrapperNodes(env, ns[1..], content, body);
      if a.Ok? && b.Ok? {
        BothSizes(a, b);
        BothSizes(BindWrapperNode(env, ns[0], content, []), BindWrapperNodes(env, ns[1..], content, []));
        Grow(ReachedIn(env, ns[0], content), Reached(env, ns[1..], content), Total(body));
      }
    }
  }
}
