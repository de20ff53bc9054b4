/** What the template directives mean: when a guarded element renders, what a path
    finds, what a hole writes, what a slot and a repeater put where, and which layouts
    fail to bind. */
module BindRules {
  import opened Strings
  import opened Wrappers
  import opened Layout
  import opened Bind
  import Markup

  /* ---- looking values up ---- */

  predicate IsFirstField(fields: seq<Field>, name: string, i: nat) {
    i < |fields| && fields[i].name == name && forall j :: 0 <= j < i ==> fields[j].name != name
  }

  predicate HasField(fields: seq<Field>, name: string) {
    exists i :: 0 <= i < |fields| && fields[i].name == name
  }

  /** Following a path from object to object leads to w; a missing member, or a path
      through anything but an object, leads to null. */
  ghost predicate LeadsTo(v: Value, path: Path, w: Value)
    decreases path
  {
    if path == [] then w == v
    else if v.Obj? && HasField(v.fields, path[0]) then
      exists i: nat :: IsFirstField(v.fields, path[0], i) && LeadsTo(v.fields[i].value, path[1..], w)
    else LeadsTo(Null, path[1..], w)
  }

  lemma {:induction false} FieldFound(fields: seq<Field>, name: string)
    ensures HasField(fields, name) ==>
              exists i: nat :: IsFirstField(fields, name, i) && FieldOf(fields, name) == fields[i].value
    ensures !HasField(fields, name) ==> FieldOf(fields, name) == Null
  {
    if fields != [] && fields[0].name != name {
      FieldFound(fields[1..], name);
      if HasField(fields, name) {
        var k :| 0 <= k < |fields| && fields[k].name == name;
        assert fields[1..][k - 1].name == name;
        var i: nat :| IsFirstField(fields[1..], name, i) && FieldOf(fields[1..], name) == fields[1..][i].value;
        assert forall j :: 0 < j < i + 1 ==> fields[j] == fields[1..][j - 1];
        assert IsFirstField(fields, name, i + 1) && FieldOf(fields, name) == fields[i + 1].value;
      } else {
        assert forall j :: 0 <= j < |fields[1..]| ==> fields[1..][j] == fields[j + 1];
      }
    } else if fields != [] {
      assert IsFirstField(fields, name, 0);
    }
  }

  lemma {:induction false} NullLeadsNowhere(path: Path)
    ensures LookupFrom(Null, path) == Null && forall w :: LeadsTo(Null, path, w) <==> w == Null
  {
    if path != [] {
      NullLeadsNowhere(path[1..]);
    }
  }

  lemma {:induction false} PathLeads(v: Value, path: Path)
    ensures forall w :: LeadsTo(v, path, w) <==> w == LookupFrom(v, path)
    decreases path
  {
    if path != [] {
      if v.Obj? {
        FieldFound(v.fields, path[0]);
      }
      if v.Obj? && HasField(v.fields, path[0]) {
        var i: nat :| IsFirstField(v.fields, path[0], i) && FieldOf(v.fields, path[0]) == v.fields[i].value;
        assert forall j: nat :: IsFirstField(v.fields, path[0], j) ==> j == i;
        PathLeads(v.fields[i].value, path[1..]);
      } else {
        NullLeadsNowhere(path[1..]);
      }
    }
  }

  /** Lookup finds the one value the path leads to. */
  lemma LookupFollows(content: Content, path: Path, w: Value)
    ensures LeadsTo(Obj(content), path, w) <==> w == Lookup(content, path)
  {
    PathLeads(Obj(content), path);
  }

  /* ---- conditions ---- */

  // What an if= without a comparison turns down.
  predicate TurnedDown(v: Value) {
    || v == Null || v == Bool(false) || v == Num(0.0) || v == Arr([])
    || (v.Str? && forall i :: 0 <= i < |v.text| ==> IsSpace(v.text[i]))
  }

  // A value as text: nothing for null, itself for a string.
  predicate IsTextOf(env: Env, v: Value, t: string) {
    if v == Null then t == "" else if v.Str? then t == v.text else t == env.show(v)
  }

  // What a test asks of the value at its path.
  predicate Meets(env: Env, v: Value, t: Test) {
    if t.Present? then !TurnedDown(v) else IsTextOf(env, v, t.literal) == t.equal
  }

  /** A test holds of the value its path leads to. */
  ghost predicate Holds(env: Env, content: Content, t: Test) {
    exists v :: LeadsTo(Obj(content), t.path, v) && Meets(env, v, t)
  }

  lemma PassesMeans(env: Env, content: Content, t: Test)
    ensures Passes(env, content, t) <==> Holds(env, content, t)
  {
    var v := Lookup(content, t.path);
    LookupFollows(content, t.path, v);
    forall w ensures LeadsTo(Obj(content), t.path, w) <==> w == v {
      LookupFollows(content, t.path, w);
    }
  }

  function Unguarded(n: TNode): TNode
    requires n.TNode?
  {
    n.(ifTest := None, unlessTest := None)
  }

  ghost predicate Shown(env: Env, content: Content, n: TNode)
    requires n.TNode?
  {
    && (n.ifTest.Some? ==> Holds(env, content, n.ifTest.value))
    && (n.unlessTest.Some? ==> !Holds(env, content, n.unlessTest.value))
  }

  /** Without each=, a guarded node binds as if it had no guards when its if= holds and
      its unless= does not, and to nothing otherwise. */
  lemma GuardsDecide(env: Env, n: TNode, content: Content, blocks: seq<Block>)
    requires n.TNode? && n.each.None?
    ensures BindNode(env, n, content, blocks) ==
            if Shown(env, content, n) then BindNode(env, Unguarded(n), content, blocks) else Ok([])
  {
    if n.ifTest.Some? {
      PassesMeans(env, content, n.ifTest.value);
    }
    if n.unlessTest.Some? {
      PassesMeans(env, content, n.unlessTest.value);
    }
  }

  /** The same in a wrapper, where a repeated element is tested once against the content
      and then once per item. Only a body slot ignores its guards. */
  lemma WrapperGuardsDecide(env: Env, n: TNode, content: Content, body: seq<Node>)
    requires n.TNode? && !n.kind.BodySlot?
    ensures BindWrapperNode(env, n, content, body) ==
            if !Shown(env, content, n) then Ok([])
            else if n.each.None? then BindWrapperNode(env, Unguarded(n), content, body)
            else BindNode(env, n, content, [])
  {
    if n.ifTest.Some? {
      PassesMeans(env, content, n.ifTest.value);
    }
    if n.unlessTest.Some? {
      PassesMeans(env, content, n.unlessTest.value);
    }
  }

  // An element without guards renders, or fails.
  lemma ElementRenders(env: Env, n: TNode, content: Content, blocks: seq<Block>, body: seq<Node>)
    requires n.TNode? && n.kind.Tagged? && n.each.None? && n == Unguarded(n)
    ensures BindNode(env, n, content, blocks) != Ok([]) && BindWrapperNode(env, n, content, body) != Ok([])
  {
  }

  /** Of one element under if=t and under unless=t exactly one renders, as the element
      without guards would: the first if t holds, the second if not. */
  lemma IfOrUnless(env: Env, n: TNode, t: Test, content: Content, blocks: seq<Block>, body: seq<Node>)
    requires n.TNode? && n.kind.Tagged? && n.each.None? && n == Unguarded(n)
    ensures var onIf, onUnless := n.(ifTest := Some(t)), n.(unlessTest := Some(t));
            && (Holds(env, content, t) ==>
                  && BindNode(env, onIf, content, blocks) == BindNode(env, n, content, blocks) != Ok([])
                  && BindNode(env, onUnless, content, blocks) == Ok([])
                  && BindWrapperNode(env, onIf, content, body) == BindWrapperNode(env, n, content, body) != Ok([])
                  && BindWrapperNode(env, onUnless, content, body) == Ok([]))
            && (!Holds(env, content, t) ==>
                  && BindNode(env, onUnless, content, blocks) == BindNode(env, n, content, blocks) != Ok([])
                  && BindNode(env, onIf, content, blocks) == Ok([])
                  && BindWrapperNode(env, onUnless, content, body) == BindWrapperNode(env, n, content, body) != Ok([])
                  && BindWrapperNode(env, onIf, content, body) == Ok([]))
  {
    var onIf, onUnless := n.(ifTest := Some(t)), n.(unlessTest := Some(t));
    ElementRenders(env, n, content, blocks, body);
    assert Unguarded(onIf) == n && Unguarded(onUnless) == n;
    GuardsDecide(env, onIf, content, blocks);
    GuardsDecide(env, onUnless, content, blocks);
    WrapperGuardsDecide(env, onIf, content, body);
    WrapperGuardsDecide(env, onUnless, content, body);
  }

  /* ---- what a node becomes ---- */

  lemma Assoc<T>(a: seq<T>, b: seq<T>, c: seq<T>)
    ensures a + (b + c) == a + b + c
  {
  }

  lemma {:induction false} PiecesConcat(env: Env, content: Content, a: seq<Piece>, b: seq<Piece>)
    ensures BoundText(env, content, a + b) == BoundText(env, content, a) + BoundText(env, content, b)
  {
    if a == [] {
      assert a + b == b;
    } else {
      PiecesConcat(env, content, a[1..], b);
      assert (a + b)[0] == a[0] && (a + b)[1..] == a[1..] + b;
      var here := match a[0] case Lit(t) => t case Hole(path) => env.escape(TextAt(env, content, path));
      Assoc(here, BoundText(env, content, a[1..]), BoundText(env, content, b));
    }
  }

  /** Text stands as written, and a hole writes the text of its value, escaped; the text
      of a node is that of its pieces, one after the other. */
  lemma TextBinds(env: Env, content: Content, blocks: seq<Block>, lit: string, path: Path, v: Value, t: string,
                  a: seq<Piece>, b: seq<Piece>)
    requires LeadsTo(Obj(content), path, v) && IsTextOf(env, v, t)
    ensures BindNode(env, TText([Lit(lit)]), content, blocks) == Ok([Markup.Raw(lit)])
    ensures BindNode(env, TText([Hole(path)]), content, blocks) == Ok([Markup.Raw(env.escape(t))])
    ensures exists x, y :: && BindNode(env, TText(a), content, blocks) == Ok([Markup.Raw(x)])
                           && BindNode(env, TText(b), content, blocks) == Ok([Markup.Raw(y)])
                           && BindNode(env, TText(a + b), content, blocks) == Ok([Markup.Raw(x + y)])
  {
    LookupFollows(content, path, v);
    PiecesConcat(env, content, a, b);
    assert [Lit(lit)][1..] == [] && [Hole(path)][1..] == [];
    assert BoundText(env, content, [Lit(lit)]) == lit + "" == lit;
    assert BoundText(env, content, [Hole(path)]) == env.escape(t) + "" == env.escape(t);
    assert BindNode(env, TText(a), content, blocks) == Ok([Markup.Raw(BoundText(env, content, a))]);
    assert BindNode(env, TText(b), content, blocks) == Ok([Markup.Raw(BoundText(env, content, b))]);
  }

  /** A rich text field is emitted as it is, unescaped. */
  lemma RichTextBinds(env: Env, n: TNode, content: Content, blocks: seq<Block>, v: Value, t: string)
    requires n.TNode? && n.kind.RichTextField? && n.each.None? && n == Unguarded(n)
    requires LeadsTo(Obj(content), n.kind.path, v) && IsTextOf(env, v, t)
    ensures BindNode(env, n, content, blocks) == Ok([Markup.RichText(t, env.bindAttrs(n.attrs, content).style)])
  {
    LookupFollows(content, n.kind.path, v);
  }

  /** An element keeps its tag, its bound attributes and its bound children. */
  lemma ElementBinds(env: Env, n: TNode, content: Content, blocks: seq<Block>, kids: seq<Node>)
    requires n.TNode? && n.kind.Tagged? && n.each.None? && n == Unguarded(n)
    requires BindNodes(env, n.children, content, blocks) == Ok(kids)
    ensures BindNode(env, n, content, blocks) == Ok([Markup.El(n.kind.tag, env.bindAttrs(n.attrs, content), kids)])
  {
  }

  /** each= repeats elements only: on a slot or a rich text field it suspends the guards
      and does nothing else. */
  lemma EachRepeatsElementsOnly(env: Env, n: TNode, content: Content, blocks: seq<Block>)
    requires n.TNode? && !n.kind.Tagged? && n.each.Some?
    ensures BindNode(env, n, content, blocks) ==
            BindNode(env, n.(ifTest := None, unlessTest := None, each := None), content, blocks)
  {
  }

  /** Inside a block only the children slot renders anything. */
  lemma OtherSlotsAreEmpty(env: Env, n: TNode, content: Content, blocks: seq<Block>)
    requires n.TNode? && (n.kind.BodySlot? || n.kind.OtherSlot?)
    ensures BindNode(env, n, content, blocks) == Ok([])
  {
  }

  /* ---- repeaters and slots, in order ---- */

  function Concat(parts: seq<seq<Node>>): seq<Node> {
    if parts == [] then [] else Concat(parts[..|parts| - 1]) + parts[|parts| - 1]
  }

  /** The parts with the separator between consecutive ones. */
  function Joined(parts: seq<seq<Node>>, sep: seq<Node>): seq<Node> {
    if parts == [] then []
    else if |parts| == 1 then parts[0]
    else Joined(parts[..|parts| - 1], sep) + sep + parts[|parts| - 1]
  }

  lemma {:induction false} ObjectsConcat(a: seq<Value>, b: seq<Value>)
    ensures Objects(a + b) == Objects(a) + Objects(b)
  {
    if a == [] {
      assert a + b == b;
    } else {
      var here := if a[0].Obj? then [a[0].fields] else [];
      ObjectsConcat(a[1..], b);
      assert (a + b)[0] == a[0] && (a + b)[1..] == a[1..] + b;
      Assoc(here, Objects(a[1..]), Objects(b));
    }
  }

  // The items are what each of the array's objects holds, in array order.
  predicate AreItems(vs: seq<Value>, items: seq<Content>)
    decreases |vs|
  {
    if vs == [] then items == []
    else if vs[|vs| - 1].Obj? then
      items != [] && items[|items| - 1] == vs[|vs| - 1].fields && AreItems(vs[..|vs| - 1], items[..|items| - 1])
    else AreItems(vs[..|vs| - 1], items)
  }

  lemma {:induction false} ItemsAre(vs: seq<Value>)
    ensures AreItems(vs, Objects(vs))
    decreases |vs|
  {
    if vs != [] {
      var n := |vs| - 1;
      ItemsAre(vs[..n]);
      assert vs == vs[..n] + [vs[n]] && [vs[n]][1..] == [];
      ObjectsConcat(vs[..n], [vs[n]]);
      if vs[n].Obj? {
        assert Objects([vs[n]]) == [vs[n].fields];
        assert Objects(vs)[..|Objects(vs)| - 1] == Objects(vs[..n]);
      } else {
        assert Objects([vs[n]]) == [] && Objects(vs[..n]) + [] == Objects(vs[..n]);
      }
    }
  }

  lemma {:induction false} ConcatCons(first: seq<Node>, parts: seq<seq<Node>>)
    ensures Concat([first] + parts) == first + Concat(parts)
  {
    var all := [first] + parts;
    if parts == [] {
      assert all[..0] == [] && [] + first == first + [];
    } else {
      var n := |parts| - 1;
      ConcatCons(first, parts[..n]);
      assert all[..|all| - 1] == [first] + parts[..n];
      assert first + Concat(parts[..n]) + parts[n] == first + (Concat(parts[..n]) + parts[n]);
    }
  }

  /** Nodes bind in order, each to its own part, and one failing node fails them all. */
  lemma {:induction false} NodesInOrder(env: Env, ns: seq<TNode>, content: Content, blocks: seq<Block>,
                                        parts: seq<seq<Node>>)
    requires |parts| == |ns|
    ensures (forall i :: 0 <= i < |ns| ==> BindNode(env, ns[i], content, blocks) == Ok(parts[i])) ==>
              BindNodes(env, ns, content, blocks) == Ok(Concat(parts))
    ensures (exists i :: 0 <= i < |ns| && BindNode(env, ns[i], content, blocks).Err?) ==>
              BindNodes(env, ns, content, blocks).Err?
    decreases |ns|
  {
    if ns != [] {
      NodesInOrder(env, ns[1..], content, blocks, parts[1..]);
      ConcatCons(parts[0], parts[1..]);
      assert [parts[0]] + parts[1..] == parts;
      if i :| 0 < i < |ns| && BindNode(env, ns[i], content, blocks).Err? {
        assert ns[1..][i - 1] == ns[i];
      }
    }
  }

  lemma {:induction false} WrapperNodesInOrder(env: Env, ns: seq<TNode>, content: Content, body: seq<Node>,
                                               parts: seq<seq<Node>>)
    requires |parts| == |ns|
    requires forall i :: 0 <= i < |ns| ==> BindWrapperNode(env, ns[i], content, body) == Ok(parts[i])
    ensures BindWrapperNodes(env, ns, content, body) == Ok(Concat(parts))
    decreases |ns|
  {
    if ns != [] {
      WrapperNodesInOrder(env, ns[1..], content, body, parts[1..]);
      ConcatCons(parts[0], parts[1..]);
      assert [parts[0]] + parts[1..] == parts;
    }
  }

  lemma {:induction false} BlocksInOrder(env: Env, bs: seq<Block>, parts: seq<seq<Node>>)
    requires |parts| == |bs|
    requires forall i :: 0 <= i < |bs| ==> BindBlock(env, bs[i]) == Ok(parts[i])
    ensures BindBlocks(env, bs) == Ok(Concat(parts))
    decreases |bs|
  {
    if bs != [] {
      BlocksInOrder(env, bs[1..], parts[1..]);
      ConcatCons(parts[0], parts[1..]);
      assert [parts[0]] + parts[1..] == parts;
    }
  }

  /** In a wrapper an element keeps its tag and its children, bound with the body in
      reach; everything but elements and body slots binds as in a block without child
      blocks, and so does a repeated element that is shown. */
  lemma WrapperElementBinds(env: Env, n: TNode, content: Content, body: seq<Node>, parts: seq<seq<Node>>)
    requires n.TNode? && !n.kind.BodySlot? && n == Unguarded(n) && |parts| == |n.children|
    requires forall i :: 0 <= i < |parts| ==> BindWrapperNode(env, n.children[i], content, body) == Ok(parts[i])
    ensures BindWrapperNode(env, n, content, body) ==
            if n.kind.Tagged? && n.each.None? then
              Ok([Markup.El(n.kind.tag, env.bindAttrs(n.attrs, content), Concat(parts))])
            else BindNode(env, n, content, [])
  {
    WrapperNodesInOrder(env, n.children, content, body, parts);
  }

  /** A body slot takes the whole body, whatever its guards say, and then its own
      children. */
  lemma BodySlotTakesBody(env: Env, n: TNode, content: Content, body: seq<Node>, parts: seq<seq<Node>>)
    requires n.TNode? && n.kind.BodySlot? && |parts| == |n.children|
    requires forall i :: 0 <= i < |parts| ==> BindWrapperNode(env, n.children[i], content, body) == Ok(parts[i])
    ensures BindWrapperNode(env, n, content, body) == Ok(body + Concat(parts))
  {
    WrapperNodesInOrder(env, n.children, content, body, parts);
  }

  /** A block renders its own template against its own content and child blocks. */
  lemma BlockRendersTemplate(env: Env, b: Block, parts: seq<seq<Node>>)
    requires b.blockType in env.templates && |parts| == |env.templates[b.blockType]|
    requires forall i :: 0 <= i < |parts| ==>
               BindNode(env, env.templates[b.blockType][i], b.content, b.blocks) == Ok(parts[i])
    ensures BindBlock(env, b) == Ok(Concat(parts))
  {
    NodesInOrder(env, env.templates[b.blockType], b.content, b.blocks, parts);
  }

  /** A repeated element: one clone per item of the array, in order, each bound against
      its item and under its own guards. */
  lemma {:induction false} EachRepeats(env: Env, n: TNode, items: seq<Content>, blocks: seq<Block>, parts: seq<seq<Node>>)
    requires n.TNode? && |parts| == |items|
    requires forall i :: 0 <= i < |items| ==> BindNode(env, n.(each := None), items[i], blocks) == Ok(parts[i])
    ensures BindEach(env, n, items, blocks) == Ok(Concat(parts))
    decreases |items|
  {
    if items != [] {
      EachRepeats(env, n, items[1..], blocks, parts[1..]);
      ConcatCons(parts[0], parts[1..]);
      assert [parts[0]] + parts[1..] == parts;
    }
  }

  lemma EachFindsItems(env: Env, n: TNode, content: Content, blocks: seq<Block>, v: Value)
    requires n.TNode? && n.kind.Tagged? && n.each.Some? && LeadsTo(Obj(content), n.each.value, v)
    ensures !v.Arr? ==> BindNode(env, n, content, blocks) == Ok([])
    ensures v.Arr? ==>
              exists items :: && AreItems(v.items, items)
                              && BindNode(env, n, content, blocks) == BindEach(env, n, items, blocks)
  {
    LookupFollows(content, n.each.value, v);
    if v.Arr? {
      ItemsAre(v.items);
    }
  }

  lemma {:induction false} JoinedCons(first: seq<Node>, parts: seq<seq<Node>>, sep: seq<Node>)
    requires parts != []
    ensures Joined([first] + parts, sep) == first + (sep + Joined(parts, sep))
    decreases |parts|
  {
    var all := [first] + parts;
    var n := |parts| - 1;
    assert all[..|all| - 1] == [first] + parts[..n];
    if n == 0 {
      assert parts[..0] == [] && first + sep + parts[0] == first + (sep + parts[0]);
    } else {
      JoinedCons(first, parts[..n], sep);
      var rest := Joined(parts[..n], sep);
      assert first + (sep + rest) + sep + parts[n] == first + (sep + (rest + sep + parts[n]));
    }
  }

  lemma {:induction false} SlotFrom(env: Env, sep: seq<TNode>, content: Content, blocks: seq<Block>, rest: seq<Block>,
                                    gap: seq<Node>, parts: seq<seq<Node>>)
    requires BlockCount(rest) <= BlockCount(blocks) && |rest| <= |blocks| && |parts| == |rest|
    requires BindNodes(env, sep, content, blocks) == Ok(gap)
    requires forall i :: 0 <= i < |rest| ==> BindBlock(env, rest[i]) == Ok(parts[i])
    ensures BindSlot(env, sep, content, blocks, rest, true) == Ok(Joined(parts, gap))
    ensures BindSlot(env, sep, content, blocks, rest, false) == Ok(if rest == [] then [] else gap + Joined(parts, gap))
    decreases |rest|
  {
    if rest != [] {
      SlotFrom(env, sep, content, blocks, rest[1..], gap, parts[1..]);
      assert parts == [parts[0]] + parts[1..];
      var last := BindSlot(env, sep, content, blocks, rest[1..], false);
      BothEmpty(Both(Ok(parts[0]), last));
      if |rest| > 1 {
        JoinedCons(parts[0], parts[1..], gap);
      } else {
        assert last == Ok([]) && parts[0] + [] == parts[0];
      }
    }
  }

  /** A children slot: the child blocks in order, the separator between consecutive ones
      and nowhere else. */
  lemma SlotJoins(env: Env, n: TNode, content: Content, blocks: seq<Block>, gap: seq<Node>, parts: seq<seq<Node>>)
    requires n.TNode? && n.kind.ChildrenSlot? && n.each.None? && n == Unguarded(n) && |parts| == |blocks|
    requires BindNodes(env, SeparatorOf(n.children), content, blocks) == Ok(gap)
    requires forall i :: 0 <= i < |blocks| ==> BindBlock(env, blocks[i]) == Ok(parts[i])
    ensures BindNode(env, n, content, blocks) == Ok(Joined(parts, gap))
  {
    SlotFrom(env, SeparatorOf(n.children), content, blocks, blocks, gap, parts);
  }

  /** The separator is the content of the slot's first separator element. */
  lemma {:induction false} SeparatorIsFirst(before: seq<TNode>, sep: TNode, after: seq<TNode>)
    requires forall i :: 0 <= i < |before| ==> !IsSeparator(before[i])
    requires sep.TNode? && sep.kind == Tagged(Markup.Unknown("separator"))
    ensures SeparatorOf(before) == [] && SeparatorOf(before + [sep] + after) == sep.children
  {
    var all := before + [sep] + after;
    if before == [] {
      assert all[0] == sep;
    } else {
      assert all[0] == before[0] && all[1..] == before[1..] + [sep] + after;
      SeparatorIsFirst(before[1..], sep, after);
    }
  }

  /* ---- when binding fails ---- */

  predicate Mentions(b: Block, blockType: string) {
    b.blockType == blockType || AnyMentions(b.blocks, blockType)
  }

  predicate AnyMentions(bs: seq<Block>, blockType: string) {
    bs != [] && (Mentions(bs[0], blockType) || AnyMentions(bs[1..], blockType))
  }

  // A failure names a block type that is in the layout and has no template.
  ghost predicate Explained(env: Env, r: Bound, blocks: seq<Block>) {
    r.Err? ==> r.error.blockType !in env.templates && AnyMentions(blocks, r.error.blockType)
  }

  lemma {:induction false} NodesFail(env: Env, ns: seq<TNode>, content: Content, blocks: seq<Block>)
    ensures Explained(env, BindNodes(env, ns, content, blocks), blocks)
    decreases BlockCount(blocks), Weights(ns), |blocks| + 4, 0
  {
    if ns != [] {
      NodeFails(env, ns[0], content, blocks);
      NodesFail(env, ns[1..], content, blocks);
    }
  }

  lemma {:induction false} NodeFails(env: Env, n: TNode, content: Content, blocks: seq<Block>)
    ensures Explained(env, BindNode(env, n, content, blocks), blocks)
    decreases BlockCount(blocks), Weight(n), |blocks| + (if n.TNode? && n.each.Some? then 3 else 1), 0
  {
    if n.TNode? {
      if n.kind.ChildrenSlot? {
        SlotFails(env, SeparatorOf(n.children), content, blocks, blocks, true);
      } else if n.kind.Tagged? {
        if n.each.Some? {
          EachFails(env, n, ItemsAt(content, n.each.value), blocks);
        } else {
          NodesFail(env, n.children, content, blocks);
        }
      }
    }
  }

  lemma {:induction false} EachFails(env: Env, n: TNode, items: seq<Content>, blocks: seq<Block>)
    requires n.TNode?
    ensures Explained(env, BindEach(env, n, items, blocks), blocks)
    decreases BlockCount(blocks), Weight(n), |blocks| + 2, |items|
  {
    if items != [] {
      NodeFails(env, n.(each := None), items[0], blocks);
      EachFails(env, n, items[1..], blocks);
    }
  }

  lemma {:induction false} SlotFails(env: Env, sep: seq<TNode>, content: Content, blocks: seq<Block>,
                                     rest: seq<Block>, first: bool)
    requires BlockCount(rest) <= BlockCount(blocks) && |rest| <= |blocks|
    requires forall t :: AnyMentions(rest, t) ==> AnyMentions(blocks, t)
    ensures Explained(env, BindSlot(env, sep, content, blocks, rest, first), blocks)
    decreases BlockCount(blocks), 1 + Weights(sep), |rest|, 0
  {
    if rest != [] {
      if !first {
        NodesFail(env, sep, content, blocks);
      }
      BlockFails(env, rest[0]);
      SlotFails(env, sep, content, blocks, rest[1..], false);
    }
  }

  lemma {:induction false} BlockFails(env: Env, b: Block)
    ensures var r := BindBlock(env, b); r.Err? ==> r.error.blockType !in env.templates && Mentions(b, r.error.blockType)
    decreases 1 + BlockCount(b.blocks), 0, 0, 0
  {
    if b.blockType in env.templates {
      NodesFail(env, env.templates[b.blockType], b.content, b.blocks);
    }
  }

  /** A layout fails to bind only over a block type that it names and that has no
      template; at the top level every such block fails it. */
  lemma {:induction false} BlocksFail(env: Env, bs: seq<Block>)
    ensures var r := BindBlocks(env, bs);
            r.Err? ==> r.error.blockType !in env.templates && AnyMentions(bs, r.error.blockType)
    ensures (exists i :: 0 <= i < |bs| && bs[i].blockType !in env.templates) ==> BindBlocks(env, bs).Err?
  {
    if bs != [] {
      BlockFails(env, bs[0]);
      BlocksFail(env, bs[1..]);
      if i :| 0 <= i < |bs| && bs[i].blockType !in env.templates {
        if i > 0 {
          assert bs[1..][i - 1] == bs[i];
        }
      }
    }
  }
}
