/** Binding templates to a block tree: conditions, repeaters, slots and separators.
    The functions are total, which is the proof that binding terminates. */
module Bind {
  import opened Strings
  import opened Wrappers
  import opened Layout
  import Markup

  type Path = seq<string>
  type Content = seq<Field>
  type Node = Markup.Node

  datatype Piece = Lit(text: string) | Hole(path: Path)

  type TemplateAttrs = map<string, seq<Piece>>

  /** An if= or unless= expression. */
  datatype Test = Present(path: Path) | Compare(path: Path, literal: string, equal: bool)

  datatype Kind = ChildrenSlot | BodySlot | OtherSlot | RichTextField(path: Path) | Tagged(tag: Markup.Tag)

  /** A parsed template node. */
  datatype TNode =
    | TText(pieces: seq<Piece>)
    | TNode(kind: Kind, ifTest: Option<Test>, unlessTest: Option<Test>, each: Option<Path>,
            attrs: TemplateAttrs, children: seq<TNode>)

  datatype BindError = UnknownBlock(blockType: string)

  type Bound = Result<seq<Node>, BindError>

  /** The templates, and the string work the binder leaves to the library: the text of
      a scalar, HTML escaping, attribute substitution with its URL checks. */
  datatype Env = Env(
    templates: map<string, seq<TNode>>,
    show: Value -> string,
    escape: string -> string,
    bindAttrs: (TemplateAttrs, Content) -> Markup.Attrs)

  /* ---- looking values up ---- */

  function FieldOf(fields: seq<Field>, name: string): Value {
    if fields == [] then Null
    else if fields[0].name == name then fields[0].value
    else FieldOf(fields[1..], name)
  }

  function LookupFrom(v: Value, path: Path): Value
    decreases path
  {
    if path == [] then v
    else if v.Obj? then LookupFrom(FieldOf(v.fields, path[0]), path[1..])
    else Null
  }

  function Lookup(content: Content, path: Path): Value {
    LookupFrom(Obj(content), path)
  }

  function Objects(vs: seq<Value>): seq<Content> {
    if vs == [] then [] else (if vs[0].Obj? then [vs[0].fields] else []) + Objects(vs[1..])
  }

  // The objects an each= repeats over; anything else in the array is skipped.
  function ItemsAt(content: Content, path: Path): seq<Content> {
    var v := Lookup(content, path);
    if v.Arr? then Objects(v.items) else []
  }

  method LookupSlice(content: Content, path: Path) returns (out: seq<Content>)
    ensures out == ItemsAt(content, path)
  {
    var v := Lookup(content, path);
    out := [];
    if v.Arr? {
      for i := 0 to |v.items|
        invariant out + Objects(v.items[i..]) == Objects(v.items)
      {
        assert v.items[i..][1..] == v.items[i + 1..];
        if v.items[i].Obj? {
          out := out + [v.items[i].fields];
        }
      }
      assert v.items[|v.items|..] == [];
    }
  }

  function TextAt(env: Env, content: Content, path: Path): string {
    match Lookup(content, path)
    case Null => ""
    case Str(t) => t
    case v => env.show(v)
  }

  predicate Truthy(v: Value) {
    match v
    case Null => false
    case Str(t) => !IsBlank(t)
    case Num(x) => x != 0.0
    case Bool(on) => on
    case Arr(items) => items != []
    case Obj(_) => true
  }

  predicate Passes(env: Env, content: Content, t: Test) {
    match t
    case Present(path) => Truthy(Lookup(content, path))
    case Compare(path, literal, equal) => (TextAt(env, content, path) == literal) == equal
  }

  predicate ConditionsHold(env: Env, content: Content, n: TNode)
    requires n.TNode?
  {
    && (n.ifTest.Some? ==> Passes(env, content, n.ifTest.value))
    && (n.unlessTest.Some? ==> !Passes(env, content, n.unlessTest.value))
  }

  /* ---- sizes ---- */

  function Weight(n: TNode): nat {
    match n
    case TText(_) => 1
    case TNode(_, _, _, _, _, children) => 1 + Weights(children)
  }

  // The number of nodes in a template.
  function Weights(ns: seq<TNode>): nat {
    if ns == [] then 0 else Weight(ns[0]) + Weights(ns[1..])
  }

  predicate IsSeparator(n: TNode) {
    n.TNode? && n.kind == Tagged(Markup.Unknown("separator"))
  }

  // What a slot renders between consecutive children: its first separator's content.
  function SeparatorOf(ns: seq<TNode>): (sep: seq<TNode>)
    ensures Weights(sep) <= Weights(ns)
  {
    if ns == [] then []
    else if IsSeparator(ns[0]) then ns[0].children
    else SeparatorOf(ns[1..])
  }

  /* ---- binding ---- */

  function Both(a: Bound, b: Bound): Bound {
    match a
    case Err(e) => Err(e)
    case Ok(x) => (match b case Err(e) => Err(e) case Ok(y) => Ok(x + y))
  }

  function BoundText(env: Env, content: Content, pieces: seq<Piece>): string {
    if pieces == [] then "" else
    (match pieces[0] case Lit(t) => t case Hole(path) => env.escape(TextAt(env, content, path)))
    + BoundText(env, content, pieces[1..])
  }

  function BindNodes(env: Env, ns: seq<TNode>, content: Content, blocks: seq<Block>): Bound
    decreases BlockCount(blocks), Weights(ns), |blocks| + 4, 0
  {
    if ns == [] then Ok([])
    else Both(BindNode(env, ns[0], content, blocks), BindNodes(env, ns[1..], content, blocks))
  }

  // A slot or richtext node is handled before its each=, and an each= node is tested
  // once per item instead of here.
  function BindNode(env: Env, n: TNode, content: Content, blocks: seq<Block>): Bound
    decreases BlockCount(blocks), Weight(n), |blocks| + (if n.TNode? && n.each.Some? then 3 else 1), 0
  {
    match n
    case TText(pieces) => Ok([Markup.Raw(BoundText(env, content, pieces))])
    case TNode(kind, _, _, each, attrs, children) =>
      if each.None? && !ConditionsHold(env, content, n) then Ok([]) else
      match kind
      case ChildrenSlot => BindSlot(env, SeparatorOf(children), content, blocks, blocks, true)
      case BodySlot => Ok([])
      case OtherSlot => Ok([])
      case RichTextField(path) => Ok([Markup.RichText(TextAt(env, content, path), env.bindAttrs(attrs, content).style)])
      case Tagged(tag) =>
        if each.Some? then BindEach(env, n, ItemsAt(content, each.value), blocks)
        else match BindNodes(env, children, content, blocks)
             case Err(e) => Err(e)
             case Ok(kids) => Ok([Markup.El(tag, env.bindAttrs(attrs, content), kids)])
  }

  // One clone without the directive per item, bound against the item.
  function BindEach(env: Env, n: TNode, items: seq<Content>, blocks: seq<Block>): Bound
    requires n.TNode?
    decreases BlockCount(blocks), Weight(n), |blocks| + 2, |items|
  {
    if items == [] then Ok([])
    else Both(BindNode(env, n.(each := None), items[0], blocks), BindEach(env, n, items[1..], blocks))
  }

  // The child blocks, a freshly bound separator before each but the first.
  function BindSlot(env: Env, sep: seq<TNode>, content: Content, blocks: seq<Block>, rest: seq<Block>,
                    first: bool): Bound
    requires BlockCount(rest) <= BlockCount(blocks) && |rest| <= |blocks|
    decreases BlockCount(blocks), 1 + Weights(sep), |rest|, 0
  {
    if rest == [] then Ok([])
    else Both(if first then Ok([]) else BindNodes(env, sep, content, blocks),
              Both(BindBlock(env, rest[0]), BindSlot(env, sep, content, blocks, rest[1..], false)))
  }

  function BindBlock(env: Env, b: Block): Bound
    decreases 1 + BlockCount(b.blocks), 0, 0, 0
  {
    if b.blockType !in env.templates then Err(UnknownBlock(b.blockType))
    else BindNodes(env, env.templates[b.blockType], b.content, b.blocks)
  }

  function BindBlocks(env: Env, bs: seq<Block>): Bound {
    if bs == [] then Ok([]) else Both(BindBlock(env, bs[0]), BindBlocks(env, bs[1..]))
  }

  /* ---- the wrapper ---- */

  // A body slot takes the assembled body, whatever its guards, and then its own
  // children; what the ordinary binder handles never sees the body.
  function BindWrapperNode(env: Env, n: TNode, content: Content, body: seq<Node>): Bound {
    if n.TText? then BindNode(env, n, content, [])
    else if n.kind.BodySlot? then Both(Ok(body), BindWrapperNodes(env, n.children, content, body))
    else if !ConditionsHold(env, content, n) then Ok([])
    else if !n.kind.Tagged? || n.each.Some? then BindNode(env, n, content, [])
    else match BindWrapperNodes(env, n.children, content, body)
         case Err(e) => Err(e)
         case Ok(kids) => Ok([Markup.El(n.kind.tag, env.bindAttrs(n.attrs, content), kids)])
  }

  function BindWrapperNodes(env: Env, ns: seq<TNode>, content: Content, body: seq<Node>): Bound {
    if ns == [] then Ok([])
    else Both(BindWrapperNode(env, ns[0], content, body), BindWrapperNodes(env, ns[1..], content, body))
  }

  method BindWrapper(env: Env, roots: seq<TNode>, content: Content, body: seq<Node>) returns (r: Bound)
    ensures r == BindWrapperNodes(env, roots, content, body)
    decreases roots, 1
  {
    var out: seq<Node> := [];
    assert roots[0..] == roots;
    BothEmpty(BindWrapperNodes(env, roots, content, body));
    for i := 0 to |roots|
      invariant Both(Ok(out), BindWrapperNodes(env, roots[i..], content, body)) == BindWrapperNodes(env, roots, content, body)
    {
      assert roots[i..][0] == roots[i] && roots[i..][1..] == roots[i + 1..];
      var resolved := BindWrapperOne(env, roots[i], content, body);
      if resolved.Err? {
        return Err(resolved.error);
      }
      BothJoins(out, resolved.value, BindWrapperNodes(env, roots[i + 1..], content, body));
      out := out + resolved.value;
    }
    assert roots[|roots|..] == [] && out + [] == out;
    r := Ok(out);
  }

  method BindWrapperOne(env: Env, n: TNode, content: Content, body: seq<Node>) returns (r: Bound)
    ensures r == BindWrapperNode(env, n, content, body)
    decreases n, 0
  {
    if n.TNode? && n.kind.BodySlot? {
      var rest := BindWrapper(env, n.children, content, body);
      if rest.Err? {
        return Err(rest.error);
      }
      return Ok(body + rest.value);
    }
    if n.TText? {
      r := BindOne(env, n, content, []);
      return;
    }
    if !ConditionsHold(env, content, n) {
      return Ok([]);
    }
    if !n.kind.Tagged? || n.each.Some? {
      r := BindOne(env, n, content, []);
      return;
    }
    var kids := BindWrapper(env, n.children, content, body);
    if kids.Err? {
      return Err(kids.error);
    }
    r := Ok([Markup.El(n.kind.tag, env.bindAttrs(n.attrs, content), kids.value)]);
  }

  /* ---- the binder's loops ---- */

  method BindAll(env: Env, ns: seq<TNode>, content: Content, blocks: seq<Block>) returns (r: Bound)
    ensures r == BindNodes(env, ns, content, blocks)
    decreases BlockCount(blocks), Weights(ns), |blocks| + 4, 0
  {
    var out: seq<Node> := [];
    assert ns[0..] == ns;
    BothEmpty(BindNodes(env, ns, content, blocks));
    for i := 0 to |ns|
      invariant Both(Ok(out), BindNodes(env, ns[i..], content, blocks)) == BindNodes(env, ns, content, blocks)
    {
      assert ns[i..][0] == ns[i] && ns[i..][1..] == ns[i + 1..];
      WeightAt(ns, i);
      var resolved := BindOne(env, ns[i], content, blocks);
      if resolved.Err? {
        return Err(resolved.error);
      }
      BothJoins(out, resolved.value, BindNodes(env, ns[i + 1..], content, blocks));
      out := out + resolved.value;
    }
    assert ns[|ns|..] == [] && out + [] == out;
    r := Ok(out);
  }

  method BindOne(env: Env, n: TNode, content: Content, blocks: seq<Block>) returns (r: Bound)
    ensures r == BindNode(env, n, content, blocks)
    decreases BlockCount(blocks), Weight(n), |blocks| + (if n.TNode? && n.each.Some? then 3 else 1), 0
  {
    if n.TText? {
      return Ok([Markup.Raw(BoundText(env, content, n.pieces))]);
    }
    if n.each.None? && !ConditionsHold(env, content, n) {
      return Ok([]);
    }
    match n.kind {
      case ChildrenSlot =>
        r := BindChildren(env, SeparatorOf(n.children), content, blocks);
      case BodySlot =>
        r := Ok([]);
      case OtherSlot =>
        r := Ok([]);
      case RichTextField(path) =>
        r := Ok([Markup.RichText(TextAt(env, content, path), env.bindAttrs(n.attrs, content).style)]);
      case Tagged(tag) =>
        if n.each.Some? {
          var items := LookupSlice(content, n.each.value);
          r := BindItems(env, n, items, blocks);
        } else {
          var kids := BindAll(env, n.children, content, blocks);
          if kids.Err? {
            return Err(kids.error);
          }
          r := Ok([Markup.El(tag, env.bindAttrs(n.attrs, content), kids.value)]);
        }
    }
  }

  method BindItems(env: Env, n: TNode, items: seq<Content>, blocks: seq<Block>) returns (r: Bound)
    requires n.TNode?
    ensures r == BindEach(env, n, items, blocks)
    decreases BlockCount(blocks), Weight(n), |blocks| + 2, 0
  {
    var out: seq<Node> := [];
    assert items[0..] == items;
    BothEmpty(BindEach(env, n, items, blocks));
    for i := 0 to |items|
      invariant Both(Ok(out), BindEach(env, n, items[i..], blocks)) == BindEach(env, n, items, blocks)
    {
      assert items[i..][0] == items[i] && items[i..][1..] == items[i + 1..];
      var resolved := BindOne(env, n.(each := None), items[i], blocks);
      if resolved.Err? {
        return Err(resolved.error);
      }
      BothJoins(out, resolved.value, BindEach(env, n, items[i + 1..], blocks));
      out := out + resolved.value;
    }
    assert items[|items|..] == [] && out + [] == out;
    r := Ok(out);
  }

  method BindChildren(env: Env, sep: seq<TNode>, content: Content, blocks: seq<Block>) returns (r: Bound)
    ensures r == BindSlot(env, sep, content, blocks, blocks, true)
    decreases BlockCount(blocks), 1 + Weights(sep), |blocks|, 0
  {
    var out: seq<Node> := [];
    assert blocks[0..] == blocks;
    BothEmpty(BindSlot(env, sep, content, blocks, blocks, true));
    for i := 0 to |blocks|
      invariant BlockCount(blocks[i..]) <= BlockCount(blocks)
      invariant Both(Ok(out), BindSlot(env, sep, content, blocks, blocks[i..], i == 0)) ==
                BindSlot(env, sep, content, blocks, blocks, true)
    {
      assert blocks[i..][0] == blocks[i] && blocks[i..][1..] == blocks[i + 1..];
      ghost var last := BindSlot(env, sep, content, blocks, blocks[i + 1..], false);
      if i > 0 && |sep| > 0 {
        var gap := BindAll(env, sep, content, blocks);
        if gap.Err? {
          return Err(gap.error);
        }
        BothJoins(out, gap.value, Both(BindBlock(env, blocks[i]), last));
        out := out + gap.value;
      } else {
        BothJoins(out, [], Both(BindBlock(env, blocks[i]), last));
        assert out + [] == out;
      }
      var rendered := BindOneBlock(env, blocks[i]);
      if rendered.Err? {
        return Err(rendered.error);
      }
      BothJoins(out, rendered.value, last);
      out := out + rendered.value;
    }
    assert blocks[|blocks|..] == [] && out + [] == out;
    r := Ok(out);
  }

  method BindOneBlock(env: Env, b: Block) returns (r: Bound)
    ensures r == BindBlock(env, b)
    decreases 1 + BlockCount(b.blocks), 0, 0, 0
  {
    if b.blockType !in env.templates {
      return Err(UnknownBlock(b.blockType));
    }
    r := BindAll(env, env.templates[b.blockType], b.content, b.blocks);
  }

  lemma BothEmpty(b: Bound)
    ensures Both(Ok([]), b) == b
  {
    if b.Ok? {
      assert [] + b.value == b.value;
    }
  }

  lemma BothJoins(out: seq<Node>, x: seq<Node>, b: Bound)
    ensures Both(Ok(out), Both(Ok(x), b)) == Both(Ok(out + x), b)
  {
    if b.Ok? {
      assert out + (x + b.value) == out + x + b.value;
    }
  }

  lemma {:induction false} WeightAt(ns: seq<TNode>, i: nat)
    requires i < |ns|
    ensures Weight(ns[i]) <= Weights(ns)
  {
    if i > 0 {
      WeightAt(ns[1..], i - 1);
    }
  }
}
