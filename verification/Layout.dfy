/** A structured newsletter: nested blocks with JSON content, and the size limits
    checked before anything is expanded from it. */
module Layout {

  datatype Value =
    | Null
    | Str(text: string)
    | Num(value: real)
    | Bool(on: bool)
    | Arr(items: seq<Value>)
    | Obj(fields: seq<Field>)

  /** A member of a decoded object; each name occurs once. */
  datatype Field = Field(name: string, value: Value)

  datatype Block = Block(blockType: string, content: seq<Field>, blocks: seq<Block>)

  const MAX_LAYOUT_BLOCKS := 1000
  const MAX_LAYOUT_DEPTH := 16
  const MAX_LAYOUT_ITEMS := 2000

  /* ---- sizes ---- */

  // Array elements nested anywhere in a value.
  function Items(v: Value): nat {
    match v
    case Arr(items) => |items| + ItemsAll(items)
    case Obj(fields) => ItemsIn(fields)
    case _ => 0
  }

  function ItemsAll(vs: seq<Value>): nat {
    if vs == [] then 0 else Items(vs[0]) + ItemsAll(vs[1..])
  }

  function ItemsIn(fields: seq<Field>): nat {
    if fields == [] then 0 else Items(fields[0].value) + ItemsIn(fields[1..])
  }

  function BlockCount(bs: seq<Block>): nat {
    if bs == [] then 0 else 1 + BlockCount(bs[0].blocks) + BlockCount(bs[1..])
  }

  function ContentItems(bs: seq<Block>): nat {
    if bs == [] then 0 else ItemsIn(bs[0].content) + ContentItems(bs[0].blocks) + ContentItems(bs[1..])
  }

  function Max(a: nat, b: nat): nat {
    if a < b then b else a
  }

  function Depth(bs: seq<Block>): nat {
    if bs == [] then 0 else Max(1 + Depth(bs[0].blocks), Depth(bs[1..]))
  }

  /** Whether a layout may be rendered. */
  predicate WithinBounds(bs: seq<Block>) {
    BlockCount(bs) <= MAX_LAYOUT_BLOCKS && Depth(bs) <= MAX_LAYOUT_DEPTH && ContentItems(bs) <= MAX_LAYOUT_ITEMS
  }

  /* ---- the walk ---- */

  // countContentItems on one value: the running total, or the first breach.
  method WalkValue(v: Value, items: nat) returns (ok: bool, total: nat)
    requires items <= MAX_LAYOUT_ITEMS
    ensures ok <==> items + Items(v) <= MAX_LAYOUT_ITEMS
    ensures ok ==> total == items + Items(v)
    decreases v
  {
    ok, total := true, items;
    match v {
      case Arr(elems) =>
        total := total + |elems|;
        if total > MAX_LAYOUT_ITEMS {
          return false, total;
        }
        for i := 0 to |elems|
          invariant total <= MAX_LAYOUT_ITEMS && total + ItemsAll(elems[i..]) == items + Items(v)
        {
          assert elems[i..][1..] == elems[i + 1..];
          ok, total := WalkValue(elems[i], total);
          if !ok {
            return;
          }
        }
        assert elems[|elems|..] == [];
      case Obj(fields) => ok, total := WalkFields(fields, items);
      case _ =>
    }
  }

  method WalkFields(fields: seq<Field>, items: nat) returns (ok: bool, total: nat)
    requires items <= MAX_LAYOUT_ITEMS
    ensures ok <==> items + ItemsIn(fields) <= MAX_LAYOUT_ITEMS
    ensures ok ==> total == items + ItemsIn(fields)
    decreases fields
  {
    ok, total := true, items;
    for i := 0 to |fields|
      invariant total <= MAX_LAYOUT_ITEMS && total + ItemsIn(fields[i..]) == items + ItemsIn(fields)
    {
      assert fields[i..][1..] == fields[i + 1..];
      ok, total := WalkValue(fields[i].value, total);
      if !ok {
        return;
      }
    }
    assert fields[|fields|..] == [];
  }

  // The descent is guarded, not the entry: a leaf at the depth limit is allowed.
  method WalkBlocks(bs: seq<Block>, depth: nat, blocksSoFar: nat, itemsSoFar: nat) returns (ok: bool, total: nat,
                    items: nat)
    requires 1 <= depth <= MAX_LAYOUT_DEPTH && blocksSoFar <= MAX_LAYOUT_BLOCKS && itemsSoFar <= MAX_LAYOUT_ITEMS
    ensures ok <==> && blocksSoFar + BlockCount(bs) <= MAX_LAYOUT_BLOCKS
                    && itemsSoFar + ContentItems(bs) <= MAX_LAYOUT_ITEMS
                    && depth - 1 + Depth(bs) <= MAX_LAYOUT_DEPTH
    ensures ok ==> total == blocksSoFar + BlockCount(bs) && items == itemsSoFar + ContentItems(bs)
    decreases bs
  {
    ok, total, items := true, blocksSoFar, itemsSoFar;
    for i := 0 to |bs|
      invariant total <= MAX_LAYOUT_BLOCKS && items <= MAX_LAYOUT_ITEMS
      invariant total + BlockCount(bs[i..]) == blocksSoFar + BlockCount(bs)
      invariant items + ContentItems(bs[i..]) == itemsSoFar + ContentItems(bs)
      invariant depth - 1 + Depth(bs[i..]) <= MAX_LAYOUT_DEPTH <==> depth - 1 + Depth(bs) <= MAX_LAYOUT_DEPTH
    {
      assert bs[i..][0] == bs[i] && bs[i..][1..] == bs[i + 1..];
      total := total + 1;
      if total > MAX_LAYOUT_BLOCKS {
        return false, total, items;
      }
      ok, items := WalkFields(bs[i].content, items);
      if !ok {
        return;
      }
      if |bs[i].blocks| > 0 {
        if depth + 1 > MAX_LAYOUT_DEPTH {
          return false, total, items;
        }
        ok, total, items := WalkBlocks(bs[i].blocks, depth + 1, total, items);
        if !ok {
          return;
        }
      }
    }
    assert bs[|bs|..] == [];
  }

  /** checkLayoutBounds accepts exactly the layouts within all three limits. */
  method CheckLayoutBounds(blocks: seq<Block>) returns (ok: bool)
    ensures ok <==> WithinBounds(blocks)
    ensures ok <==> BlockCount(blocks) <= 1000 && Depth(blocks) <= 16 && ContentItems(blocks) <= 2000
  {
    var total, items;
    ok, total, items := WalkBlocks(blocks, 1, 0, 0);
  }

  /* ---- what is counted ---- */

  // So many blocks nested in one another.
  predicate HasChain(bs: seq<Block>, n: nat) {
    n == 0 || exists i :: 0 <= i < |bs| && HasChain(bs[i].blocks, n - 1)
  }

  /** The depth is the length of the longest chain of nested blocks. */
  lemma {:induction false} DepthIsLongestChain(bs: seq<Block>, n: nat)
    ensures HasChain(bs, n) <==> n <= Depth(bs)
    decreases bs
  {
    if n > 0 && bs != [] {
      DepthIsLongestChain(bs[0].blocks, n - 1);
      DepthIsLongestChain(bs[1..], n);
      if i :| 0 < i < |bs| && HasChain(bs[i].blocks, n - 1) {
        assert bs[1..][i - 1] == bs[i];
      }
      if i :| 0 <= i < |bs[1..]| && HasChain(bs[1..][i].blocks, n - 1) {
        assert bs[i + 1] == bs[1..][i];
      }
    }
  }

  /** Every block in the tree, the outer before the inner. */
  function Preorder(bs: seq<Block>): seq<Block> {
    if bs == [] then [] else [bs[0]] + Preorder(bs[0].blocks) + Preorder(bs[1..])
  }

  /** Every array in a value, the outer before the inner. */
  function ArraysIn(v: Value): seq<seq<Value>> {
    match v
    case Arr(items) => [items] + ArraysOf(items)
    case Obj(fields) => ArraysUnder(fields)
    case _ => []
  }

  function ArraysOf(vs: seq<Value>): seq<seq<Value>> {
    if vs == [] then [] else ArraysIn(vs[0]) + ArraysOf(vs[1..])
  }

  function ArraysUnder(fields: seq<Field>): seq<seq<Value>> {
    if fields == [] then [] else ArraysIn(fields[0].value) + ArraysUnder(fields[1..])
  }

  function TotalLength(arrays: seq<seq<Value>>): nat {
    if arrays == [] then 0 else |arrays[0]| + TotalLength(arrays[1..])
  }

  lemma {:induction false} LengthsAdd(a: seq<seq<Value>>, b: seq<seq<Value>>)
    ensures TotalLength(a + b) == TotalLength(a) + TotalLength(b)
  {
    if a == [] {
      assert a + b == b;
    } else {
      LengthsAdd(a[1..], b);
      assert (a + b)[0] == a[0] && (a + b)[1..] == a[1..] + b;
    }
  }

  lemma {:induction false} ItemsAreElements(v: Value)
    ensures Items(v) == TotalLength(ArraysIn(v))
    decreases v
  {
    match v {
      case Arr(items) =>
        AllItemsAreElements(items);
        LengthsAdd([items], ArraysOf(items));
        assert [items][1..] == [];
      case Obj(fields) => FieldItemsAreElements(fields);
      case _ =>
    }
  }

  lemma {:induction false} AllItemsAreElements(vs: seq<Value>)
    ensures ItemsAll(vs) == TotalLength(ArraysOf(vs))
    decreases vs
  {
    if vs != [] {
      ItemsAreElements(vs[0]);
      AllItemsAreElements(vs[1..]);
      LengthsAdd(ArraysIn(vs[0]), ArraysOf(vs[1..]));
    }
  }

  lemma {:induction false} FieldItemsAreElements(fields: seq<Field>)
    ensures ItemsIn(fields) == TotalLength(ArraysUnder(fields))
    decreases fields
  {
    if fields != [] {
      ItemsAreElements(fields[0].value);
      FieldItemsAreElements(fields[1..]);
      LengthsAdd(ArraysIn(fields[0].value), ArraysUnder(fields[1..]));
    }
  }

  function ArraysOfBlocks(bs: seq<Block>): seq<seq<Value>> {
    if bs == [] then [] else ArraysUnder(bs[0].content) + ArraysOfBlocks(bs[1..])
  }

  lemma {:induction false} BlockArraysConcat(a: seq<Block>, b: seq<Block>)
    ensures ArraysOfBlocks(a + b) == ArraysOfBlocks(a) + ArraysOfBlocks(b)
  {
    if a == [] {
      assert a + b == b;
    } else {
      hide ArraysUnder;
      var here := ArraysUnder(a[0].content);
      BlockArraysConcat(a[1..], b);
      assert (a + b)[0] == a[0] && (a + b)[1..] == a[1..] + b;
      assert here + (ArraysOfBlocks(a[1..]) + ArraysOfBlocks(b)) == here + ArraysOfBlocks(a[1..]) + ArraysOfBlocks(b);
    }
  }

  lemma BlockLengthsAdd(a: seq<Block>, b: seq<Block>)
    ensures TotalLength(ArraysOfBlocks(a + b)) == TotalLength(ArraysOfBlocks(a)) + TotalLength(ArraysOfBlocks(b))
  {
    BlockArraysConcat(a, b);
    LengthsAdd(ArraysOfBlocks(a), ArraysOfBlocks(b));
  }

  lemma NoBlocksNoLength()
    ensures TotalLength(ArraysOfBlocks([])) == 0
  {
  }

  lemma OneBlockLength(b: Block)
    ensures TotalLength(ArraysOfBlocks([b])) == ItemsIn(b.content)
  {
    FieldItemsAreElements(b.content);
    assert [b][1..] == [] && ArraysOfBlocks([b]) == ArraysUnder(b.content) + [] == ArraysUnder(b.content);
  }

  /** The limits are on the blocks of the whole tree and on the elements of all the
      arrays in their content, however deep. */
  lemma {:induction false} CountsAreTotals(bs: seq<Block>)
    ensures BlockCount(bs) == |Preorder(bs)| && ContentItems(bs) == TotalLength(ArraysOfBlocks(Preorder(bs)))
    decreases bs
  {
    hide TotalLength, ArraysOfBlocks;
    if bs == [] {
      NoBlocksNoLength();
    } else {
      var b, inner, rest := bs[0], Preorder(bs[0].blocks), Preorder(bs[1..]);
      CountsAreTotals(b.blocks);
      CountsAreTotals(bs[1..]);
      OneBlockLength(b);
      BlockLengthsAdd([b] + inner, rest);
      BlockLengthsAdd([b], inner);
    }
  }
}
