/** Restoring what MJML drops from cards: one pass over the compiled HTML's tokens
    with a depth-tagged stack of radii and a running shadow index. The pass is proved
    to be the obvious rewriting of the element tree. */
module Postprocess {
  import opened Strings
  import opened Styles

  datatype Token =
    | Start(tag: string, style: Style, rest: map<string, string>)
    | End(tag: string)
    | Other(text: string)     // text, comments, self-closing tags

  datatype Frame = Frame(depth: nat, radius: string)

  datatype State = State(radii: seq<Frame>, depth: nat, shadowIdx: nat, out: seq<Token>)

  const VOID_ELEMENTS: set<string> :=
    {"area", "base", "br", "col", "embed", "hr", "img", "input", "link", "meta", "source", "track", "wbr"}

  const CARD_GAP := "24px"

  const EMPTY := State([], 0, 0, [])

  // A card's wrapper: rounded, centred, without a border of its own.
  predicate IsCardWrapper(style: Style) {
    CssProp(style, "border-radius") != "" && CssProp(style, "border") == "" && Contains(CssProp(style, "margin"), "auto")
  }

  function ShadowAt(shadows: seq<string>, k: nat): string {
    if k < |shadows| then shadows[k] else ""
  }

  function Appended(style: Style, prop: string, val: string, when: bool): Style {
    if when then style + [Decl(prop, val)] else style
  }

  // The style an element leaves with, given its nearest ancestor's radius ("" for
  // none) and the shadow of the card it would be.
  function Restyled(tag: string, style: Style, inherited: string, shadow: string): Style {
    var radius := CssProp(style, "border-radius");
    var s1 := Appended(style, "border-radius", inherited, CssProp(style, "border") != "" && radius == "" && inherited != "");
    var s2 := Appended(s1, "border-collapse", "separate", radius != "" && tag == "table"
                       && CssProp(style, "border-collapse") == "");
    var s3 := Appended(s2, "box-shadow", shadow, IsCardWrapper(style) && shadow != "" && CssProp(s2, "box-shadow") == "");
    Appended(s3, "margin-bottom", CARD_GAP, IsCardWrapper(style) && CssProp(s3, "margin-bottom") == "")
  }

  /* ---- the pass, token by token ---- */

  function Popped(radii: seq<Frame>, depth: nat): seq<Frame> {
    if radii != [] && radii[|radii| - 1].depth >= depth then Popped(radii[..|radii| - 1], depth) else radii
  }

  function Nearest(radii: seq<Frame>): string {
    if radii == [] then "" else radii[|radii| - 1].radius
  }

  function Opened(s: State, opens: bool, radius: string, wrapper: bool, t: Token): State {
    State(if opens && radius != "" then s.radii + [Frame(s.depth + 1, radius)] else s.radii,
          if opens then s.depth + 1 else s.depth,
          if wrapper then s.shadowIdx + 1 else s.shadowIdx,
          s.out + [t])
  }

  function Closed(s: State, t: Token): State {
    State(Popped(s.radii, s.depth), if s.depth > 0 then s.depth - 1 else 0, s.shadowIdx, s.out + [t])
  }

  function Step(s: State, t: Token, shadows: seq<string>): State {
    match t
    case Other(_) => s.(out := s.out + [t])
    case End(_) => Closed(s, t)
    case Start(tag, style, rest) =>
      Opened(s, tag !in VOID_ELEMENTS, CssProp(style, "border-radius"), IsCardWrapper(style),
             Start(tag, Restyled(tag, style, Nearest(s.radii), ShadowAt(shadows, s.shadowIdx)), rest))
  }

  function Fold<S, T>(step: (S, T) -> S, s: S, ts: seq<T>): S {
    if ts == [] then s else step(Fold(step, s, ts[..|ts| - 1]), ts[|ts| - 1])
  }

  function Stepper(shadows: seq<string>): (State, Token) -> State {
    (s, t) => Step(s, t, shadows)
  }

  function Run(s: State, ts: seq<Token>, shadows: seq<string>): State {
    Fold(Stepper(shadows), s, ts)
  }

  /* ---- the same on the element tree ---- */

  datatype Dom =
    | Leaf(text: string)
    | Void(tag: string, style: Style, rest: map<string, string>)
    | Element(tag: string, style: Style, rest: map<string, string>, children: Forest)

  datatype Forest = Empty | Trees(first: Dom, others: Forest)

  predicate WellFormedOne(d: Dom) {
    match d
    case Leaf(_) => true
    case Void(tag, _, _) => tag in VOID_ELEMENTS
    case Element(tag, _, _, children) => tag !in VOID_ELEMENTS && WellFormed(children)
  }

  predicate WellFormed(ds: Forest) {
    ds.Trees? ==> WellFormedOne(ds.first) && WellFormed(ds.others)
  }

  function FlattenOne(d: Dom): seq<Token> {
    match d
    case Leaf(text) => [Other(text)]
    case Void(tag, style, rest) => [Start(tag, style, rest)]
    case Element(tag, style, rest, children) => [Start(tag, style, rest)] + Flatten(children) + [End(tag)]
  }

  /** The well-nested token stream of a forest. */
  function Flatten(ds: Forest): seq<Token> {
    if ds.Empty? then [] else FlattenOne(ds.first) + Flatten(ds.others)
  }

  // The card wrappers in document order, counted.
  function WrappersIn(d: Dom): nat {
    match d
    case Leaf(_) => 0
    case Void(_, style, _) => if IsCardWrapper(style) then 1 else 0
    case Element(_, style, _, children) => (if IsCardWrapper(style) then 1 else 0) + Wrappers(children)
  }

  function Wrappers(ds: Forest): nat {
    if ds.Empty? then 0 else WrappersIn(ds.first) + Wrappers(ds.others)
  }

  function Inherit(style: Style, inherited: string): string {
    if CssProp(style, "border-radius") != "" then CssProp(style, "border-radius") else inherited
  }

  // `k` wrappers came before in the document.
  function RestoredOne(d: Dom, inherited: string, shadows: seq<string>, k: nat): Dom {
    match d
    case Leaf(_) => d
    case Void(tag, style, rest) => Void(tag, Restyled(tag, style, inherited, ShadowAt(shadows, k)), rest)
    case Element(tag, style, rest, children) =>
      Element(tag, Restyled(tag, style, inherited, ShadowAt(shadows, k)), rest,
              Restored(children, Inherit(style, inherited), shadows, if IsCardWrapper(style) then k + 1 else k))
  }

  /** Every element restyled from its nearest enclosing radius and, for the k-th card
      wrapper of the document, the k-th shadow. */
  function Restored(ds: Forest, inherited: string, shadows: seq<string>, k: nat): Forest {
    if ds.Empty? then Empty else
    Trees(RestoredOne(ds.first, inherited, shadows, k), Restored(ds.others, inherited, shadows, k + WrappersIn(ds.first)))
  }

  /* ---- the pass is the tree rewriting ---- */

  lemma {:induction false} FoldConcat<S, T>(step: (S, T) -> S, s: S, a: seq<T>, b: seq<T>)
    ensures Fold(step, s, a + b) == Fold(step, Fold(step, s, a), b)
  {
    if b == [] {
      assert a + b == a;
    } else {
      var n := |b| - 1;
      FoldConcat(step, s, a, b[..n]);
      assert (a + b)[..|a| + n] == a + b[..n];
    }
  }

  lemma RunConcat(s: State, a: seq<Token>, b: seq<Token>, shadows: seq<string>)
    ensures Run(s, a + b, shadows) == Run(Run(s, a, shadows), b, shadows)
  {
    FoldConcat(Stepper(shadows), s, a, b);
  }

  lemma RunOne(s: State, t: Token, shadows: seq<string>)
    ensures Run(s, [t], shadows) == Step(s, t, shadows)
  {
    assert [t][..0] == [];
    assert Fold(Stepper(shadows), s, [t]) == Stepper(shadows)(Fold(Stepper(shadows), s, []), t);
  }

  // Every frame belongs to an open element.
  predicate Stacked(s: State) {
    forall i :: 0 <= i < |s.radii| ==> s.radii[i].depth <= s.depth && s.radii[i].radius != ""
  }

  function After(s: State, d: seq<Token>, used: nat): State {
    s.(out := s.out + d, shadowIdx := s.shadowIdx + used)
  }

  // Opening and closing an element leaves the stack as it was.
  lemma ClosesWhatItOpened(s: State, radius: string, wrapper: bool, open: Token, content: seq<Token>, used: nat,
                           close: Token)
    requires Stacked(s)
    ensures var inside := Opened(s, true, radius, wrapper, open);
            && Stacked(inside) && Nearest(inside.radii) == (if radius != "" then radius else Nearest(s.radii))
            && Closed(After(inside, content, used), close) ==
               After(s, [open] + content + [close], (if wrapper then 1 else 0) + used)
  {
    var inside := Opened(s, true, radius, wrapper, open);
    assert Popped(s.radii, s.depth + 1) == s.radii;
    if radius != "" {
      assert inside.radii[..|s.radii|] == s.radii;
    }
    assert s.out + [open] + content + [close] == s.out + ([open] + content + [close]);
  }

  lemma RunElement(s: State, open: Token, content: seq<Token>, close: Token, shadows: seq<string>)
    ensures Run(s, [open] + content + [close], shadows) == Step(Run(Step(s, open, shadows), content, shadows), close, shadows)
  {
    RunOne(s, open, shadows);
    RunConcat(s, [open], content, shadows);
    RunConcat(s, [open] + content, [close], shadows);
    RunOne(Run(s, [open] + content, shadows), close, shadows);
  }

  // An element, once its content is known to run as the rewritten content.
  lemma RunAround(s: State, tag: string, style: Style, rest: map<string, string>, content: seq<Token>,
                  fixed: seq<Token>, used: nat, shadows: seq<string>)
    requires Stacked(s) && tag !in VOID_ELEMENTS
    requires var inside := Step(s, Start(tag, style, rest), shadows);
             Run(inside, content, shadows) == After(inside, fixed, used)
    ensures var open := Start(tag, Restyled(tag, style, Nearest(s.radii), ShadowAt(shadows, s.shadowIdx)), rest);
            Run(s, [Start(tag, style, rest)] + content + [End(tag)], shadows) ==
            After(s, [open] + fixed + [End(tag)], (if IsCardWrapper(style) then 1 else 0) + used)
  {
    var open := Start(tag, Restyled(tag, style, Nearest(s.radii), ShadowAt(shadows, s.shadowIdx)), rest);
    ClosesWhatItOpened(s, CssProp(style, "border-radius"), IsCardWrapper(style), open, fixed, used, End(tag));
    RunElement(s, Start(tag, style, rest), content, End(tag), shadows);
  }

  lemma InsideElement(s: State, tag: string, style: Style, rest: map<string, string>, shadows: seq<string>)
    requires Stacked(s) && tag !in VOID_ELEMENTS
    ensures var inside := Step(s, Start(tag, style, rest), shadows);
            && Stacked(inside) && Nearest(inside.radii) == Inherit(style, Nearest(s.radii))
            && inside.shadowIdx == if IsCardWrapper(style) then s.shadowIdx + 1 else s.shadowIdx
  {
  }

  lemma RunOnLeaf(s: State, d: Dom, shadows: seq<string>)
    requires WellFormedOne(d) && !d.Element?
    ensures Run(s, FlattenOne(d), shadows) ==
            After(s, FlattenOne(RestoredOne(d, Nearest(s.radii), shadows, s.shadowIdx)), WrappersIn(d))
  {
    RunOne(s, FlattenOne(d)[0], shadows);
  }

  lemma {:induction false} RunOnOne(s: State, d: Dom, shadows: seq<string>)
    requires Stacked(s) && WellFormedOne(d)
    ensures Run(s, FlattenOne(d), shadows) ==
            After(s, FlattenOne(RestoredOne(d, Nearest(s.radii), shadows, s.shadowIdx)), WrappersIn(d))
    decreases d, 0
  {
    match d {
      case Leaf(text) => RunOnLeaf(s, d, shadows);
      case Void(tag, style, rest) => RunOnLeaf(s, d, shadows);
      case Element(tag, style, rest, children) =>
        var inside := Step(s, Start(tag, style, rest), shadows);
        InsideElement(s, tag, style, rest, shadows);
        RunOnForest(inside, children, shadows);
        var fixed := Flatten(Restored(children, Nearest(inside.radii), shadows, inside.shadowIdx));
        RunAround(s, tag, style, rest, Flatten(children), fixed, Wrappers(children), shadows);
    }
  }

  lemma AfterTwice(s: State, a: seq<Token>, usedA: nat, b: seq<Token>, usedB: nat)
    ensures After(After(s, a, usedA), b, usedB) == After(s, a + b, usedA + usedB)
  {
    assert s.out + a + b == s.out + (a + b);
  }

  // Two stretches in a row.
  lemma RunTwice(s: State, a: seq<Token>, fixedA: seq<Token>, usedA: nat, b: seq<Token>, fixedB: seq<Token>,
                 usedB: nat, shadows: seq<string>)
    requires Run(s, a, shadows) == After(s, fixedA, usedA)
    requires Run(After(s, fixedA, usedA), b, shadows) == After(After(s, fixedA, usedA), fixedB, usedB)
    ensures Run(s, a + b, shadows) == After(s, fixedA + fixedB, usedA + usedB)
  {
    RunConcat(s, a, b, shadows);
    AfterTwice(s, fixedA, usedA, fixedB, usedB);
  }

  lemma RunOnNothing(s: State, shadows: seq<string>)
    ensures Run(s, [], shadows) == After(s, [], 0)
  {
    assert s.out + [] == s.out;
  }

  // A first tree that runs as `fixed`, and then others that run as `left`.
  lemma RunOnTrees(s: State, d: Dom, others: Forest, fixed: Dom, left: Forest, shadows: seq<string>)
    requires var t := After(s, FlattenOne(fixed), WrappersIn(d));
             && Run(s, FlattenOne(d), shadows) == t
             && Run(t, Flatten(others), shadows) == After(t, Flatten(left), Wrappers(others))
    ensures Run(s, Flatten(Trees(d, others)), shadows) == After(s, Flatten(Trees(fixed, left)), Wrappers(Trees(d, others)))
  {
    RunTwice(s, FlattenOne(d), FlattenOne(fixed), WrappersIn(d), Flatten(others), Flatten(left), Wrappers(others), shadows);
  }

  /** On a well-nested stream the stack-and-index pass is the tree rewriting, and
      leaves the stack as it found it. */
  lemma {:induction false} RunOnForest(s: State, ds: Forest, shadows: seq<string>)
    requires Stacked(s) && WellFormed(ds)
    ensures Run(s, Flatten(ds), shadows) ==
            After(s, Flatten(Restored(ds, Nearest(s.radii), shadows, s.shadowIdx)), Wrappers(ds))
    decreases ds, 1
  {
    hide RestoredOne, Restyled, FlattenOne, Fold, Step;
    match ds {
      case Empty => RunOnNothing(s, shadows);
      case Trees(d, others) =>
        var near, k := Nearest(s.radii), s.shadowIdx;
        var fixed, left := RestoredOne(d, near, shadows, k), Restored(others, near, shadows, k + WrappersIn(d));
        RunOnOne(s, d, shadows);
        RunOnForest(After(s, FlattenOne(fixed), WrappersIn(d)), others, shadows);
        RunOnTrees(s, d, others, fixed, left, shadows);
        assert Restored(ds, near, shadows, k) == Trees(fixed, left);
    }
  }

  method PopFrames(radii: seq<Frame>, depth: nat) returns (left: seq<Frame>)
    ensures left == Popped(radii, depth) && left <= radii
  {
    left := radii;
    while |left| > 0 && left[|left| - 1].depth >= depth
      invariant left <= radii && Popped(left, depth) == Popped(radii, depth)
    {
      left := left[..|left| - 1];
    }
  }

  // One turn of the tokenizer loop.
  method Advance(s: State, t: Token, shadows: seq<string>) returns (next: State)
    requires forall k :: 0 <= k < |s.radii| ==> s.radii[k].radius != ""
    ensures next == Step(s, t, shadows)
    ensures forall k :: 0 <= k < |next.radii| ==> next.radii[k].radius != ""
  {
    var radii, depth, shadowIdx, out := s.radii, s.depth, s.shadowIdx, s.out;
    match t {
      case Other(_) =>
        out := out + [t];
      case End(_) =>
        radii := PopFrames(radii, depth);
        if depth > 0 {
          depth := depth - 1;
        }
        out := out + [t];
      case Start(tag, style, rest) =>
        var newStyle := RestyleStart(tag, style, radii, shadows, shadowIdx);
        out := out + [Start(tag, newStyle, rest)];
        if IsCardWrapper(style) {
          shadowIdx := shadowIdx + 1;
        }
        var radius := CssProp(style, "border-radius");
        if tag !in VOID_ELEMENTS {
          depth := depth + 1;
          if radius != "" {
            radii := radii + [Frame(depth, radius)];
          }
        }
    }
    next := State(radii, depth, shadowIdx, out);
  }

  /** reconcileCardBorders. */
  method ReconcileCardBorders(input: seq<Token>, shadows: seq<string>) returns (out: seq<Token>)
    ensures out == Run(EMPTY, input, shadows).out
    ensures forall ds :: WellFormed(ds) && input == Flatten(ds) ==> out == Flatten(Restored(ds, "", shadows, 0))
  {
    var s := EMPTY;
    for i := 0 to |input|
      invariant forall k :: 0 <= k < |s.radii| ==> s.radii[k].radius != ""
      invariant s == Run(EMPTY, input[..i], shadows)
    {
      RunNext(input, i, shadows);
      s := Advance(s, input[i], shadows);
    }
    out := s.out;
    assert input[..|input|] == input;
    forall ds | WellFormed(ds) && input == Flatten(ds) ensures out == Flatten(Restored(ds, "", shadows, 0)) {
      RunOnForest(EMPTY, ds, shadows);
      assert [] + Flatten(Restored(ds, "", shadows, 0)) == Flatten(Restored(ds, "", shadows, 0));
    }
  }

  lemma RunNext(input: seq<Token>, i: nat, shadows: seq<string>)
    requires i < |input|
    ensures Run(EMPTY, input[..i + 1], shadows) == Step(Run(EMPTY, input[..i], shadows), input[i], shadows)
  {
    assert input[..i + 1] == input[..i] + [input[i]];
    RunConcat(EMPTY, input[..i], [input[i]], shadows);
    RunOne(Run(EMPTY, input[..i], shadows), input[i], shadows);
  }

  method RestyleStart(tag: string, style: Style, radii: seq<Frame>, shadows: seq<string>, shadowIdx: nat)
    returns (newStyle: Style)
    requires forall i :: 0 <= i < |radii| ==> radii[i].radius != ""
    ensures newStyle == Restyled(tag, style, Nearest(radii), ShadowAt(shadows, shadowIdx))
  {
    newStyle := style;
    var radius := CssProp(style, "border-radius");
    var border := CssProp(style, "border");
    if border != "" && radius == "" && |radii| > 0 {
      newStyle := newStyle + [Decl("border-radius", radii[|radii| - 1].radius)];
    }
    if radius != "" && tag == "table" && CssProp(style, "border-collapse") == "" {
      newStyle := newStyle + [Decl("border-collapse", "separate")];
    }
    if radius != "" && border == "" && Contains(CssProp(style, "margin"), "auto") {
      var shadow := "";
      if shadowIdx < |shadows| {
        shadow := shadows[shadowIdx];
      }
      if shadow != "" && CssProp(newStyle, "box-shadow") == "" {
        newStyle := newStyle + [Decl("box-shadow", shadow)];
      }
      if CssProp(newStyle, "margin-bottom") == "" {
        newStyle := newStyle + [Decl("margin-bottom", CARD_GAP)];
      }
    }
  }

  /* ---- any stream: what changes, and which shadow goes where ---- */

  predicate IsWrapperStart(t: Token) {
    t.Start? && IsCardWrapper(t.style)
  }

  function WrapperStarts(ts: seq<Token>): nat {
    if ts == [] then 0 else WrapperStarts(ts[..|ts| - 1]) + if IsWrapperStart(ts[|ts| - 1]) then 1 else 0
  }

  // A token comes out as it was, or with declarations added behind its own.
  predicate OnlyExtended(before: Token, after: Token) {
    if before.Start? then after.Start? && after.tag == before.tag && after.rest == before.rest && before.style <= after.style
    else after == before
  }

  // What becomes of the token at position i.
  predicate RestyledAt(ts: seq<Token>, out: seq<Token>, shadows: seq<string>, i: nat)
    requires i < |ts| == |out|
  {
    && OnlyExtended(ts[i], out[i])
    && (ts[i].Start? ==>
          out[i].style == Restyled(ts[i].tag, ts[i].style, Nearest(Run(EMPTY, ts[..i], shadows).radii),
                                   ShadowAt(shadows, WrapperStarts(ts[..i]))))
  }

  lemma RestyledLast(ts: seq<Token>, n: nat, shadows: seq<string>)
    requires n + 1 == |ts|
    requires var s := Run(EMPTY, ts[..n], shadows);
             |s.out| == n && s.shadowIdx == WrapperStarts(ts[..n])
    ensures var s, r := Run(EMPTY, ts[..n], shadows), Run(EMPTY, ts, shadows);
            && |r.out| == |ts| && r.out[..n] == s.out && r.shadowIdx == WrapperStarts(ts)
            && RestyledAt(ts, r.out, shadows, n)
  {
  }

  lemma RestyledBefore(ts: seq<Token>, n: nat, out: seq<Token>, longer: seq<Token>, shadows: seq<string>, i: nat)
    requires i < n <= |ts| == |longer| && |out| == n && longer[..n] == out && RestyledAt(ts[..n], out, shadows, i)
    ensures RestyledAt(ts, longer, shadows, i)
  {
    assert ts[..n][..i] == ts[..i] && longer[i] == out[i];
  }

  /** On every stream the pass only appends declarations, and each card wrapper is
      restyled with the shadow whose position is its own rank among the wrappers. */
  lemma {:induction false} ShadowsByRank(ts: seq<Token>, shadows: seq<string>)
    ensures var r := Run(EMPTY, ts, shadows);
            && |r.out| == |ts| && r.shadowIdx == WrapperStarts(ts)
            && (forall i :: 0 <= i < |ts| ==> RestyledAt(ts, r.out, shadows, i))
  {
    if ts != [] {
      var n := |ts| - 1;
      ShadowsByRank(ts[..n], shadows);
      RestyledLast(ts, n, shadows);
      forall i | 0 <= i < n ensures RestyledAt(ts, Run(EMPTY, ts, shadows).out, shadows, i) {
        RestyledBefore(ts, n, Run(EMPTY, ts[..n], shadows).out, Run(EMPTY, ts, shadows).out, shadows, i);
      }
    }
  }

  /* ---- the stack is the open ancestors' radii ---- */

  /** One step down the tree: the siblings already closed, then the element opened. */
  datatype Hop = Hop(before: Forest, tag: string, style: Style, rest: map<string, string>)

  predicate IsPath(path: seq<Hop>) {
    forall i :: 0 <= i < |path| ==> WellFormed(path[i].before) && path[i].tag !in VOID_ELEMENTS
  }

  function PathTokens(path: seq<Hop>): seq<Token> {
    if path == [] then [] else
    var h := path[|path| - 1];
    PathTokens(path[..|path| - 1]) + Flatten(h.before) + [Start(h.tag, h.style, h.rest)]
  }

  function OpenRadii(path: seq<Hop>): seq<Frame> {
    if path == [] then [] else
    var radius := CssProp(path[|path| - 1].style, "border-radius");
    OpenRadii(path[..|path| - 1]) + if radius != "" then [Frame(|path|, radius)] else []
  }

  /** Wherever the pass stands in a well-nested document, its depth is the number of
      open elements and its stack lists exactly their radii, outermost first. */
  lemma {:induction false} StackIsOpenAncestors(path: seq<Hop>, shadows: seq<string>)
    requires IsPath(path)
    ensures var s := Run(EMPTY, PathTokens(path), shadows);
            Stacked(s) && s.depth == |path| && s.radii == OpenRadii(path)
  {
    if path != [] {
      var n, h := |path| - 1, path[|path| - 1];
      StackIsOpenAncestors(path[..n], shadows);
      var s, open := Run(EMPTY, PathTokens(path[..n]), shadows), Start(h.tag, h.style, h.rest);
      RunConcat(EMPTY, PathTokens(path[..n]), Flatten(h.before), shadows);
      RunOnForest(s, h.before, shadows);
      var t := Run(s, Flatten(h.before), shadows);
      RunConcat(EMPTY, PathTokens(path[..n]) + Flatten(h.before), [open], shadows);
      RunOne(t, open, shadows);
    }
  }

  /* ---- what the restyled element shows ---- */

  predicate NoneEmpty(style: Style) {
    forall i :: 0 <= i < |style| ==> style[i].val != ""
  }

  lemma {:induction false} AppendedShows(style: Style, prop: string, val: string, when: bool, p: string)
    requires NoneEmpty(style) && (when ==> val != "" && CssProp(style, prop) == "")
    ensures NoneEmpty(Appended(style, prop, val, when))
    ensures CssProp(Appended(style, prop, val, when), p) == if when && p == prop then val else CssProp(style, p)
  {
    if when {
      if style == [] {
        assert [Decl(prop, val)][1..] == [];
      } else {
        AppendedShows(style[1..], prop, val, style[0].prop != prop, p);
        assert (style + [Decl(prop, val)])[1..] == style[1..] + [Decl(prop, val)];
      }
    }
  }

  /** A bordered element without a radius shows its nearest ancestor's; a card wrapper
      without a shadow or bottom margin shows its card's shadow and the card gap; a
      rounded table separates its borders; nothing else changes. */
  lemma RestyledShows(tag: string, style: Style, inherited: string, shadow: string, p: string)
    requires NoneEmpty(style)
    ensures CssProp(Restyled(tag, style, inherited, shadow), p) ==
            if CssProp(style, p) != "" then CssProp(style, p)
            else if p == "border-radius" && CssProp(style, "border") != "" then inherited
            else if p == "border-collapse" && CssProp(style, "border-radius") != "" && tag == "table" then "separate"
            else if p == "box-shadow" && IsCardWrapper(style) then shadow
            else if p == "margin-bottom" && IsCardWrapper(style) then CARD_GAP
            else ""
  {
    var radius := CssProp(style, "border-radius");
    var w1 := CssProp(style, "border") != "" && radius == "" && inherited != "";
    var s1 := Appended(style, "border-radius", inherited, w1);
    AppendedShows(style, "border-radius", inherited, w1, p);
    AppendedShows(style, "border-radius", inherited, w1, "border-collapse");
    AppendedShows(style, "border-radius", inherited, w1, "box-shadow");
    AppendedShows(style, "border-radius", inherited, w1, "margin-bottom");
    var w2 := radius != "" && tag == "table" && CssProp(style, "border-collapse") == "";
    var s2 := Appended(s1, "border-collapse", "separate", w2);
    AppendedShows(s1, "border-collapse", "separate", w2, p);
    AppendedShows(s1, "border-collapse", "separate", w2, "box-shadow");
    AppendedShows(s1, "border-collapse", "separate", w2, "margin-bottom");
    var w3 := IsCardWrapper(style) && shadow != "" && CssProp(s2, "box-shadow") == "";
    var s3 := Appended(s2, "box-shadow", shadow, w3);
    AppendedShows(s2, "box-shadow", shadow, w3, p);
    AppendedShows(s2, "box-shadow", shadow, w3, "margin-bottom");
    AppendedShows(s3, "margin-bottom", CARD_GAP, IsCardWrapper(style) && CssProp(s3, "margin-bottom") == "", p);
  }
}
