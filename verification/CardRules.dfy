/** What the border pass does to a start tag, on every token stream: which declarations
    it adds to which tag, told from the stream alone. */
module CardRules {
  import opened Strings
  import opened Styles
  import opened Postprocess

  ghost predicate Occurs(part: string, s: string) {
    exists before, after :: s == before + part + after
  }

  lemma {:induction false} ContainsMeans(s: string, part: string)
    ensures Contains(s, part) <==> Occurs(part, s)
  {
    if part <= s {
      assert s == "" + part + s[|part|..];
    } else if s != "" {
      ContainsMeans(s[1..], part);
      if before, after :| s == before + part + after {
        assert before != "" && s[1..] == before[1..] + part + after;
      }
      if before, after :| s[1..] == before + part + after {
        assert s == [s[0]] + before + part + after;
      }
    }
  }

  /** A card: rounded, without a border, with an automatic margin. */
  ghost predicate IsCard(t: Token) {
    && t.Start? && CssProp(t.style, "border-radius") != "" && CssProp(t.style, "border") == ""
    && Occurs("auto", CssProp(t.style, "margin"))
  }

  /** How many cards a stream opens. */
  ghost function Cards(ts: seq<Token>): nat {
    if ts == [] then 0 else Cards(ts[..|ts| - 1]) + if IsCard(ts[|ts| - 1]) then 1 else 0
  }

  // Elements that are never closed.
  predicate IsVoid(tag: string) {
    tag in {"area", "base", "br", "col", "embed", "hr", "img", "input", "link", "meta", "source", "track", "wbr"}
  }

  /** The radii of the elements open at the end of a stream, "" for a square one; an end
      tag closes the last opened, whatever it is. */
  function Open(ts: seq<Token>): seq<string> {
    if ts == [] then [] else
    var open, t := Open(ts[..|ts| - 1]), ts[|ts| - 1];
    match t
    case Other(_) => open
    case End(_) => if open == [] then [] else open[..|open| - 1]
    case Start(tag, style, _) => if IsVoid(tag) then open else open + [CssProp(style, "border-radius")]
  }

  // The radius of the innermost rounded element.
  function Innermost(open: seq<string>): string {
    if open == [] then ""
    else if open[|open| - 1] != "" then open[|open| - 1]
    else Innermost(open[..|open| - 1])
  }

  // The declarations the i-th token gains.
  ghost predicate Gains(ts: seq<Token>, shadows: seq<string>, i: nat, d: Decl)
    requires i < |ts| && ts[i].Start?
  {
    var style, k := ts[i].style, Cards(ts[..i]);
    || (d.prop == "border-radius" && CssProp(style, "border") != "" && CssProp(style, "border-radius") == ""
        && d.val == Innermost(Open(ts[..i])) != "")
    || (d == Decl("border-collapse", "separate") && ts[i].tag == "table" && CssProp(style, "border-radius") != ""
        && CssProp(style, "border-collapse") == "")
    || (IsCard(ts[i]) && d.prop == "box-shadow" && CssProp(style, "box-shadow") == ""
        && k < |shadows| && d.val == shadows[k] != "")
    || (IsCard(ts[i]) && d == Decl("margin-bottom", "24px") && CssProp(style, "margin-bottom") == "")
  }

  /* ---- the pass's stack and index, told from the stream ---- */

  lemma CardTest(t: Token)
    ensures IsWrapperStart(t) <==> IsCard(t)
  {
    if t.Start? {
      ContainsMeans(CssProp(t.style, "margin"), "auto");
    }
  }

  lemma {:induction false} CardsCounted(ts: seq<Token>)
    ensures WrapperStarts(ts) == Cards(ts)
  {
    if ts != [] {
      CardsCounted(ts[..|ts| - 1]);
      CardTest(ts[|ts| - 1]);
    }
  }

  // The rounded ones, each with its depth.
  function Frames(open: seq<string>): seq<Frame> {
    if open == [] then [] else
    var n := |open| - 1;
    Frames(open[..n]) + if open[n] != "" then [Frame(n + 1, open[n])] else []
  }

  lemma {:induction false} FramesAreShallow(open: seq<string>)
    ensures forall i :: 0 <= i < |Frames(open)| ==> Frames(open)[i].depth <= |open|
    ensures Nearest(Frames(open)) == Innermost(open)
  {
    if open != [] {
      FramesAreShallow(open[..|open| - 1]);
    }
  }

  lemma FramesPop(open: seq<string>)
    requires open != []
    ensures Popped(Frames(open), |open|) == Frames(open[..|open| - 1])
  {
    var n := |open| - 1;
    var front := Frames(open[..n]);
    FramesAreShallow(open[..n]);
    assert Popped(front, n + 1) == front;
    if open[n] != "" {
      assert Frames(open)[..|front|] == front;
    }
  }

  /** On every stream, balanced or not, the sparse stack of depths and radii lists the
      rounded ones of the elements then open. */
  lemma {:induction false} StackIsOpenElements(ts: seq<Token>, shadows: seq<string>)
    ensures var s := Run(EMPTY, ts, shadows); s.depth == |Open(ts)| && s.radii == Frames(Open(ts))
  {
    if ts != [] {
      var n := |ts| - 1;
      var open, s := Open(ts[..n]), Run(EMPTY, ts[..n], shadows);
      StackIsOpenElements(ts[..n], shadows);
      assert Run(EMPTY, ts, shadows) == Step(s, ts[n], shadows);
      match ts[n] {
        case Other(_) =>
        case End(_) =>
          if open != [] {
            FramesPop(open);
          }
        case Start(tag, style, _) =>
          if !IsVoid(tag) {
            var more := open + [CssProp(style, "border-radius")];
            assert more[..|more| - 1] == open;
          }
      }
    }
  }

  /* ---- the laws ---- */

  lemma {:induction false} OtherProp(style: Style, d: Decl, p: string)
    requires d.prop != p
    ensures CssProp(style + [d], p) == CssProp(style, p)
  {
    if style == [] {
      assert [d][1..] == [];
    } else {
      OtherProp(style[1..], d, p);
      assert (style + [d])[1..] == style[1..] + [d];
    }
  }

  // A declaration, if it is added at all.
  function Added(prop: string, val: string, when: bool): Style {
    if when then [Decl(prop, val)] else []
  }

  // What an element gains, rule by rule.
  function Gained(tag: string, style: Style, inherited: string, shadow: string, card: bool): Style {
    Added("border-radius", inherited,
          CssProp(style, "border") != "" && CssProp(style, "border-radius") == "" && inherited != "") +
    Added("border-collapse", "separate",
          CssProp(style, "border-radius") != "" && tag == "table" && CssProp(style, "border-collapse") == "") +
    Added("box-shadow", shadow, card && shadow != "" && CssProp(style, "box-shadow") == "") +
    Added("margin-bottom", "24px", card && CssProp(style, "margin-bottom") == "")
  }

  lemma GainedHolds(tag: string, style: Style, inherited: string, shadow: string, card: bool, d: Decl)
    ensures d in Gained(tag, style, inherited, shadow, card) <==>
            || (d == Decl("border-radius", inherited) && CssProp(style, "border") != ""
                && CssProp(style, "border-radius") == "" && inherited != "")
            || (d == Decl("border-collapse", "separate") && CssProp(style, "border-radius") != "" && tag == "table"
                && CssProp(style, "border-collapse") == "")
            || (d == Decl("box-shadow", shadow) && card && shadow != "" && CssProp(style, "box-shadow") == "")
            || (d == Decl("margin-bottom", "24px") && card && CssProp(style, "margin-bottom") == "")
  {
    hide CssProp;
  }

  lemma GainedOnce(tag: string, style: Style, inherited: string, shadow: string, card: bool)
    ensures Once(Gained(tag, style, inherited, shadow, card))
  {
    hide CssProp;
  }

  lemma AppendedAdds(style: Style, front: Style, prop: string, val: string, when: bool)
    ensures Appended(style + front, prop, val, when) == style + (front + Added(prop, val, when))
  {
  }

  lemma AppendedOther(style: Style, prop: string, val: string, when: bool, p: string)
    requires prop != p
    ensures CssProp(Appended(style, prop, val, when), p) == CssProp(style, p)
  {
    OtherProp(style, Decl(prop, val), p);
  }

  lemma RestyledAdds(tag: string, style: Style, inherited: string, shadow: string)
    ensures Restyled(tag, style, inherited, shadow) ==
            style + Gained(tag, style, inherited, shadow, IsCardWrapper(style))
  {
    hide IsCardWrapper, Appended, Added;
    var w1 := CssProp(style, "border") != "" && CssProp(style, "border-radius") == "" && inherited != "";
    var w2 := CssProp(style, "border-radius") != "" && tag == "table" && CssProp(style, "border-collapse") == "";
    var w3 := IsCardWrapper(style) && shadow != "" && CssProp(style, "box-shadow") == "";
    var w4 := IsCardWrapper(style) && CssProp(style, "margin-bottom") == "";
    AppendedAdds(style, [], "border-radius", inherited, w1);
    AppendedOther(style, "border-radius", inherited, w1, "box-shadow");
    AppendedOther(style, "border-radius", inherited, w1, "margin-bottom");
    var s1, a := Appended(style, "border-radius", inherited, w1), Added("border-radius", inherited, w1);
    assert style + [] == style && [] + a == a;
    AppendedAdds(style, a, "border-collapse", "separate", w2);
    AppendedOther(s1, "border-collapse", "separate", w2, "box-shadow");
    AppendedOther(s1, "border-collapse", "separate", w2, "margin-bottom");
    var s2, b := Appended(s1, "border-collapse", "separate", w2), a + Added("border-collapse", "separate", w2);
    AppendedAdds(style, b, "box-shadow", shadow, w3);
    AppendedOther(s2, "box-shadow", shadow, w3, "margin-bottom");
    AppendedAdds(style, b + Added("box-shadow", shadow, w3), "margin-bottom", "24px", w4);
  }

  lemma AtPosition(ts: seq<Token>, shadows: seq<string>, i: nat)
    requires i < |ts|
    ensures var out := Run(EMPTY, ts, shadows).out;
            && |out| == |ts|
            && (!ts[i].Start? ==> out[i] == ts[i])
            && (ts[i].Start? ==>
                  out[i] == ts[i].(style := Restyled(ts[i].tag, ts[i].style, Innermost(Open(ts[..i])),
                                                     ShadowAt(shadows, Cards(ts[..i])))))
  {
    hide Restyled, IsCardWrapper;
    ShadowsByRank(ts, shadows);
    assert RestyledAt(ts, Run(EMPTY, ts, shadows).out, shadows, i);
    StackIsOpenElements(ts[..i], shadows);
    FramesAreShallow(Open(ts[..i]));
    CardsCounted(ts[..i]);
  }

  /** On every stream a start tag keeps its name, attributes and declarations and gains,
      behind them, exactly these: a bordered square element the radius of the innermost
      rounded element around it, a rounded table separate borders, and the k-th card the
      k-th shadow and the card gap, each unless declared. Nothing else changes. */
  lemma TagsGain(ts: seq<Token>, shadows: seq<string>, i: nat)
    requires i < |ts|
    ensures var out := Run(EMPTY, ts, shadows).out;
            && |out| == |ts|
            && (!ts[i].Start? ==> out[i] == ts[i])
            && (ts[i].Start? ==>
                  exists gained: Style ::
                    && out[i] == Start(ts[i].tag, ts[i].style + gained, ts[i].rest) && Once(gained)
                    && forall d :: d in gained <==> Gains(ts, shadows, i, d))
  {
    hide Restyled, Gained, CssProp, Open, Run, Innermost;
    AtPosition(ts, shadows, i);
    if ts[i].Start? {
      var tag, style := ts[i].tag, ts[i].style;
      var inherited, k := Innermost(Open(ts[..i])), Cards(ts[..i]);
      RestyledAdds(tag, style, inherited, ShadowAt(shadows, k));
      CardTest(ts[i]);
      var shadow := ShadowAt(shadows, k);
      var gained := Gained(tag, style, inherited, shadow, IsCard(ts[i]));
      GainedOnce(tag, style, inherited, shadow, IsCard(ts[i]));
      forall d ensures d in gained <==> Gains(ts, shadows, i, d) {
        GainedHolds(tag, style, inherited, shadow, IsCard(ts[i]), d);
      }
    }
  }

  /** What a mail client then sees: the k-th card has its own shadow or else the k-th
      one, and its own bottom margin or else the gap; no other element's shadow or
      bottom margin changes. */
  lemma CardShows(ts: seq<Token>, shadows: seq<string>, i: nat)
    requires i < |ts| && ts[i].Start? && NoneEmpty(ts[i].style)
    ensures var out, style, k := Run(EMPTY, ts, shadows).out, ts[i].style, Cards(ts[..i]);
            && |out| == |ts| && out[i].Start?
            && CssProp(out[i].style, "box-shadow") ==
               (if CssProp(style, "box-shadow") != "" then CssProp(style, "box-shadow")
                else if IsCard(ts[i]) && k < |shadows| then shadows[k] else "")
            && CssProp(out[i].style, "margin-bottom") ==
               (if CssProp(style, "margin-bottom") != "" then CssProp(style, "margin-bottom")
                else if IsCard(ts[i]) then "24px" else "")
  {
    AtPosition(ts, shadows, i);
    CardTest(ts[i]);
    var inherited, shadow := Innermost(Open(ts[..i])), ShadowAt(shadows, Cards(ts[..i]));
    RestyledShows(ts[i].tag, ts[i].style, inherited, shadow, "box-shadow");
    RestyledShows(ts[i].tag, ts[i].style, inherited, shadow, "margin-bottom");
  }
}
