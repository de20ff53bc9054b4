/** Inline styles as ordered declaration lists, and how one layers over another. */
module Styles {

  datatype Decl = Decl(prop: string, val: string)

  type Style = seq<Decl>

  // The first declaration of the property, "" when there is none.
  function CssProp(style: Style, prop: string): string {
    if style == [] then ""
    else if style[0].prop == prop then style[0].val
    else CssProp(style[1..], prop)
  }

  // The last non-empty value declared for the property.
  function LastValue(style: Style, prop: string): string {
    if style == [] then "" else
    var d := style[|style| - 1];
    if d.prop == prop && d.val != "" then d.val else LastValue(style[..|style| - 1], prop)
  }

  predicate Usable(d: Decl) {
    d.prop != "" && d.val != ""
  }

  predicate Declares(style: Style, prop: string) {
    exists i :: 0 <= i < |style| && style[i].prop == prop
  }

  /** No property twice, no empty value. */
  predicate Canonical(style: Style) {
    && (forall i, j :: 0 <= i < j < |style| ==> style[i].prop != style[j].prop)
    && (forall i :: 0 <= i < |style| ==> Usable(style[i]))
  }

  function Replace(style: Style, d: Decl): Style {
    seq(|style|, i requires 0 <= i < |style| => if style[i].prop == d.prop then d else style[i])
  }

  // One declaration on top of a canonical list: it keeps the property's place.
  function Put(style: Style, d: Decl): Style {
    if !Usable(d) then style
    else if Declares(style, d.prop) then Replace(style, d)
    else style + [d]
  }

  function PutAll(style: Style, more: Style): Style {
    if more == [] then style else Put(PutAll(style, more[..|more| - 1]), more[|more| - 1])
  }

  function Merge(base: Style, override: Style): Style {
    PutAll(PutAll([], base), override)
  }

  function Promoted(style: Style, allow: set<string>): Style {
    if style == [] then []
    else (if style[0].val != "" && style[0].prop in allow then [style[0]] else []) + Promoted(style[1..], allow)
  }

  // The declarations MJML exposes as attributes, under the attributes' names.
  function Mapped(style: Style, attrs: map<string, string>): Style {
    if style == [] then [] else
    (if style[0].val != "" && style[0].prop in attrs then [Decl(attrs[style[0].prop], style[0].val)] else []) +
    Mapped(style[1..], attrs)
  }

  /** mergeStyleDecls: an order list and a value map, filled declaration by
      declaration, then written out in order. */
  method MergeStyleDecls(base: Style, override: Style) returns (merged: Style)
    ensures merged == Merge(base, override)
  {
    var order: seq<string> := [];
    var vals: map<string, string> := map[];
    for pass := 0 to 2
      invariant Written(order, vals, if pass == 0 then [] else if pass == 1 then PutAll([], base) else Merge(base, override))
    {
      var css := if pass == 0 then base else override;
      ghost var start := if pass == 0 then [] else PutAll([], base);
      for i := 0 to |css|
        invariant Written(order, vals, PutAll(start, css[..i]))
      {
        var d := css[i];
        assert css[..i + 1][..i] == css[..i];
        if d.prop == "" || d.val == "" {
          continue;
        }
        PutWritten(order, vals, PutAll(start, css[..i]), d);
        if d.prop !in vals {
          order := order + [d.prop];
        }
        vals := vals[d.prop := d.val];
      }
      assert css[..|css|] == css;
    }
    merged := [];
    for i := 0 to |order|
      invariant Written(order, vals, Merge(base, override))
      invariant merged == Merge(base, override)[..i]
    {
      merged := merged + [Decl(order[i], vals[order[i]])];
    }
  }

  // The order list and value map hold exactly these declarations.
  predicate Written(order: seq<string>, vals: map<string, string>, style: Style) {
    && |order| == |style|
    && (forall i :: 0 <= i < |order| ==> order[i] in vals && style[i] == Decl(order[i], vals[order[i]]))
    && (forall p :: p in vals ==> p in order)
  }

  lemma PutWritten(order: seq<string>, vals: map<string, string>, style: Style, d: Decl)
    requires Written(order, vals, style) && Usable(d)
    ensures Written(if d.prop in vals then order else order + [d.prop], vals[d.prop := d.val], Put(style, d))
  {
  }

  lemma {:induction false} PutAllCanonical(style: Style, more: Style)
    requires Canonical(style)
    ensures Canonical(PutAll(style, more))
  {
    if more != [] {
      PutAllCanonical(style, more[..|more| - 1]);
    }
  }

  /** A merge declares each property at most once and never empty. */
  lemma MergeCanonical(base: Style, override: Style)
    ensures Canonical(Merge(base, override))
  {
    PutAllCanonical([], base);
    PutAllCanonical(PutAll([], base), override);
  }

  lemma {:induction false} CssPropAt(style: Style, prop: string, i: nat)
    requires i < |style| && style[i].prop == prop
    requires forall j :: 0 <= j < i ==> style[j].prop != prop
    ensures CssProp(style, prop) == style[i].val
  {
    if i > 0 {
      CssPropAt(style[1..], prop, i - 1);
    }
  }

  lemma {:induction false} CssPropAbsent(style: Style, prop: string)
    requires !Declares(style, prop)
    ensures CssProp(style, prop) == ""
  {
    if style != [] {
      assert style[0].prop != prop;
      forall i | 0 <= i < |style[1..]| ensures style[1..][i].prop != prop {
        assert style[i + 1].prop != prop;
      }
      CssPropAbsent(style[1..], prop);
    }
  }

  lemma PutProp(style: Style, d: Decl, prop: string)
    requires Canonical(style)
    ensures CssProp(Put(style, d), prop) == if d.prop == prop && Usable(d) then d.val else CssProp(style, prop)
  {
    var r := Put(style, d);
    if Declares(style, prop) {
      var i :| 0 <= i < |style| && style[i].prop == prop;
      CssPropAt(style, prop, i);
      CssPropAt(r, prop, i);
    } else {
      CssPropAbsent(style, prop);
      if Usable(d) && d.prop == prop {
        CssPropAt(r, prop, |style|);
      } else {
        CssPropAbsent(r, prop);
      }
    }
  }

  lemma {:induction false} PutAllProp(style: Style, more: Style, prop: string)
    requires Canonical(style) && prop != ""
    ensures CssProp(PutAll(style, more), prop) ==
            if LastValue(more, prop) != "" then LastValue(more, prop) else CssProp(style, prop)
  {
    if more != [] {
      var n := |more| - 1;
      PutAllProp(style, more[..n], prop);
      PutAllCanonical(style, more[..n]);
      PutProp(PutAll(style, more[..n]), more[n], prop);
    }
  }

  /** The override wins per property; where it is silent the base shows through. */
  lemma MergeRightBiased(base: Style, override: Style, prop: string)
    requires prop != ""
    ensures CssProp(Merge(base, override), prop) ==
            if LastValue(override, prop) != "" then LastValue(override, prop) else LastValue(base, prop)
  {
    PutAllCanonical([], base);
    PutAllProp([], base, prop);
    PutAllProp(PutAll([], base), override, prop);
  }

  lemma PutSwaps(style: Style, d: Decl, e: Decl)
    requires Declares(style, d.prop) && d.prop != e.prop
    ensures Put(Put(style, d), e) == Put(Put(style, e), d)
  {
    var i :| 0 <= i < |style| && style[i].prop == d.prop;
    var x, y := Put(style, d), Put(style, e);
    assert y[i].prop == d.prop;
    if Usable(d) && Usable(e) {
      assert |x| == |style| && forall j :: 0 <= j < |style| ==> x[j].prop == style[j].prop;
      if Declares(style, e.prop) {
        var k :| 0 <= k < |style| && style[k].prop == e.prop;
        assert x[k].prop == e.prop;
      } else {
        assert !Declares(x, e.prop);
        assert Replace(style + [e], d) == Replace(style, d) + [e];
      }
    }
  }

  lemma PutTwice(style: Style, d: Decl, e: Decl)
    requires d.prop == e.prop && Usable(d) && Usable(e)
    ensures Put(Put(style, d), e) == Put(style, e)
    ensures Declares(Put(style, d), d.prop)
  {
    if !Declares(style, d.prop) {
      assert (style + [d])[|style|].prop == d.prop;
    } else {
      var i :| 0 <= i < |style| && style[i].prop == d.prop;
      assert Replace(style, d)[i].prop == d.prop;
    }
  }

  lemma PutDeclares(style: Style, d: Decl, prop: string)
    requires Declares(style, prop)
    ensures Declares(Put(style, d), prop)
  {
    var i :| 0 <= i < |style| && style[i].prop == prop;
    assert Put(style, d)[i].prop == prop;
  }

  lemma {:induction false} PutAllDeclares(style: Style, more: Style, i: nat)
    requires i < |more| && Usable(more[i])
    ensures Declares(PutAll(style, more), more[i].prop)
  {
    var n := |more| - 1;
    if i < n {
      PutAllDeclares(style, more[..n], i);
      PutDeclares(PutAll(style, more[..n]), more[n], more[i].prop);
    } else {
      PutTwice(PutAll(style, more[..n]), more[n], more[n]);
    }
  }

  lemma PutAllLast(style: Style, front: Style, last: Decl)
    ensures PutAll(style, front + [last]) == Put(PutAll(style, front), last)
  {
    assert (front + [last])[..|front|] == front;
  }

  // Changing one declaration before or after layering the list is the same.
  lemma {:induction false} PutAllReplaced(style: Style, more: Style, i: nat, d: Decl)
    requires Canonical(style) && Canonical(more) && i < |more| && more[i].prop == d.prop && Usable(d)
    ensures PutAll(style, more[i := d]) == Put(PutAll(style, more), d)
  {
    var n := |more| - 1;
    var front, last := more[..n], more[n];
    var below := PutAll(style, front);
    assert more == front + [last];
    PutAllLast(style, front, last);
    if i == n {
      assert more[i := d] == front + [d];
      PutAllLast(style, front, d);
      PutTwice(below, last, d);
    } else {
      assert more[i := d] == front[i := d] + [last];
      PutAllLast(style, front[i := d], last);
      PutAllReplaced(style, front, i, d);
      PutAllDeclares(style, front, i);
      PutSwaps(below, d, last);
    }
  }

  // Layering a list is the same as layering what it amounts to.
  lemma {:induction false} PutAllOfCanonical(style: Style, more: Style)
    requires Canonical(style)
    ensures PutAll(style, PutAll([], more)) == PutAll(style, more)
  {
    if more != [] {
      var n := |more| - 1;
      var short, d := PutAll([], more[..n]), more[n];
      PutAllOfCanonical(style, more[..n]);
      PutAllCanonical([], more[..n]);
      if Usable(d) {
        if Declares(short, d.prop) {
          var i :| 0 <= i < |short| && short[i].prop == d.prop;
          assert Replace(short, d) == short[i := d];
          PutAllReplaced(style, short, i, d);
        } else {
          assert (short + [d])[..|short|] == short;
        }
      }
    }
  }

  lemma {:induction false} PutAllConcat(style: Style, a: Style, b: Style)
    ensures PutAll(style, a + b) == PutAll(PutAll(style, a), b)
  {
    if b == [] {
      assert a + b == a;
    } else {
      var n := |b| - 1;
      var front, last := b[..n], b[n];
      assert b == front + [last] && a + b == (a + front) + [last];
      PutAllConcat(style, a, front);
      PutAllLast(style, a + front, last);
      PutAllLast(PutAll(style, a), front, last);
    }
  }

  // Where the property is first given a value, the length if nowhere.
  function FirstAt(style: Style, prop: string): nat {
    if style == [] then 0
    else if style[0].prop == prop && style[0].val != "" then 0
    else 1 + FirstAt(style[1..], prop)
  }

  lemma {:induction false} FirstAtStays(style: Style, d: Decl, prop: string)
    ensures FirstAt(style, prop) <= |style|
    ensures FirstAt(style, prop) < |style| ==> FirstAt(style + [d], prop) == FirstAt(style, prop)
    ensures FirstAt(style, prop) == |style| && d.prop == prop && d.val != "" ==> FirstAt(style + [d], prop) == |style|
  {
    if style == [] {
      assert [d][1..] == [];
    } else {
      FirstAtStays(style[1..], d, prop);
      assert (style + [d])[0] == style[0] && (style + [d])[1..] == style[1..] + [d];
    }
  }

  // Properties stand where they are first given a value.
  ghost predicate InFirstOrder(merged: Style, style: Style) {
    && (forall i :: 0 <= i < |merged| ==> FirstAt(style, merged[i].prop) < |style|)
    && (forall i, j :: 0 <= i < j < |merged| ==> FirstAt(style, merged[i].prop) < FirstAt(style, merged[j].prop))
    && (forall p :: p != "" && FirstAt(style, p) < |style| ==> Declares(merged, p))
  }

  lemma PutInFirstOrder(merged: Style, style: Style, d: Decl)
    requires InFirstOrder(merged, style)
    ensures InFirstOrder(Put(merged, d), style + [d])
  {
    var r, longer := Put(merged, d), style + [d];
    forall p ensures FirstAt(style, p) <= |style| && (FirstAt(style, p) < |style| ==> FirstAt(longer, p) == FirstAt(style, p))
             ensures FirstAt(style, p) == |style| && d.prop == p && d.val != "" ==> FirstAt(longer, p) == |style| {
      FirstAtStays(style, d, p);
    }
    forall i | 0 <= i < |merged| ensures r[i].prop == merged[i].prop {}
    forall p | p != "" && FirstAt(longer, p) < |longer| ensures Declares(r, p) {
      FirstAtEnd(style, d, p);
      if FirstAt(style, p) < |style| {
        PutDeclares(merged, d, p);
      } else {
        PutTwice(merged, d, d);
      }
    }
  }

  lemma {:induction false} FirstAtEnd(style: Style, d: Decl, prop: string)
    requires FirstAt(style + [d], prop) <= |style|
    ensures FirstAt(style, prop) < |style| || (d.prop == prop && d.val != "")
  {
    if style == [] {
      assert [d][1..] == [];
    } else {
      assert (style + [d])[0] == style[0] && (style + [d])[1..] == style[1..] + [d];
      if !(style[0].prop == prop && style[0].val != "") {
        FirstAtEnd(style[1..], d, prop);
      }
    }
  }

  lemma {:induction false} PutAllInFirstOrder(style: Style)
    ensures InFirstOrder(PutAll([], style), style)
  {
    if style != [] {
      var n := |style| - 1;
      PutAllInFirstOrder(style[..n]);
      PutInFirstOrder(PutAll([], style[..n]), style[..n], style[n]);
      assert style == style[..n] + [style[n]];
    }
  }

  /** A merge declares every property that either style sets, in the order in which they
      are first set, the base's first. */
  lemma MergeKeepsOrder(base: Style, override: Style)
    ensures InFirstOrder(Merge(base, override), base + override)
  {
    PutAllConcat([], base, override);
    PutAllInFirstOrder(base + override);
  }

  /** Layering is associative. */
  lemma MergeAssociative(a: Style, b: Style, c: Style)
    ensures Merge(Merge(a, b), c) == Merge(a, Merge(b, c))
  {
    var x := PutAll([], a);
    PutAllCanonical([], a);
    PutAllConcat([], a, b);
    PutAllOfCanonical([], a + b);
    PutAllConcat([], b, c);
    PutAllOfCanonical(x, b + c);
    PutAllConcat(x, b, c);
  }

  /* ---- what promotion and merging do to one property ---- */

  predicate Absent(style: Style, prop: string) {
    forall i :: 0 <= i < |style| ==> style[i].prop == prop ==> style[i].val == ""
  }

  predicate Once(style: Style) {
    forall i, j :: 0 <= i < j < |style| ==> style[i].prop != style[j].prop
  }

  lemma {:induction false} PromotedProp(style: Style, allow: set<string>, prop: string)
    requires prop in allow && Once(style)
    ensures CssProp(Promoted(style, allow), prop) == CssProp(style, prop)
  {
    if style != [] {
      PromotedProp(style[1..], allow, prop);
      var rest := Promoted(style[1..], allow);
      if style[0].val != "" && style[0].prop in allow {
        assert ([style[0]] + rest)[1..] == rest;
      } else {
        assert [] + rest == rest;
        if style[0].prop == prop {
          PromotedAbsent(style[1..], allow, prop);
        }
      }
    }
  }

  lemma {:induction false} PromotedAbsent(style: Style, allow: set<string>, prop: string)
    requires Absent(style, prop)
    ensures CssProp(Promoted(style, allow), prop) == ""
  {
    if style != [] {
      PromotedAbsent(style[1..], allow, prop);
      var rest := Promoted(style[1..], allow);
      assert ([style[0]] + rest)[1..] == rest;
      assert [] + rest == rest;
    }
  }

  lemma {:induction false} LastValueAbsent(style: Style, prop: string)
    requires Absent(style, prop)
    ensures LastValue(style, prop) == ""
  {
    if style != [] {
      LastValueAbsent(style[..|style| - 1], prop);
    }
  }

  lemma {:induction false} LastValueOnce(style: Style, prop: string)
    requires Once(style)
    ensures LastValue(style, prop) == CssProp(style, prop)
  {
    if style != [] {
      var n := |style| - 1;
      LastValueOnce(style[..n], prop);
      if Declares(style[..n], prop) {
        var i :| 0 <= i < n && style[..n][i].prop == prop;
        CssPropAt(style, prop, i);
        CssPropAt(style[..n], prop, i);
      } else {
        CssPropAbsent(style[..n], prop);
        if style[n].prop == prop {
          forall j | 0 <= j < n ensures style[j].prop != prop { assert style[..n][j].prop != prop; }
          CssPropAt(style, prop, n);
        } else {
          forall i | 0 <= i < |style| ensures style[i].prop != prop { assert i < n ==> style[..n][i].prop != prop; }
          CssPropAbsent(style, prop);
        }
      }
    }
  }

  /** A merge over a style silent on the property shows the base's. */
  lemma MergeShows(base: Style, override: Style, prop: string)
    requires prop != "" && Absent(override, prop)
    ensures CssProp(Merge(base, override), prop) == LastValue(base, prop)
    ensures LastValue(Merge(base, override), prop) == LastValue(base, prop)
    ensures Once(Merge(base, override))
  {
    LastValueAbsent(override, prop);
    MergeRightBiased(base, override, prop);
    MergeCanonical(base, override);
    LastValueOnce(Merge(base, override), prop);
  }
}
