/** Per-block outer spacing: pixel shorthands expanded to four sides, summed, and
    written back as the shortest shorthand (section 8.4 of CSS 2.1). */
module Spacing {
  import opened Strings
  import opened Wrappers
  import opened Markup
  import opened Translation
  import Bind
  import Layout
  import TranslationLaws

  const INT_MAX := 0x7fff_ffff_ffff_ffff
  const INT_MIN := -0x8000_0000_0000_0000

  // Go's int is 64 bits wide and wraps on overflow.
  predicate Fits(x: int) {
    INT_MIN <= x <= INT_MAX
  }

  function Wrapped(x: int): (w: int)
    ensures Fits(w)
    ensures w == x <==> Fits(x)
  {
    (x - INT_MIN) % 0x1_0000_0000_0000_0000 + INT_MIN
  }

  /** Top, right, bottom, left. */
  type Sides = s: seq<int> | |s| == 4 witness [0, 0, 0, 0]

  predicate AllFit(vals: seq<int>) {
    forall i :: 0 <= i < |vals| ==> Fits(vals[i])
  }

  /* ---- decimal integers ---- */

  predicate IsDigit(c: char) {
    '0' <= c <= '9'
  }

  function DigitOf(d: nat): char
    requires d < 10
  {
    '0' + d as char
  }

  function ValueOf(c: char): nat
    requires IsDigit(c)
  {
    c as int - '0' as int
  }

  function Decimal(n: nat): string {
    (if n < 10 then "" else Decimal(n / 10)) + [DigitOf(n % 10)]
  }

  function Itoa(n: int): string {
    if n < 0 then "-" + Decimal(-n) else Decimal(n)
  }

  predicate Digits(s: string) {
    s != "" && forall i :: 0 <= i < |s| ==> IsDigit(s[i])
  }

  function Number(s: string): nat
    requires forall i :: 0 <= i < |s| ==> IsDigit(s[i])
  {
    if s == "" then 0 else 10 * Number(s[..|s| - 1]) + ValueOf(s[|s| - 1])
  }

  // strconv.Atoi: an optional sign, digits, in range.
  function Atoi(s: string): Option<int> {
    var signed := s != "" && (s[0] == '-' || s[0] == '+');
    var body := if signed then s[1..] else s;
    if !Digits(body) then None else
    var n: int := if signed && s[0] == '-' then 0 - Number(body) else Number(body);
    if Fits(n) then Some(n) else None
  }

  lemma DigitReads(d: nat)
    requires d < 10
    ensures IsDigit(DigitOf(d)) && ValueOf(DigitOf(d)) == d
  {
  }

  lemma OneMoreDigit(s: string, c: char)
    requires (s == "" || Digits(s)) && IsDigit(c)
    ensures Digits(s + [c]) && Number(s + [c]) == 10 * Number(s) + ValueOf(c)
  {
    assert (s + [c])[..|s|] == s;
  }

  lemma {:induction false} DecimalReads(n: nat)
    ensures Digits(Decimal(n)) && Number(Decimal(n)) == n
  {
    var front := if n < 10 then "" else Decimal(n / 10);
    if n >= 10 {
      DecimalReads(n / 10);
    }
    DigitReads(n % 10);
    OneMoreDigit(front, DigitOf(n % 10));
  }

  lemma AtoiUnsigned(digits: string)
    requires Digits(digits) && Fits(Number(digits))
    ensures Atoi(digits) == Some(Number(digits))
  {
  }

  lemma AtoiNegative(digits: string)
    requires Digits(digits) && Fits(0 - Number(digits))
    ensures Atoi("-" + digits) == Some(0 - Number(digits))
  {
  }

  lemma AtoiItoa(n: int)
    requires Fits(n)
    ensures Atoi(Itoa(n)) == Some(n)
  {
    if n < 0 {
      DecimalReads(-n);
      AtoiNegative(Decimal(-n));
    } else {
      DecimalReads(n);
      AtoiUnsigned(Decimal(n));
    }
  }

  /* ---- pixel tokens ---- */

  function SkipSpaces(s: string): string {
    if s != "" && IsSpace(s[0]) then SkipSpaces(s[1..]) else s
  }

  function Word(s: string): (w: string)
    ensures w <= s && (s != "" && !IsSpace(s[0]) ==> w != "")
  {
    if s == "" || IsSpace(s[0]) then "" else [s[0]] + Word(s[1..])
  }

  // strings.Fields.
  function Fields(s: string): seq<string>
    decreases |s|
  {
    var t := SkipSpaces(s);
    SkipShortens(s);
    if t == "" then [] else
    var w := Word(t);
    [w] + Fields(t[|w|..])
  }

  lemma {:induction false} SkipShortens(s: string)
    ensures |SkipSpaces(s)| <= |s|
    ensures SkipSpaces(s) != "" ==> !IsSpace(SkipSpaces(s)[0])
  {
    if s != "" && IsSpace(s[0]) {
      SkipShortens(s[1..]);
    }
  }

  function Px(n: int): string {
    if n == 0 then "0" else Itoa(n) + "px"
  }

  // Tokens come out of Fields without spaces, so nothing is left to trim.
  function ParsePx(tok: string): Option<int> {
    if tok == "0" then Some(0)
    else if |tok| < 2 || tok[|tok| - 2..] != "px" then None
    else Atoi(tok[..|tok| - 2])
  }

  lemma ParsePxOfPx(n: int)
    requires Fits(n)
    ensures ParsePx(Px(n)) == Some(n)
  {
    if n != 0 {
      AtoiItoa(n);
      assert Px(n)[|Px(n)| - 2..] == "px" && Px(n)[..|Px(n)| - 2] == Itoa(n);
    }
  }

  /* ---- shorthands ---- */

  function Values(toks: seq<string>): Option<seq<int>> {
    if toks == [] then Some([]) else
    match ParsePx(toks[|toks| - 1])
    case None => None
    case Some(v) => (match Values(toks[..|toks| - 1]) case None => None case Some(vs) => Some(vs + [v]))
  }

  function SidesOf(vals: seq<int>): Option<Sides> {
    if |vals| == 1 then Some([vals[0], vals[0], vals[0], vals[0]])
    else if |vals| == 2 then Some([vals[0], vals[1], vals[0], vals[1]])
    else if |vals| == 3 then Some([vals[0], vals[1], vals[2], vals[1]])
    else if |vals| == 4 then Some(vals)
    else None
  }

  function ExpandTokens(toks: seq<string>): Option<Sides> {
    match Values(toks)
    case None => None
    case Some(vals) => SidesOf(vals)
  }

  function Expand(s: string): Option<Sides> {
    ExpandTokens(Fields(s))
  }

  // The values the shortest shorthand writes.
  function Shortest(v: Sides): seq<int> {
    if v[0] == v[1] == v[2] == v[3] then [v[0]]
    else if v[0] == v[2] && v[1] == v[3] then [v[0], v[1]]
    else if v[1] == v[3] then [v[0], v[1], v[2]]
    else v
  }

  function Join(toks: seq<string>): string {
    if toks == [] then ""
    else if |toks| == 1 then toks[0]
    else toks[0] + " " + Join(toks[1..])
  }

  function Written(vals: seq<int>): (toks: seq<string>)
    ensures |toks| == |vals| && forall i :: 0 <= i < |vals| ==> toks[i] == Px(vals[i])
  {
    seq(|vals|, i requires 0 <= i < |vals| => Px(vals[i]))
  }

  function Collapse(v: Sides): string {
    Join(Written(Shortest(v)))
  }

  method ExpandPxShorthand(s: string) returns (r: Option<Sides>)
    ensures r == Expand(s)
  {
    var fields := Fields(s);
    var vals: seq<int> := [];
    for i := 0 to |fields|
      invariant Values(fields[..i]) == Some(vals)
    {
      assert fields[..i + 1][..i] == fields[..i];
      var px := ParsePx(fields[i]);
      if px.None? {
        FirstBadToken(fields, i);
        return None;
      }
      vals := vals + [px.value];
    }
    assert fields[..|fields|] == fields;
    match |vals| {
      case 1 => r := Some([vals[0], vals[0], vals[0], vals[0]]);
      case 2 => r := Some([vals[0], vals[1], vals[0], vals[1]]);
      case 3 => r := Some([vals[0], vals[1], vals[2], vals[1]]);
      case 4 =>
        assert vals == [vals[0], vals[1], vals[2], vals[3]];
        r := Some([vals[0], vals[1], vals[2], vals[3]]);
      case _ => r := None;
    }
  }

  lemma {:induction false} FirstBadToken(toks: seq<string>, i: nat)
    requires i < |toks| && ParsePx(toks[i]).None?
    ensures Values(toks).None?
  {
    if i < |toks| - 1 {
      FirstBadToken(toks[..|toks| - 1], i);
    }
  }

  lemma Assoc(a: string, b: string, c: string)
    ensures a + (b + c) == a + b + c
  {
  }

  lemma JoinTwo(a: string, b: string)
    ensures Join([a]) == a && Join([a, b]) == a + " " + b
  {
  }

  lemma JoinThree(a: string, b: string, c: string)
    ensures Join([a, b, c]) == a + " " + b + " " + c
  {
    JoinTwo(b, c);
    assert [a, b, c][1..] == [b, c];
    Assoc(a + " ", b + " ", c);
    Assoc(a + " ", b, " ");
  }

  lemma JoinFour(a: string, b: string, c: string, d: string)
    ensures Join([a, b, c, d]) == a + " " + b + " " + c + " " + d
  {
    JoinThree(b, c, d);
    assert [a, b, c, d][1..] == [b, c, d];
    var front, two := a + " ", b + " " + c;
    Assoc(front, two + " ", d);
    Assoc(front, two, " ");
    Assoc(front, b + " ", c);
    Assoc(front, b, " ");
  }

  lemma CollapseText(v: Sides)
    ensures var t, r, b, l := Px(v[0]), Px(v[1]), Px(v[2]), Px(v[3]);
            Collapse(v) == match |Shortest(v)|
                           case 1 => t
                           case 2 => t + " " + r
                           case 3 => t + " " + r + " " + b
                           case _ => t + " " + r + " " + b + " " + l
  {
    var t, r, b, l := Px(v[0]), Px(v[1]), Px(v[2]), Px(v[3]);
    var toks := Written(Shortest(v));
    JoinTwo(t, r);
    JoinThree(t, r, b);
    JoinFour(t, r, b, l);
    match |Shortest(v)| {
      case 1 => assert toks == [t];
      case 2 => assert toks == [t, r];
      case 3 => assert toks == [t, r, b];
      case _ => assert toks == [t, r, b, l];
    }
  }

  method CollapsePxShorthand(v: Sides) returns (s: string)
    ensures s == Collapse(v)
  {
    CollapseText(v);
    var top, right, bottom, left := v[0], v[1], v[2], v[3];
    if top == right && right == bottom && bottom == left {
      s := Px(top);
    } else if top == bottom && right == left {
      s := Px(top) + " " + Px(right);
    } else if right == left {
      s := Px(top) + " " + Px(right) + " " + Px(bottom);
    } else {
      s := Px(top) + " " + Px(right) + " " + Px(bottom) + " " + Px(left);
    }
  }

  function Sum(p: Sides, m: Sides): Sides {
    seq(4, i requires 0 <= i < 4 => Wrapped(p[i] + m[i]))
  }

  method AddSides(p: Sides, m: Sides) returns (sum: Sides)
    ensures sum == Sum(p, m)
  {
    var out: seq<int> := [];
    for i := 0 to 4
      invariant |out| == i && forall k :: 0 <= k < i ==> out[k] == Sum(p, m)[k]
    {
      out := out + [Wrapped(p[i] + m[i])];
    }
    sum := out;
  }

  /** Padding and margin folded into one padding: "" when neither is set, the one that
      is set verbatim, the sum of two pixel shorthands, else the padding. */
  method CombineSpacing(padding: string, margin: string) returns (combined: string)
    ensures padding == "" ==> combined == margin
    ensures margin == "" ==> combined == padding
    ensures padding != "" && margin != "" && Expand(padding).Some? && Expand(margin).Some? ==>
              combined == Collapse(Sum(Expand(padding).value, Expand(margin).value))
    ensures padding != "" && margin != "" && (Expand(padding).None? || Expand(margin).None?) ==> combined == padding
  {
    if padding == "" && margin == "" {
      return "";
    }
    if margin == "" {
      return padding;
    }
    if padding == "" {
      return margin;
    }
    var p := ExpandPxShorthand(padding);
    var m := ExpandPxShorthand(margin);
    if p.None? || m.None? {
      return padding;
    }
    var sum := AddSides(p.value, m.value);
    combined := CollapsePxShorthand(sum);
  }

  /* ---- laws ---- */

  lemma {:induction false} WordStops(w: string, rest: string)
    requires NoSpaces(w)
    requires rest == "" || IsSpace(rest[0])
    ensures Word(w + rest) == w
  {
    if w == "" {
      assert w + rest == rest;
    } else {
      WordStops(w[1..], rest);
      assert (w + rest)[1..] == w[1..] + rest;
      assert w == [w[0]] + w[1..];
    }
  }

  predicate NoSpaces(s: string) {
    forall i :: 0 <= i < |s| ==> !IsSpace(s[i])
  }

  lemma DigitsHaveNoSpaces(digits: string)
    requires Digits(digits)
    ensures NoSpaces(digits + "px") && NoSpaces("-" + digits + "px")
  {
  }

  lemma PxHasNoSpaces(n: int)
    ensures Px(n) != "" && NoSpaces(Px(n))
  {
    if n < 0 {
      DecimalReads(-n);
      DigitsHaveNoSpaces(Decimal(-n));
    } else {
      DecimalReads(n);
      DigitsHaveNoSpaces(Decimal(n));
    }
  }

  lemma LeadingSpace(s: string)
    ensures Fields(" " + s) == Fields(s)
  {
  }

  lemma FirstField(w: string, rest: string)
    requires w != "" && NoSpaces(w) && (rest == "" || IsSpace(rest[0]))
    ensures Fields(w + rest) == [w] + Fields(rest)
  {
    WordStops(w, rest);
    assert (w + rest)[0] == w[0] && SkipSpaces(w + rest) == w + rest;
    assert (w + rest)[|w|..] == rest;
  }

  lemma NextField(w: string, s: string)
    requires w != "" && NoSpaces(w)
    ensures Fields(w + " " + s) == [w] + Fields(s)
    ensures Fields(w) == [w]
  {
    FirstField(w, " " + s);
    LeadingSpace(s);
    Assoc(w, " ", s);
    FirstField(w, "");
    assert w + "" == w;
  }

  // Splitting joined tokens gives them back.
  lemma {:induction false} FieldsOfJoin(toks: seq<string>)
    requires forall i :: 0 <= i < |toks| ==> toks[i] != "" && NoSpaces(toks[i])
    ensures Fields(Join(toks)) == toks
  {
    if toks != [] {
      NextField(toks[0], Join(toks[1..]));
      FieldsOfJoin(toks[1..]);
      assert toks == [toks[0]] + toks[1..];
    }
  }

  lemma {:induction false} ValuesOf(toks: seq<string>, vals: seq<int>)
    requires |toks| == |vals| && forall i :: 0 <= i < |vals| ==> ParsePx(toks[i]) == Some(vals[i])
    ensures Values(toks) == Some(vals)
  {
    if vals != [] {
      var n := |vals| - 1;
      ValuesOf(toks[..n], vals[..n]);
      assert vals[..n] + [vals[n]] == vals;
    }
  }

  lemma ReadsBack(vals: seq<int>)
    requires AllFit(vals)
    ensures Fields(Join(Written(vals))) == Written(vals) && Values(Written(vals)) == Some(vals)
  {
    var toks := Written(vals);
    forall i | 0 <= i < |vals| ensures toks[i] != "" && NoSpaces(toks[i]) && ParsePx(toks[i]) == Some(vals[i]) {
      PxHasNoSpaces(vals[i]);
      ParsePxOfPx(vals[i]);
    }
    FieldsOfJoin(toks);
    ValuesOf(toks, vals);
  }

  /** Expanding a collapsed quadruple gives it back. */
  lemma ExpandCollapse(v: Sides)
    requires AllFit(v)
    ensures Expand(Collapse(v)) == Some(v)
  {
    ShortestExpands(v);
    ReadsBack(Shortest(v));
  }

  lemma ShortestExpands(v: Sides)
    ensures SidesOf(Shortest(v)) == Some(v) && (AllFit(v) ==> AllFit(Shortest(v)))
  {
    assert v == [v[0], v[1], v[2], v[3]];
  }

  lemma {:induction false} ValuesLength(toks: seq<string>)
    ensures Values(toks).Some? ==> |Values(toks).value| == |toks|
  {
    if toks != [] {
      ValuesLength(toks[..|toks| - 1]);
    }
  }

  lemma {:induction false} ValuesFit(toks: seq<string>)
    ensures Values(toks).Some? ==> AllFit(Values(toks).value)
  {
    if toks != [] {
      ValuesFit(toks[..|toks| - 1]);
    }
  }

  lemma FewestValues(vals: seq<int>, v: Sides)
    requires SidesOf(vals) == Some(v)
    ensures |Shortest(v)| <= |vals|
  {
  }

  lemma CollapsedLength(v: Sides)
    requires AllFit(v)
    ensures |Fields(Collapse(v))| == |Shortest(v)|
  {
    ShortestExpands(v);
    ReadsBack(Shortest(v));
  }

  lemma NoFewerTokens(toks: seq<string>, v: Sides)
    requires ExpandTokens(toks) == Some(v)
    ensures AllFit(v) && |Shortest(v)| <= |toks|
  {
    ValuesFit(toks);
    ValuesLength(toks);
    FewestValues(Values(toks).value, v);
  }

  /** No equivalent shorthand uses fewer values. */
  lemma CollapseIsShortest(s: string, v: Sides)
    requires Expand(s) == Some(v)
    ensures |Fields(Collapse(v))| <= |Fields(s)|
  {
    NoFewerTokens(Fields(s), v);
    CollapsedLength(v);
  }

  function Exact(p: Sides, m: Sides): Sides {
    seq(4, i requires 0 <= i < 4 => p[i] + m[i])
  }

  lemma SumIsExactIff(p: Sides, m: Sides)
    ensures AllFit(Sum(p, m))
    ensures Sum(p, m) == Exact(p, m) <==> AllFit(Exact(p, m))
  {
  }

  /** Two pixel shorthands combine into one that expands to their component-wise sum,
      exactly when no side overflows. */
  lemma CombinedIsSum(p: Sides, m: Sides)
    ensures Expand(Collapse(Sum(p, m))) == Some(Sum(p, m))
    ensures Expand(Collapse(Sum(p, m))) == Some([p[0] + m[0], p[1] + m[1], p[2] + m[2], p[3] + m[3]]) <==>
            forall i :: 0 <= i < 4 ==> -0x8000_0000_0000_0000 <= p[i] + m[i] <= 0x7fff_ffff_ffff_ffff
  {
    assert Exact(p, m) == [p[0] + m[0], p[1] + m[1], p[2] + m[2], p[3] + m[3]];
    assert AllFit(Exact(p, m)) <==> forall i :: 0 <= i < 4 ==> INT_MIN <= p[i] + m[i] <= INT_MAX by {
      assert forall i :: 0 <= i < 4 ==> Exact(p, m)[i] == p[i] + m[i];
    }
    SumIsExactIff(p, m);
    ExpandCollapse(Sum(p, m));
  }

  lemma ReadsValues(vals: seq<int>, toks: seq<string>)
    requires AllFit(vals) && |toks| == |vals| && forall i :: 0 <= i < |vals| ==> toks[i] == Px(vals[i])
    ensures Expand(Join(toks)) == SidesOf(vals)
  {
    hide Px, Fields, Join, Values, SidesOf;
    ReadsBack(vals);
    assert toks == Written(vals);
  }

  /** One value is all four sides, two are vertical and horizontal, three top,
      horizontal and bottom, four clockwise from the top. */
  lemma ShorthandMeans(a: int, b: int, c: int, d: int)
    requires Fits(a) && Fits(b) && Fits(c) && Fits(d)
    ensures Expand(Px(a)) == Some([a, a, a, a])
    ensures Expand(Px(a) + " " + Px(b)) == Some([a, b, a, b])
    ensures Expand(Px(a) + " " + Px(b) + " " + Px(c)) == Some([a, b, c, b])
    ensures Expand(Px(a) + " " + Px(b) + " " + Px(c) + " " + Px(d)) == Some([a, b, c, d])
  {
    JoinTwo(Px(a), Px(b));
    JoinThree(Px(a), Px(b), Px(c));
    JoinFour(Px(a), Px(b), Px(c), Px(d));
    hide Join, Px, Expand;
    ReadsValues([a], [Px(a)]);
    ReadsValues([a, b], [Px(a), Px(b)]);
    ReadsValues([a, b, c], [Px(a), Px(b), Px(c)]);
    ReadsValues([a, b, c, d], [Px(a), Px(b), Px(c), Px(d)]);
  }

  /* ---- the wrapper ---- */

  function TrimRight(s: string): string {
    if s != "" && IsSpace(s[|s| - 1]) then TrimRight(s[..|s| - 1]) else s
  }

  // normalizeSpacing: "" for anything but a string that is more than blank or "0px".
  function Normalized(v: Layout.Value): string {
    if !v.Str? then "" else
    var t := TrimRight(SkipSpaces(v.text));
    if t == "0px" then "" else t
  }

  // A text that is t with white space around it.
  ghost predicate TrimsTo(s: string, t: string) {
    exists before, after :: IsBlank(before) && IsBlank(after) && s == before + t + after
  }

  predicate NoOuterSpace(t: string) {
    t == "" || (!IsSpace(t[0]) && !IsSpace(t[|t| - 1]))
  }

  /** What a block's content asks for under a key: nothing unless it is a string that is
      more than blank or "0px". */
  ghost predicate Asks(content: Bind.Content, key: string, t: string) {
    var v := Bind.FieldOf(content, key);
    if v.Str? && !TrimsTo(v.text, "") && !TrimsTo(v.text, "0px") then NoOuterSpace(t) && TrimsTo(v.text, t) else t == ""
  }

  // The two requests in one.
  function Folded(padding: string, margin: string): string {
    if margin == "" then padding
    else if padding == "" then margin
    else if Expand(padding).Some? && Expand(margin).Some? then Collapse(Sum(Expand(padding).value, Expand(margin).value))
    else padding
  }

  /** applyBlockSpacing: a block that asks for no spacing is left exactly as it was; any
      other gets one wrapper with what it asks for. */
  method ApplyBlockSpacing(b: Layout.Block, bound: seq<Node>) returns (out: seq<Node>)
    ensures forall p, m :: Asks(b.content, "_spacing_padding", p) && Asks(b.content, "_spacing_margin", m) ==>
                             out == if p == "" && m == "" then bound
                                    else [El(SpacingWrapper, Attrs([], "", Folded(p, m), map[]), bound)]
  {
    var padding := Normalized(Bind.FieldOf(b.content, "_spacing_padding"));
    var margin := Normalized(Bind.FieldOf(b.content, "_spacing_margin"));
    forall t ensures Asks(b.content, "_spacing_padding", t) <==> t == padding
             ensures Asks(b.content, "_spacing_margin", t) <==> t == margin {
      AsksNormalized(b.content, "_spacing_padding", t);
      AsksNormalized(b.content, "_spacing_margin", t);
    }
    FoldedIsSomething(padding, margin);
    var combined := CombineSpacing(padding, margin);
    out := Spaced(combined, bound);
  }

  lemma {:induction false} SkipsBlank(before: string, t: string)
    requires IsBlank(before) && (t == "" || !IsSpace(t[0]))
    ensures SkipSpaces(before + t) == t
  {
    if before == "" {
      assert before + t == t;
    } else {
      SkipsBlank(before[1..], t);
      assert (before + t)[1..] == before[1..] + t;
    }
  }

  lemma {:induction false} TrimsBlank(t: string, after: string)
    requires IsBlank(after) && (t == "" || !IsSpace(t[|t| - 1]))
    ensures TrimRight(t + after) == t
  {
    if after == "" {
      assert t + after == t;
    } else {
      var n := |after| - 1;
      TrimsBlank(t, after[..n]);
      assert (t + after)[..|t| + n] == t + after[..n] && (t + after)[|t| + n] == after[n];
    }
  }

  lemma {:induction false} SkippedIsBlank(s: string) returns (before: string)
    ensures IsBlank(before) && s == before + SkipSpaces(s)
  {
    if s != "" && IsSpace(s[0]) {
      var rest := SkippedIsBlank(s[1..]);
      before := [s[0]] + rest;
      assert s == [s[0]] + s[1..];
    } else {
      before := "";
    }
  }

  lemma {:induction false} TrimmedIsBlank(s: string) returns (after: string)
    ensures IsBlank(after) && s == TrimRight(s) + after
  {
    if s != "" && IsSpace(s[|s| - 1]) {
      var n := |s| - 1;
      var rest := TrimmedIsBlank(s[..n]);
      after := rest + [s[n]];
      assert s == s[..n] + [s[n]];
    } else {
      after := "";
    }
  }

  lemma {:induction false} KeepsNoSpace(s: string)
    ensures s == "" || IsSpace(s[0]) || (TrimRight(s) != "" && TrimRight(s)[0] == s[0])
    ensures TrimRight(s) == "" || !IsSpace(TrimRight(s)[|TrimRight(s)| - 1])
  {
    if s != "" && IsSpace(s[|s| - 1]) {
      KeepsNoSpace(s[..|s| - 1]);
    }
  }

  lemma TrimsBoth(before: string, t: string, after: string)
    requires IsBlank(before) && IsBlank(after) && NoOuterSpace(t)
    ensures TrimRight(SkipSpaces(before + t + after)) == t
  {
    hide TrimRight, SkipSpaces;
    if t == "" {
      assert IsBlank(before + after) && before + t + after == before + after + "";
      SkipsBlank(before + after, "");
      TrimsBlank("", "");
      assert "" + "" == "";
    } else {
      assert before + t + after == before + (t + after) && (t + after)[0] == t[0];
      SkipsBlank(before, t + after);
      TrimsBlank(t, after);
    }
  }

  lemma Trimmed(s: string)
    ensures TrimsTo(s, TrimRight(SkipSpaces(s))) && NoOuterSpace(TrimRight(SkipSpaces(s)))
  {
    var left := SkipSpaces(s);
    SkipShortens(s);
    KeepsNoSpace(left);
    var before := SkippedIsBlank(s);
    var after := TrimmedIsBlank(left);
    assert s == before + (TrimRight(left) + after) == before + TrimRight(left) + after;
  }

  lemma TrimmedOnce(s: string, t: string)
    requires NoOuterSpace(t)
    ensures TrimsTo(s, t) <==> t == TrimRight(SkipSpaces(s))
    ensures NoOuterSpace(TrimRight(SkipSpaces(s)))
  {
    hide TrimRight, SkipSpaces, NoOuterSpace;
    Trimmed(s);
    if TrimsTo(s, t) {
      var before, after :| IsBlank(before) && IsBlank(after) && s == before + t + after;
      TrimsBoth(before, t, after);
    }
  }

  lemma AsksNormalized(content: Bind.Content, key: string, t: string)
    ensures Asks(content, key, t) <==> t == Normalized(Bind.FieldOf(content, key))
  {
    hide TrimsTo, SkipSpaces, TrimRight;
    var v := Bind.FieldOf(content, key);
    if v.Str? {
      TrimmedOnce(v.text, "");
      TrimmedOnce(v.text, "0px");
      if NoOuterSpace(t) {
        TrimmedOnce(v.text, t);
      }
    }
  }

  lemma FoldedIsSomething(padding: string, margin: string)
    ensures Folded(padding, margin) == "" <==> padding == "" && margin == ""
  {
    if Expand(padding).Some? && Expand(margin).Some? {
      var v := Sum(Expand(padding).value, Expand(margin).value);
      CollapseText(v);
      PxHasNoSpaces(v[0]);
    }
  }

  // One mj-wrapper around a block's nodes when any spacing is asked for.
  function Spaced(combined: string, bound: seq<Node>): seq<Node> {
    if combined == "" then bound
    else [El(SpacingWrapper, PLAIN.(padding := combined), bound)]
  }

  function Assembled(blocks: seq<(string, seq<Node>)>): seq<Node> {
    if blocks == [] then [] else Spaced(blocks[0].0, blocks[0].1) + Assembled(blocks[1..])
  }

  /** As long as no template spells the wrapper's own tag, every assembled edition is
      legal MJML. */
  lemma {:induction false} AssembledIsValid(blocks: seq<(string, seq<Node>)>)
    requires forall b, i :: 0 <= b < |blocks| && 0 <= i < |blocks[b].1| ==> !TranslationLaws.IsSpacing(blocks[b].1[i])
    ensures ValidBody(Blocks(Assembled(blocks)))
  {
    NoneNested(blocks);
    TranslationLaws.TranslationIsValid(Assembled(blocks));
  }

  lemma {:induction false} NoneNested(blocks: seq<(string, seq<Node>)>)
    requires forall b, i :: 0 <= b < |blocks| && 0 <= i < |blocks[b].1| ==> !TranslationLaws.IsSpacing(blocks[b].1[i])
    ensures forall i :: 0 <= i < |Assembled(blocks)| ==> !TranslationLaws.HoldsSpacing(Assembled(blocks)[i])
  {
    if blocks != [] {
      assert forall b :: 0 <= b < |blocks[1..]| ==> blocks[1..][b] == blocks[b + 1];
      NoneNested(blocks[1..]);
      var head := Spaced(blocks[0].0, blocks[0].1);
      forall i | 0 <= i < |head| ensures !TranslationLaws.HoldsSpacing(head[i]) {
        if blocks[0].0 == "" {
          assert head[i] == blocks[0].1[i];
        }
      }
    }
  }
}
