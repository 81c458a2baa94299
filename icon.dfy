/** The layout planner of the Morse-code icon. Every radius is a whole
    number of DIT (the canvas half-width is 16.2 DIT); rotations and slice
    widths are in degrees. */
module Icon {
  import opened Svg

  /** Side of the square canvas in pixels. */
  const Size: int := 512

  /** Pixels per DIT. */
  const Dit: real := (Size as real / 2.0) / 16.2

  /** The codes `ls` of the icon's entry point, and the full list it draws. */
  const BaseCodes: seq<string> := ["--..", "..-.", "-.-."]
  const Codes: seq<string> := ["-.-", "--..."] + BaseCodes

  /** The radius, in DIT, at which a code's first band starts. */
  const FirstInner: int := 3

  /** The radii, in DIT, between which every divider is drawn. */
  const DividerInner: int := 2
  const DividerOuter: int := 5 * 3 + 1

  /** The number of concentric rings drawn after the codes. */
  const RingCount: nat := 5

  const PulseStyle: seq<Attr> := [("fill", "#34deeb")]
  const DividerStyle: seq<Attr> := [("stroke", "black"), ("stroke_width", "5"), ("stroke_linecap", "round")]
  const RingStyle: seq<Attr> := [("stroke", "black"), ("stroke_width", "5"), ("fill", "none")]
  const BackgroundStyle: seq<Attr> := [("x", "0"), ("y", "0"), ("width", "512"), ("height", "512"), ("fill", "white")]

  /** The attributes the styles above set, under their hyphenated names. */
  const PulseAttrs: map<string, string> := map["fill" := "#34deeb"]
  const DividerAttrs: map<string, string> := map["stroke" := "black", "stroke-width" := "5", "stroke-linecap" := "round"]
  const RingAttrs: map<string, string> := map["stroke" := "black", "stroke-width" := "5", "fill" := "none"]
  const BackgroundAttrs: map<string, string> :=
    map["x" := "0", "y" := "0", "width" := "512", "height" := "512", "fill" := "white"]

  lemma PulseAttributes()
    ensures Attributes(PulseStyle) == PulseAttrs
  {
    assert Hyphenate("fill") == "fill";
  }

  lemma DividerAttributes()
    ensures Attributes(DividerStyle) == DividerAttrs
  {
    assert Hyphenate("stroke") == "stroke";
    assert Hyphenate("stroke_width") == "stroke-width";
    assert Hyphenate("stroke_linecap") == "stroke-linecap";
    var s := DividerStyle;
    assert s[..1][..0] == [] && s[..2][..1] == s[..1] && s[..2] == s[..|s| - 1];
    assert Attributes(s[..1]) == map["stroke" := "black"];
    assert Attributes(s[..2]) == map["stroke" := "black", "stroke-width" := "5"];
  }

  lemma RingAttributes()
    ensures Attributes(RingStyle) == RingAttrs
  {
    assert Hyphenate("stroke") == "stroke";
    assert Hyphenate("stroke_width") == "stroke-width";
    assert Hyphenate("fill") == "fill";
    var s := RingStyle;
    assert s[..1][..0] == [] && s[..2][..1] == s[..1] && s[..2] == s[..|s| - 1];
    assert Attributes(s[..1]) == map["stroke" := "black"];
    assert Attributes(s[..2]) == map["stroke" := "black", "stroke-width" := "5"];
  }

  lemma BackgroundAttributes()
    ensures Attributes(BackgroundStyle) == BackgroundAttrs
  {
    assert Hyphenate("fill") == "fill";
    assert Hyphenate("x") == "x" && Hyphenate("y") == "y";
    assert Hyphenate("width") == "width" && Hyphenate("height") == "height";
    var s := BackgroundStyle;
    assert s[..1][..0] == [] && s[..2][..1] == s[..1] && s[..3][..2] == s[..2];
    assert s[..4][..3] == s[..3] && s[..5] == s && s[..4] == s[..|s| - 1];
    assert Attributes(s[..1]) == map["x" := "0"];
    assert Attributes(s[..2]) == map["x" := "0", "y" := "0"];
    assert Attributes(s[..3]) == map["x" := "0", "y" := "0", "width" := "512"];
    assert Attributes(s[..4]) == map["x" := "0", "y" := "0", "width" := "512", "height" := "512"];
  }

  // ---------------------------------------------------------------------
  // Weighted length of a code

  /** The radial width of one symbol: a dot weighs 1 DIT, anything else 3. */
  function SymbolWidth(c: char): nat {
    if c == '.' then 1 else 3
  }

  /** The summed symbol weights of a code. */
  function Weights(l: string): (w: nat)
    ensures |l| <= w <= 3 * |l|
  {
    if l == [] then 0 else SymbolWidth(l[0]) + Weights(l[1..])
  }

  /** Each dot weighs two less than a dash. */
  lemma {:induction false} WeightsByCount(l: string)
    ensures Weights(l) == 3 * |l| - 2 * multiset(l)['.']
  {
    if l != [] {
      assert l == [l[0]] + l[1..];
      WeightsByCount(l[1..]);
    }
  }

  /** A code's weighted length in DIT: its symbol weights plus one gap
      between each two neighbouring symbols. */
  function TotalDits(l: string): (r: int)
    ensures r == 4 * |l| - 1 - 2 * multiset(l)['.']
    ensures 2 * |l| - 1 <= r <= 4 * |l| - 1
  {
    WeightsByCount(l);
    Weights(l) + |l| - 1
  }

  lemma {:induction false} WeightsAllDots(l: string)
    requires forall i :: 0 <= i < |l| ==> l[i] == '.'
    ensures Weights(l) == |l|
  {
    if l != [] { WeightsAllDots(l[1..]); }
  }

  lemma {:induction false} WeightsNoDots(l: string)
    requires forall i :: 0 <= i < |l| ==> l[i] != '.'
    ensures Weights(l) == 3 * |l|
  {
    if l != [] { WeightsNoDots(l[1..]); }
  }

  lemma {:induction false} WeightsLeastOnlyForDots(l: string, i: nat)
    requires Weights(l) == |l| && i < |l|
    ensures l[i] == '.'
  {
    if i > 0 { WeightsLeastOnlyForDots(l[1..], i - 1); }
  }

  lemma {:induction false} WeightsMostOnlyForNonDots(l: string, i: nat)
    requires Weights(l) == 3 * |l| && i < |l|
    ensures l[i] != '.'
  {
    if i > 0 { WeightsMostOnlyForNonDots(l[1..], i - 1); }
  }

  /** A code made only of dots, and only such a code, weighs 2n-1; a code
      with no dot (all dashes), and only such a code, weighs 4n-1. */
  lemma TotalDitsExtremes(l: string)
    ensures TotalDits(l) == 2 * |l| - 1 <==> forall i :: 0 <= i < |l| ==> l[i] == '.'
    ensures TotalDits(l) == 4 * |l| - 1 <==> forall i :: 0 <= i < |l| ==> l[i] != '.'
  {
    if forall i :: 0 <= i < |l| ==> l[i] == '.' {
      WeightsAllDots(l);
    }
    if TotalDits(l) == 2 * |l| - 1 {
      forall i | 0 <= i < |l| ensures l[i] == '.' { WeightsLeastOnlyForDots(l, i); }
    }
    if forall i :: 0 <= i < |l| ==> l[i] != '.' {
      WeightsNoDots(l);
    }
    if TotalDits(l) == 4 * |l| - 1 {
      forall i | 0 <= i < |l| ensures l[i] != '.' { WeightsMostOnlyForNonDots(l, i); }
    }
  }

  // ---------------------------------------------------------------------
  // The bands of one code

  /** The inner radius of band k of `l`. Bands are laid from the last
      symbol outwards, so band k starts after the last k symbols and
      their k gaps. */
  function BandInner(l: string, k: nat): int
    requires k <= |l|
  {
    FirstInner + k + Weights(l[|l| - k..])
  }

  /** The width of band k: the weight of symbol `reversed(l)[k]`. */
  function BandWidth(l: string, k: nat): nat
    requires k < |l|
  {
    SymbolWidth(l[|l| - 1 - k])
  }

  /** The wedge of band k of `l`. */
  function Band(l: string, k: nat, rotation: real, angle: real): Element
    requires k < |l|
  {
    Element(Pulse(rotation, angle, BandInner(l, k), BandWidth(l, k)), PulseAttrs)
  }

  /** The first k wedges of `l`, innermost first. */
  function BandsUpTo(l: string, k: nat, rotation: real, angle: real): seq<Element>
    requires k <= |l|
  {
    if k == 0 then [] else BandsUpTo(l, k - 1, rotation, angle) + [Band(l, k - 1, rotation, angle)]
  }

  /** The wedges one code contributes, innermost first. */
  function Bands(l: string, rotation: real, angle: real): seq<Element> {
    BandsUpTo(l, |l|, rotation, angle)
  }

  lemma {:induction false} BandsUpToAt(l: string, k: nat, rotation: real, angle: real)
    requires k <= |l|
    ensures |BandsUpTo(l, k, rotation, angle)| == k
    ensures forall j :: 0 <= j < k ==> BandsUpTo(l, k, rotation, angle)[j] == Band(l, j, rotation, angle)
  {
    if k > 0 { BandsUpToAt(l, k - 1, rotation, angle); }
  }

  /** One band per symbol, each a wedge at the code's rotation and slice
      width; band k is 1 DIT wide for a dot and 3 DIT otherwise. */
  lemma BandsShape(l: string, rotation: real, angle: real)
    ensures |Bands(l, rotation, angle)| == |l|
    ensures forall k :: 0 <= k < |l| ==>
              var s := Bands(l, rotation, angle)[k].shape;
              s.Pulse? && s.rotation == rotation && s.angle == angle &&
              s.innerUnits == BandInner(l, k) &&
              s.widthUnits == (if l[|l| - 1 - k] == '.' then 1 else 3)
  {
    BandsUpToAt(l, |l|, rotation, angle);
  }

  /** The walk starts at 3 DIT, and each band starts one DIT after the
      previous band ends. */
  lemma BandsStep(l: string, k: nat)
    requires k < |l|
    ensures BandInner(l, 0) == 3
    ensures BandInner(l, k + 1) == BandInner(l, k) + BandWidth(l, k) + 1
  {
    assert l[|l|..] == [];
    var suffix := l[|l| - (k + 1)..];
    assert suffix[0] == l[|l| - 1 - k] && suffix[1..] == l[|l| - k..];
  }

  /** A band's outer radius `out_r` is one DIT short of the next band's
      inner radius. */
  lemma BandsGap(l: string, k: nat, rotation: real, angle: real)
    requires k + 1 < |l|
    ensures Band(l, k, rotation, angle).shape.OuterUnits() + 1 == Band(l, k + 1, rotation, angle).shape.innerUnits
  {
    BandsStep(l, k);
  }

  /** Bands do not overlap and grow strictly outwards: a later band
      starts at least one DIT beyond the end of an earlier one. */
  lemma {:induction false} BandsDisjoint(l: string, j: nat, k: nat)
    requires j < k < |l|
    ensures BandInner(l, j) + BandWidth(l, j) < BandInner(l, k)
    decreases k - j
  {
    BandsStep(l, j);
    if j + 1 < k {
      BandsDisjoint(l, j + 1, k);
      BandsStep(l, j + 1);
    }
  }

  /** After the walk the running radius is `3 + total_dits + 1`; the
      outermost band ends at `3 + total_dits` DIT. */
  lemma BandsEnd(l: string)
    ensures BandInner(l, |l|) == FirstInner + TotalDits(l) + 1
    ensures |l| > 0 ==> BandInner(l, |l| - 1) + BandWidth(l, |l| - 1) == FirstInner + TotalDits(l)
  {
    assert l[0..] == l;
    if |l| > 0 { BandsStep(l, |l| - 1); }
  }

  /** Every band of `l` lies between 3 DIT and `3 + total_dits(l)` DIT. */
  lemma BandsExtent(l: string, k: nat)
    requires k < |l|
    ensures FirstInner <= BandInner(l, k)
    ensures BandInner(l, k) + BandWidth(l, k) <= FirstInner + TotalDits(l)
  {
    BandsEnd(l);
    BandsStep(l, 0);
    if k > 0 { BandsDisjoint(l, 0, k); }
    if k < |l| - 1 { BandsDisjoint(l, k, |l| - 1); }
  }

  /** The annular wedge of one symbol (the float corner points and the
      path text are not modelled). */
  method MakePulse(rotation: real, ir: int, angle: real, w: int, style: seq<Attr>) returns (el: Element)
    ensures el == Element(Pulse(rotation, angle, ir, w), Attributes(style))
  {
    el := MakeElement(Pulse(rotation, angle, ir, w), style);
  }

  /** A radial line from `ir` to `r` at `angle` (the float end points are not modelled). */
  method MakeRadial(angle: real, r: int, ir: int := 0, style: seq<Attr>) returns (el: Element)
    ensures el == Element(Line(angle, ir, r), Attributes(style))
  {
    el := MakeElement(Line(angle, ir, r), style);
  }

  /** Appends the wedges of code `l`, walking it from its last symbol to its first. */
  method Letter(parent: Node, l: string, rotation: real, angle: real)
    modifies parent
    ensures parent.children == old(parent.children) + Bands(l, rotation, angle)
    ensures parent.attrs == old(parent.attrs)
  {
    ghost var before := parent.children;
    var cur := 3;
    var i := |l|;
    while i > 0
      invariant 0 <= i <= |l|
      invariant cur == BandInner(l, |l| - i)
      invariant parent.children == before + BandsUpTo(l, |l| - i, rotation, angle)
      invariant parent.attrs == old(parent.attrs)
    {
      i := i - 1;
      var c := l[i];
      var size := if c == '.' then 1 else 3;
      var r := MakePulse(rotation, cur, angle, size, PulseStyle);
      PulseAttributes();
      BandsStep(l, |l| - 1 - i);
      parent.AppendChild(r);
      cur := cur + size + 1;
    }
  }

  // ---------------------------------------------------------------------
  // The whole drawing

  /** The angular width of each code's slice. */
  function SliceAngle(n: nat): real
    requires n > 0
  {
    180.0 / n as real
  }

  /** The rotation of code i of n. */
  function Rotation(n: nat, i: nat): real
    requires n > 0
  {
    SliceAngle(n) * i as real * 2.0
  }

  /** Code i of n sits at 360*i/n degrees: the codes go once round the
      circle, and neighbouring codes' wedges are one empty slice apart. */
  lemma RotationSchedule(n: nat, i: nat)
    requires n > 0
    ensures Rotation(n, i) == 360.0 * i as real / n as real
    ensures i < n ==> 0.0 <= Rotation(n, i) < 360.0
    ensures (Rotation(n, i + 1) - SliceAngle(n) / 2.0) - (Rotation(n, i) + SliceAngle(n) / 2.0) == SliceAngle(n)
  {
    var a := SliceAngle(n);
    assert a * n as real == 180.0;
    assert Rotation(n, i) * n as real == 360.0 * i as real;
    assert Rotation(n, i + 1) == Rotation(n, i) + 2.0 * a;
  }

  /** The rotation `letters` computes for code i is `Rotation(n, i)`. */
  lemma RotationOf(n: nat, i: nat, angle: real)
    requires n > 0 && angle == 180.0 / n as real
    ensures angle == SliceAngle(n) && angle * i as real * 2.0 == Rotation(n, i)
  {
  }

  /** A code's wedges followed by its divider. */
  function Block(l: string, rotation: real, angle: real): seq<Element> {
    Bands(l, rotation, angle) + [Element(Line(rotation, DividerInner, DividerOuter), DividerAttrs)]
  }

  /** The blocks of the first k codes of `ls`, in order. */
  function Blocks(ls: seq<string>, k: nat): seq<Element>
    requires 0 < |ls| && k <= |ls|
  {
    if k == 0 then []
    else Blocks(ls, k - 1) + Block(ls[k - 1], Rotation(|ls|, k - 1), SliceAngle(|ls|))
  }

  /** How many symbols the first k codes of `ls` have. */
  function SymbolsUpTo(ls: seq<string>, k: nat): nat
    requires k <= |ls|
  {
    if k == 0 then 0 else SymbolsUpTo(ls, k - 1) + |ls[k - 1]|
  }

  /** How many symbols all the codes have together. */
  function SymbolCount(ls: seq<string>): nat {
    SymbolsUpTo(ls, |ls|)
  }

  lemma BlocksNext(ls: seq<string>, k: nat)
    requires k < |ls|
    ensures Blocks(ls, k + 1) == Blocks(ls, k) + Block(ls[k], Rotation(|ls|, k), SliceAngle(|ls|))
  {
  }

  /** The first k rings, innermost first. */
  function Rings(k: nat): seq<Element> {
    seq(k, j => Element(Circle(3 * (j + 1)), RingAttrs))
  }

  /** Everything the codes `ls` contribute to the parent: each code's
      block in order, then the rings. */
  function Drawing(ls: seq<string>): seq<Element>
    requires |ls| > 0
  {
    Blocks(ls, |ls|) + Rings(RingCount)
  }

  lemma AppendAssoc(a: seq<Element>, b: seq<Element>, c: seq<Element>)
    ensures (a + b) + c == a + (b + c)
  {
  }

  /** The error `letters` stops with on an empty list of codes. */
  datatype Error = ZeroDivisionError
  datatype Outcome = Pass | Fail(error: Error)

  /** Appends the drawing of `ls`: each code's wedges and divider, then
      the rings. An empty list fails before anything is appended. */
  method Letters(parent: Node, ls: seq<string>) returns (outcome: Outcome)
    modifies parent
    ensures outcome == if ls == [] then Fail(ZeroDivisionError) else Pass
    ensures parent.children == old(parent.children) + (if ls == [] then [] else Drawing(ls))
    ensures parent.attrs == old(parent.attrs)
  {
    if |ls| == 0 {
      return Fail(ZeroDivisionError);
    }
    ghost var before := parent.children;
    var angle := 180.0 / |ls| as real;
    for i := 0 to |ls|
      invariant parent.children == before + Blocks(ls, i)
      invariant parent.attrs == old(parent.attrs)
    {
      var l := ls[i];
      var rotation := angle * i as real * 2.0;
      ghost var drawn := parent.children;
      Letter(parent, l, rotation, angle);
      var r := FirstInner + TotalDits(l) + 1;
      r := 5 * 3 + 1;
      var line := MakeRadial(rotation, r, ir := 2, style := DividerStyle);
      parent.AppendChild(line);
      assert line == Element(Line(rotation, DividerInner, DividerOuter), DividerAttrs) by {
        DividerAttributes();
      }
      assert rotation == Rotation(|ls|, i) && angle == SliceAngle(|ls|) by {
        RotationOf(|ls|, i, angle);
      }
      assert parent.children == before + Blocks(ls, i + 1) by {
        BlocksNext(ls, i);
        AppendAssoc(drawn, Bands(l, rotation, angle), [line]);
        AppendAssoc(before, Blocks(ls, i), Block(l, rotation, angle));
      }
    }
    var unused := MakeElement(Circle(2), RingStyle);
    for i := 0 to RingCount
      invariant parent.children == before + Blocks(ls, |ls|) + Rings(i)
      invariant parent.attrs == old(parent.attrs)
    {
      var c := MakeElement(Circle(3 * (i + 1)), RingStyle);
      parent.AppendChild(c);
      RingAttributes();
      RingsNext(i);
      AppendAssoc(before + Blocks(ls, |ls|), Rings(i), [c]);
    }
    AppendAssoc(before, Blocks(ls, |ls|), Rings(RingCount));
    outcome := Pass;
  }

  // ---------------------------------------------------------------------
  // Properties of the drawing

  /** The number of elements of `s` written with tag `tag`. */
  function CountTag(s: seq<Element>, tag: Tag): nat {
    if s == [] then 0
    else CountTag(s[..|s| - 1], tag) + (if s[|s| - 1].shape.Tag() == tag then 1 else 0)
  }

  lemma {:induction false} CountTagAppend(a: seq<Element>, b: seq<Element>, tag: Tag)
    ensures CountTag(a + b, tag) == CountTag(a, tag) + CountTag(b, tag)
    decreases |b|
  {
    if b == [] {
      assert a + b == a;
    } else {
      assert (a + b)[..|a + b| - 1] == a + b[..|b| - 1];
      CountTagAppend(a, b[..|b| - 1], tag);
    }
  }

  lemma {:induction false} BandsUpToCount(l: string, k: nat, rotation: real, angle: real, tag: Tag)
    requires k <= |l|
    ensures CountTag(BandsUpTo(l, k, rotation, angle), tag) == if tag == PathTag then k else 0
  {
    if k > 0 {
      var b := BandsUpTo(l, k, rotation, angle);
      assert b[..|b| - 1] == BandsUpTo(l, k - 1, rotation, angle);
      BandsUpToAt(l, k, rotation, angle);
      BandsUpToCount(l, k - 1, rotation, angle, tag);
    }
  }

  lemma {:induction false} BlocksCount(ls: seq<string>, k: nat, tag: Tag)
    requires 0 < |ls| && k <= |ls|
    ensures CountTag(Blocks(ls, k), tag) ==
              (if tag == PathTag then SymbolsUpTo(ls, k) else 0) + (if tag == LineTag then k else 0)
  {
    if k > 0 {
      var front := Blocks(ls, k - 1);
      var block := Block(ls[k - 1], Rotation(|ls|, k - 1), SliceAngle(|ls|));
      assert Blocks(ls, k) == front + block;
      BlocksCount(ls, k - 1, tag);
      BlockCount(ls[k - 1], Rotation(|ls|, k - 1), SliceAngle(|ls|), tag);
      CountTagAppend(front, block, tag);
    }
  }

  lemma BlockCount(l: string, rotation: real, angle: real, tag: Tag)
    ensures CountTag(Block(l, rotation, angle), tag) ==
              (if tag == PathTag then |l| else 0) + (if tag == LineTag then 1 else 0)
  {
    var divider := [Element(Line(rotation, DividerInner, DividerOuter), DividerAttrs)];
    BandsUpToCount(l, |l|, rotation, angle, tag);
    assert divider[..0] == [];
    CountTagAppend(Bands(l, rotation, angle), divider, tag);
  }

  /** Ring j (from 0) is the circle of radius 3(j+1) DIT. */
  lemma RingsNext(k: nat)
    ensures Rings(k + 1) == Rings(k) + [Element(Circle(3 * (k + 1)), RingAttrs)]
  {
  }

  lemma {:induction false} RingsCount(k: nat, tag: Tag)
    ensures CountTag(Rings(k), tag) == if tag == CircleTag then k else 0
  {
    if k > 0 {
      RingsNext(k - 1);
      assert Rings(k)[..|Rings(k)| - 1] == Rings(k - 1);
      RingsCount(k - 1, tag);
    }
  }

  /** The drawing holds one wedge per symbol, one divider per code and
      five rings, and nothing else: `5 + n + (total symbols)` children. */
  lemma DrawingCount(ls: seq<string>, tag: Tag)
    requires |ls| > 0
    ensures |Drawing(ls)| == RingCount + |ls| + SymbolCount(ls)
    ensures CountTag(Drawing(ls), tag) ==
              (if tag == PathTag then SymbolCount(ls) else 0) +
              (if tag == LineTag then |ls| else 0) +
              (if tag == CircleTag then RingCount else 0)
  {
    BlocksLength(ls, |ls|);
    BlocksCount(ls, |ls|, tag);
    RingsCount(RingCount, tag);
    CountTagAppend(Blocks(ls, |ls|), Rings(RingCount), tag);
  }

  /** Blocks grow by appending: the first k blocks are a prefix of the first m. */
  lemma {:induction false} BlocksPrefix(ls: seq<string>, k: nat, m: nat)
    requires 0 < |ls| && k <= m <= |ls|
    ensures |Blocks(ls, k)| <= |Blocks(ls, m)|
    ensures Blocks(ls, m)[..|Blocks(ls, k)|] == Blocks(ls, k)
    decreases m - k
  {
    if k < m {
      BlocksPrefix(ls, k, m - 1);
      var b := Blocks(ls, m - 1);
      assert Blocks(ls, m)[..|b|] == b;
      assert Blocks(ls, m)[..|Blocks(ls, k)|] == b[..|Blocks(ls, k)|];
    }
  }

  /** Code i's block in the child list: its wedges, innermost first, at
      rotation 360*i/n and slice width 180/n, directly followed by its
      divider from 2 to 16 DIT. It starts after the blocks of the codes
      before it, and ends before the rings. */
  lemma DrawingLayout(ls: seq<string>, i: nat, k: nat)
    requires i < |ls| && k <= |ls[i]|
    ensures i + SymbolsUpTo(ls, i) + |ls[i]| + 1 <= |Drawing(ls)| - RingCount
    ensures |Block(ls[i], Rotation(|ls|, i), SliceAngle(|ls|))| == |ls[i]| + 1
    ensures Drawing(ls)[i + SymbolsUpTo(ls, i) + k] == Block(ls[i], Rotation(|ls|, i), SliceAngle(|ls|))[k]
  {
    var n := |ls|;
    var block := Block(ls[i], Rotation(n, i), SliceAngle(n));
    var p := i + SymbolsUpTo(ls, i) + k;
    BlocksLength(ls, i);
    BlocksLength(ls, n);
    BlockLength(ls[i], Rotation(n, i), SliceAngle(n));
    BlocksPrefix(ls, i + 1, n);
    assert Blocks(ls, i + 1)[p] == block[k];
    assert Blocks(ls, n)[p] == Blocks(ls, i + 1)[p];
    assert Drawing(ls)[p] == Blocks(ls, n)[p];
  }

  lemma {:induction false} BlocksLength(ls: seq<string>, k: nat)
    requires 0 < |ls| && k <= |ls|
    ensures |Blocks(ls, k)| == k + SymbolsUpTo(ls, k)
  {
    if k > 0 {
      BlocksLength(ls, k - 1);
      BlockLength(ls[k - 1], Rotation(|ls|, k - 1), SliceAngle(|ls|));
    }
  }

  lemma BlockLength(l: string, rotation: real, angle: real)
    ensures |Block(l, rotation, angle)| == |l| + 1
  {
    BandsUpToAt(l, |l|, rotation, angle);
  }

  /** Band k of code i, and the divider after its last band. */
  lemma BlockAt(l: string, rotation: real, angle: real, k: nat)
    requires k <= |l|
    ensures |Block(l, rotation, angle)| == |l| + 1
    ensures Block(l, rotation, angle)[k] ==
              if k < |l| then Band(l, k, rotation, angle)
              else Element(Line(rotation, DividerInner, DividerOuter), DividerAttrs)
  {
    BandsUpToAt(l, |l|, rotation, angle);
  }

  /** The five rings close the child list, innermost first, at 3, 6, 9,
      12 and 15 DIT. */
  lemma DrawingRings(ls: seq<string>)
    requires |ls| > 0
    ensures |Drawing(ls)| >= RingCount
    ensures forall p :: |Drawing(ls)| - RingCount <= p < |Drawing(ls)| ==>
              Drawing(ls)[p] == Element(Circle(3 * (p - (|Drawing(ls)| - RingCount) + 1)), RingAttrs)
  {
    var blocks := Blocks(ls, |ls|);
    forall p | |Drawing(ls)| - RingCount <= p < |Drawing(ls)|
      ensures Drawing(ls)[p] == Element(Circle(3 * (p - (|Drawing(ls)| - RingCount) + 1)), RingAttrs)
    {
      assert Drawing(ls)[p] == Rings(RingCount)[p - |blocks|];
    }
  }

  /** The bounds a drawn shape keeps when the slice width is `angle` and no
      code weighs more than `d`: a divider runs from 2 to 16 DIT, a wedge
      has the slice width and lies between 3 DIT and `3 + d` DIT, a circle
      is one of the five rings, and there is no rectangle. */
  predicate Fits(s: Shape, angle: real, d: int) {
    match s
    case Line(_, inner, outer) => inner == 2 && outer == 16
    case Pulse(_, a, inner, width) => a == angle && 3 <= inner && inner + width <= 3 + d
    case Circle(r) => r % 3 == 0 && 3 <= r <= 15
    case Rect => false
  }

  /** Every shape of the drawing keeps those bounds. */
  lemma DrawingShapes(ls: seq<string>, d: int)
    requires |ls| > 0
    requires forall i :: 0 <= i < |ls| ==> TotalDits(ls[i]) <= d
    ensures forall e :: e in Drawing(ls) ==> Fits(e.shape, SliceAngle(|ls|), d)
  {
    forall e | e in Drawing(ls)
      ensures Fits(e.shape, SliceAngle(|ls|), d)
    {
      var p :| 0 <= p < |Drawing(ls)| && Drawing(ls)[p] == e;
      var blocks := Blocks(ls, |ls|);
      if p < |blocks| {
        BlocksShapes(ls, |ls|, d, p);
        assert e == blocks[p];
      } else {
        assert e == Rings(RingCount)[p - |blocks|];
      }
    }
  }

  lemma {:induction false} BlocksShapes(ls: seq<string>, k: nat, d: int, p: nat)
    requires 0 < |ls| && k <= |ls|
    requires forall i :: 0 <= i < |ls| ==> TotalDits(ls[i]) <= d
    requires p < |Blocks(ls, k)|
    ensures Fits(Blocks(ls, k)[p].shape, SliceAngle(|ls|), d)
  {
    var l := ls[k - 1];
    var rot, angle := Rotation(|ls|, k - 1), SliceAngle(|ls|);
    var front := Blocks(ls, k - 1);
    var block := Block(l, rot, angle);
    assert Blocks(ls, k) == front + block;
    if p < |front| {
      BlocksShapes(ls, k - 1, d, p);
      assert Blocks(ls, k)[p] == front[p];
    } else {
      BlockLength(l, rot, angle);
      BlockShapes(l, rot, angle, d, p - |front|);
      assert Blocks(ls, k)[p] == block[p - |front|];
    }
  }

  lemma BlockShapes(l: string, rotation: real, angle: real, d: int, q: nat)
    requires TotalDits(l) <= d && q <= |l|
    ensures |Block(l, rotation, angle)| == |l| + 1
    ensures Fits(Block(l, rotation, angle)[q].shape, angle, d)
  {
    BlockAt(l, rotation, angle, q);
    if q < |l| {
      BandsExtent(l, q);
    }
  }

  // ---------------------------------------------------------------------
  // The icon

  /** The attributes of the root `svg` element. */
  const RootAttrs: map<string, string> := map[
    "xmlns" := "http://www.w3.org/2000/svg",
    "xmlns:xlink" := "http://www.w3.org/1999/xlink",
    "width" := "512",
    "height" := "512",
    "viewBox" := "0.000000 0.000000 512.000000 512.000000"]

  /** The children of the root element: the optional background first,
      then the drawing of the icon's codes. */
  function Document(background: bool): seq<Element> {
    (if background then [Element(Rect, BackgroundAttrs)] else []) + Drawing(Codes)
  }

  /** Builds the icon document (argument parsing and writing the file are
      not modelled). */
  method Render(background: bool) returns (svg: Node)
    ensures fresh(svg)
    ensures svg.tag == "svg" && svg.attrs == RootAttrs
    ensures svg.children == Document(background)
  {
    svg := new Node("svg");
    svg.SetAttribute("xmlns", "http://www.w3.org/2000/svg");
    svg.SetAttribute("xmlns:xlink", "http://www.w3.org/1999/xlink");
    svg.SetAttribute("width", "512");
    svg.SetAttribute("height", "512");
    svg.SetAttribute("viewBox", "0.000000 0.000000 512.000000 512.000000");
    assert svg.attrs == RootAttrs;
    if background {
      var rect := MakeElement(Rect, BackgroundStyle);
      svg.AppendChild(rect);
      BackgroundAttributes();
    }
    assert svg.children == if background then [Element(Rect, BackgroundAttrs)] else [];
    var outcome := Letters(svg, Codes);
  }

  /** The weighted lengths of the icon's codes; the heaviest, `--...`,
      weighs 13. */
  lemma CodesWeights()
    ensures forall i :: 0 <= i < |Codes| ==> TotalDits(Codes[i]) <= 13
    ensures TotalDits(Codes[1]) == 13
  {
    var c := Codes;
    assert c == ["-.-", "--...", "--..", "..-.", "-.-."];
    assert Weights(c[0]) == 7;
    assert Weights(c[1]) == 9;
    assert Weights(c[2]) == 8;
    assert Weights(c[3]) == 6;
    assert Weights(c[4]) == 8;
  }

  lemma CodesSymbols()
    ensures |Codes| == 5 && SymbolCount(Codes) == 20
  {
    var c := Codes;
    assert c == ["-.-", "--...", "--..", "..-.", "-.-."];
    assert SymbolsUpTo(c, 1) == 3;
    assert SymbolsUpTo(c, 2) == 8;
    assert SymbolsUpTo(c, 3) == 12;
    assert SymbolsUpTo(c, 4) == 16;
  }

  /** The icon: 20 wedges, 5 dividers and 5 rings, plus the background
      rectangle as the first child when asked for. */
  lemma IconCount(background: bool, tag: Tag)
    ensures |Document(background)| == 30 + (if background then 1 else 0)
    ensures CountTag(Document(background), tag) ==
              (if tag == PathTag then 20 else 0) + (if tag == LineTag then 5 else 0) +
              (if tag == CircleTag then 5 else 0) + (if tag == RectTag && background then 1 else 0)
    ensures background ==> Document(background)[0].shape == Rect
  {
    var bg: seq<Element> := if background then [Element(Rect, BackgroundAttrs)] else [];
    CodesSymbols();
    DrawingCount(Codes, tag);
    CountTagAppend(bg, Drawing(Codes), tag);
    assert bg[..0] == [];
  }

  /** No wedge of the icon reaches past the dividers' 16 DIT, which lies
      inside the canvas's half-width of 16.2 DIT. */
  lemma IconExtent(background: bool)
    ensures forall e :: e in Document(background) && e.shape.Pulse? ==> e.shape.OuterUnits() <= DividerOuter
    ensures DividerOuter as real * Dit <= Size as real / 2.0
  {
    CodesWeights();
    DrawingShapes(Codes, 13);
    forall e | e in Document(background) && e.shape.Pulse?
      ensures e.shape.OuterUnits() <= DividerOuter
    {
      assert e in Drawing(Codes);
      assert Fits(e.shape, SliceAngle(|Codes|), 13);
    }
  }
}
