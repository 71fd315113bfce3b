/** The radial layout of the wellness radar on its fixed 200 x 200 canvas.
    Every sector gets an equal share of the circle starting at the top
    (-90 degrees); inside its share it draws nine concentric bars, the first
    `strength` of them in one palette colour and the rest in grey, each bar
    shortened by a gap that keeps neighbouring sectors apart. The layout is a
    pure function of the sectors, the strengths and the value used for pi.
    Points are kept in polar form: the conversion to screen coordinates with
    cosine and sine is not part of this model. */
module RadarLayout {
  import opened Sectors

  type Color = string

  /** Bar colours from the weakest level (red) to the strongest (dark green). */
  const Palette: seq<Color> := ["#FF0000", "#FF4000", "#FF8000", "#FFBF00", "#BFFF00",
                                "#80FF00", "#40FF00", "#20C000", "#006400"]
  const InactiveColor: Color := "#E0E0E0"
  const CenterFill: Color := "#B0B0B0"

  /** Number of bars (strength levels) per sector. */
  const BarCount: nat := 9
  const InnerBarRadius: int := 14
  const BarStep: int := 8
  /** Smallest angular gap, in degrees, between the bars of two sectors. */
  const BaseVisualGap: real := 6.0
  /** Gap, in canvas units along the circle, that every bar should keep. */
  const MinPerimeterGap: real := 8.0
  const CenterX: int := 100
  const CenterY: int := 100
  const CenterRadius: int := 6
  const ReferenceAngle: real := -90.0
  const IconRadius: int := 90
  const LabelRadius: int := 102

  /** The point at `angle` degrees on the circle of radius `r` around
      (cx, cy), before conversion to screen coordinates. */
  datatype PolarPoint = PolarPoint(cx: int, cy: int, r: int, angle: real)

  /** The arc command of a bar: move to `from`, then draw a circular arc of
      `radius` with the given flags to `to`. */
  datatype ArcPath = ArcPath(from: PolarPoint, radius: int, largeArcFlag: string,
                             sweepFlag: string, to: PolarPoint)

  datatype Bar = Bar(radius: int, effectiveGap: real, startAngle: real, endAngle: real,
                     active: bool, stroke: Color, path: ArcPath)

  datatype SectorView = SectorView(baseAngle: real, labelAngle: real, color: Color,
                                   bars: seq<Bar>, iconPos: PolarPoint, iconHref: string,
                                   iconTitle: string, textPos: PolarPoint, name: string)

  datatype CenterMarker = CenterMarker(cx: int, cy: int, r: int, fill: Color)

  datatype Chart = Chart(center: CenterMarker, sectors: seq<SectorView>)

  function Min(a: int, b: int): int { if a <= b then a else b }
  function Max(a: int, b: int): int { if a >= b then a else b }
  function Clamp(x: int, lo: int, hi: int): int { Min(Max(x, lo), hi) }

  // ---------------------------------------------------------------------
  // Angular partition

  /** Degrees of the circle given to each of `n` sectors. */
  function SectorSpan(n: nat): (span: real)
    requires n > 0
    ensures span > 0.0 && n as real * span == 360.0
  {
    360.0 / n as real
  }

  function BaseAngle(n: nat, i: int): real
    requires n > 0
  {
    ReferenceAngle + i as real * SectorSpan(n)
  }

  function LabelAngle(n: nat, i: int): real
    requires n > 0
  {
    BaseAngle(n, i) + SectorSpan(n) / 2.0
  }

  /** The sectors tile the circle: the first starts at -90 degrees, each one
      starts where the previous ends, the last ends at 270 = -90 + 360, and
      each label sits at the midpoint of its sector's span. */
  lemma SectorsTile(n: nat, i: int)
    requires n > 0 && 0 <= i < n
    ensures BaseAngle(n, 0) == -90.0
    ensures i + 1 < n ==> BaseAngle(n, i) + SectorSpan(n) == BaseAngle(n, i + 1)
    ensures i + 1 == n ==> BaseAngle(n, i) + SectorSpan(n) == 270.0
    ensures -90.0 <= BaseAngle(n, i) < BaseAngle(n, i) + SectorSpan(n) <= 270.0
    ensures LabelAngle(n, i) - BaseAngle(n, i) == BaseAngle(n, i) + SectorSpan(n) - LabelAngle(n, i)
  {
    var span := SectorSpan(n);
    assert (i + 1) as real * span == i as real * span + span;
    assert BaseAngle(n, i) + span == -90.0 + (i + 1) as real * span;
    assert n as real * span == 360.0;
    assert i as real * span >= 0.0;
    assert (i + 1) as real * span <= n as real * span;
  }

  // ---------------------------------------------------------------------
  // Strengths and colours

  /** The strength shown for sector `i`; a missing entry counts as 0. */
  function StrengthAt(strengths: seq<int>, i: int): int {
    if 0 <= i < |strengths| then strengths[i] else 0
  }

  /** Index of the outermost active bar, or 0 when none is active. */
  function OuterBarIndex(strength: int): nat {
    Max(strength - 1, 0)
  }

  /** Palette lookup with the index clamped to the last colour. */
  function GradientColor(barIndex: nat): (c: Color)
    ensures c in Palette && c != InactiveColor
    ensures barIndex >= |Palette| - 1 ==> c == Palette[|Palette| - 1]
    ensures barIndex < |Palette| ==> c == Palette[barIndex]
  {
    Palette[Min(barIndex, |Palette| - 1)]
  }

  /** The lookup clamps at both ends, and distinct levels have distinct
      colours, so an active bar's colour tells the level apart. */
  lemma GradientColorRange(a: nat, b: nat)
    ensures GradientColor(0) == "#FF0000"
    ensures a >= 8 ==> GradientColor(a) == "#006400"
    ensures a < BarCount && b < BarCount && a != b ==> GradientColor(a) != GradientColor(b)
  {
  }

  /** Whether bar `barIndex` (0-based) is lit for the given strength. */
  function IsActive(barIndex: nat, strength: int): bool {
    barIndex + 1 <= strength
  }

  // ---------------------------------------------------------------------
  // Bars and gaps

  function BarRadius(barIndex: nat): int {
    InnerBarRadius + barIndex * BarStep
  }

  /** The bar radii grow strictly from 14 to 78 and stay inside the icon
      and label rings, so markers never depend on the strengths. */
  lemma BarRadii(k: nat)
    requires k < BarCount
    ensures BarRadius(0) == 14 && BarRadius(BarCount - 1) == 78
    ensures 14 <= BarRadius(k) <= 78 < IconRadius < LabelRadius
    ensures k + 1 < BarCount ==> BarRadius(k) < BarRadius(k + 1)
  {
  }

  /** The angle, in degrees, that covers MinPerimeterGap along a circle of
      radius `r`: 360 * MinPerimeterGap / (2 * pi * r). */
  function PerimeterGap(r: int, pi: real): (g: real)
    requires r > 0 && pi > 0.0
    ensures g > 0.0
    ensures g * (2.0 * pi * r as real) == 360.0 * MinPerimeterGap
  {
    (360.0 * MinPerimeterGap) / (2.0 * pi * r as real)
  }

  /** The larger of the fixed angular gap and the perimeter gap. */
  function EffectiveGap(perimeterGap: real): (g: real)
    ensures g >= BaseVisualGap && g >= perimeterGap
    ensures g == BaseVisualGap || g == perimeterGap
  {
    if BaseVisualGap >= perimeterGap then BaseVisualGap else perimeterGap
  }

  /** "0" for an arc of at most half a circle, otherwise "1". */
  function LargeArcFlag(startAngle: real, endAngle: real): string {
    if endAngle - startAngle <= 180.0 then "0" else "1"
  }

  /** The arc from `startAngle` to `endAngle` at radius `r`: it is drawn
      from the end angle back to the start angle with sweep flag "0", and
      its large-arc flag is "0" exactly when the span is at most 180. */
  function DescribeArc(cx: int, cy: int, r: int, startAngle: real, endAngle: real): (p: ArcPath)
    ensures p.largeArcFlag == "0" <==> endAngle - startAngle <= 180.0
    ensures p.largeArcFlag == "1" <==> endAngle - startAngle > 180.0
    ensures p.radius == r && p.sweepFlag == "0"
    ensures p.from.angle == endAngle && p.to.angle == startAngle
    ensures p.from.r == p.to.r == r && p.from.cx == p.to.cx == cx && p.from.cy == p.to.cy == cy
  {
    ArcPath(PolarPoint(cx, cy, r, endAngle), r, LargeArcFlag(startAngle, endAngle), "0",
            PolarPoint(cx, cy, r, startAngle))
  }

  /** Bar `barIndex` of sector `sectorIndex` among `n`, for a sector drawn
      in `sectorColor`. `perimeterGap` is the perimeter gap of the bar's
      radius; the rules below hold whatever its value. */
  function LayoutBar(n: nat, sectorIndex: int, barIndex: nat, strength: int,
                     perimeterGap: real, sectorColor: Color): (b: Bar)
    requires n > 0
    ensures b.radius == BarRadius(barIndex)
    ensures b.effectiveGap >= BaseVisualGap && b.effectiveGap >= perimeterGap
    ensures b.effectiveGap == BaseVisualGap || b.effectiveGap == perimeterGap
    ensures b.endAngle - b.startAngle == SectorSpan(n) - b.effectiveGap
    ensures b.startAngle - BaseAngle(n, sectorIndex) == b.effectiveGap / 2.0
    ensures (BaseAngle(n, sectorIndex) + SectorSpan(n)) - b.endAngle == b.effectiveGap / 2.0
    ensures b.active <==> barIndex < strength
    ensures b.stroke == if b.active then sectorColor else InactiveColor
    ensures b.path.largeArcFlag == "0" <==> b.endAngle - b.startAngle <= 180.0
    ensures b.path.radius == b.radius
  {
    var r := BarRadius(barIndex);
    var gap := EffectiveGap(perimeterGap);
    var sweep := SectorSpan(n) - gap;
    var startAngle := BaseAngle(n, sectorIndex) + gap / 2.0;
    var endAngle := startAngle + sweep;
    var active := IsActive(barIndex, strength);
    Bar(r, gap, startAngle, endAngle, active, if active then sectorColor else InactiveColor,
        DescribeArc(CenterX, CenterY, r, startAngle, endAngle))
  }

  // ---------------------------------------------------------------------
  // Sectors and the whole chart

  /** The drawing of sector `i`: nine bars, the icon at radius 90 and the
      name at radius 102, both on the bisecting angle. */
  function LayoutSector(sectors: seq<Sector>, strengths: seq<int>, pi: real, i: nat): (v: SectorView)
    requires i < |sectors| && pi > 0.0
    ensures |v.bars| == BarCount
    ensures v.baseAngle == BaseAngle(|sectors|, i) && v.labelAngle == LabelAngle(|sectors|, i)
    ensures v.iconPos == PolarPoint(CenterX, CenterY, IconRadius, v.labelAngle)
    ensures v.textPos == PolarPoint(CenterX, CenterY, LabelRadius, v.labelAngle)
    ensures v.iconHref == GetIconPath(sectors[i]) && v.iconTitle == sectors[i].icon
    ensures v.name == sectors[i].name
  {
    var n := |sectors|;
    var strength := StrengthAt(strengths, i);
    var color := GradientColor(OuterBarIndex(strength));
    var labelAngle := LabelAngle(n, i);
    SectorView(BaseAngle(n, i), labelAngle, color,
               seq(BarCount, k requires 0 <= k < BarCount =>
                 LayoutBar(n, i, k, strength, PerimeterGap(BarRadius(k), pi), color)),
               PolarPoint(CenterX, CenterY, IconRadius, labelAngle), GetIconPath(sectors[i]),
               sectors[i].icon, PolarPoint(CenterX, CenterY, LabelRadius, labelAngle),
               sectors[i].name)
  }

  /** The whole chart: the centre marker, then one drawing per sector in
      order. With no sectors only the centre marker remains. */
  function Layout(sectors: seq<Sector>, strengths: seq<int>, pi: real): (c: Chart)
    requires pi > 0.0
    ensures c.center == CenterMarker(CenterX, CenterY, CenterRadius, CenterFill)
    ensures |c.sectors| == |sectors|
    ensures forall i :: 0 <= i < |sectors| ==> c.sectors[i] == LayoutSector(sectors, strengths, pi, i)
  {
    Chart(CenterMarker(CenterX, CenterY, CenterRadius, CenterFill),
          seq(|sectors|, i requires 0 <= i < |sectors| => LayoutSector(sectors, strengths, pi, i)))
  }

  // ---------------------------------------------------------------------
  // Properties of the layout

  /** Number of active bars in a sequence of bars. */
  function CountActive(bars: seq<Bar>): (c: nat)
    ensures c <= |bars|
  {
    if bars == [] then 0
    else CountActive(bars[..|bars| - 1]) + (if bars[|bars| - 1].active then 1 else 0)
  }

  lemma {:induction false} CountActivePrefix(bars: seq<Bar>, strength: int, m: nat)
    requires m <= |bars|
    requires forall k :: 0 <= k < |bars| ==> (bars[k].active <==> k < strength)
    ensures CountActive(bars[..m]) == Clamp(strength, 0, m)
  {
    if m > 0 {
      CountActivePrefix(bars, strength, m - 1);
      assert bars[..m][..m - 1] == bars[..m - 1];
    }
  }

  /** Exactly min(max(s, 0), 9) bars of a sector are active, where s is its
      strength, and a missing strength behaves as 0. */
  lemma ActiveBarCount(sectors: seq<Sector>, strengths: seq<int>, pi: real, i: nat)
    requires i < |sectors| && pi > 0.0
    ensures var s := if i < |strengths| then strengths[i] else 0;
            CountActive(LayoutSector(sectors, strengths, pi, i).bars) == Clamp(s, 0, BarCount)
  {
    var bars := LayoutSector(sectors, strengths, pi, i).bars;
    CountActivePrefix(bars, StrengthAt(strengths, i), |bars|);
    assert bars[..|bars|] == bars;
  }

  /** All active bars of a sector share one colour, the palette entry of
      the clamped index min(max(s - 1, 0), 8); every other bar is grey.
      When any bar is lit, that colour is the one of the outermost active
      bar, and every bar beyond it is inactive. */
  lemma SectorColours(sectors: seq<Sector>, strengths: seq<int>, pi: real, i: nat)
    requires i < |sectors| && pi > 0.0
    ensures var s := if i < |strengths| then strengths[i] else 0;
            var v := LayoutSector(sectors, strengths, pi, i);
            v.color == Palette[Clamp(s - 1, 0, |Palette| - 1)] &&
            (forall k :: 0 <= k < BarCount && v.bars[k].active ==> v.bars[k].stroke == v.color) &&
            (forall k :: 0 <= k < BarCount && !v.bars[k].active ==> v.bars[k].stroke == InactiveColor)
    ensures var s := if i < |strengths| then strengths[i] else 0;
            var v := LayoutSector(sectors, strengths, pi, i);
            var top := Min(s, BarCount) - 1;
            s >= 1 ==> v.bars[top].active && v.color == GradientColor(top) &&
                       forall k :: top < k < BarCount ==> !v.bars[k].active
  {
  }

  /** Strengths change only which bars are lit and their colour: the bars'
      geometry and the icon and label positions stay where they are. */
  lemma GeometryIndependentOfStrengths(sectors: seq<Sector>, s1: seq<int>, s2: seq<int>,
                                       pi: real, i: nat)
    requires i < |sectors| && pi > 0.0
    ensures var v1 := LayoutSector(sectors, s1, pi, i);
            var v2 := LayoutSector(sectors, s2, pi, i);
            v1.iconPos == v2.iconPos && v1.textPos == v2.textPos &&
            v1.baseAngle == v2.baseAngle && v1.labelAngle == v2.labelAngle &&
            forall k :: 0 <= k < BarCount ==>
              v1.bars[k].radius == v2.bars[k].radius &&
              v1.bars[k].startAngle == v2.bars[k].startAngle &&
              v1.bars[k].endAngle == v2.bars[k].endAngle &&
              v1.bars[k].path == v2.bars[k].path
  {
  }

  // ---------------------------------------------------------------------
  // The gap profile for the actual value of pi

  /** Bounds that hold of the value of pi the layout uses. */
  predicate PiApprox(pi: real) {
    3.1415 < pi < 3.1417
  }

  lemma DivBelow(x: real, d: real, q: real, c: real)
    requires d > 0.0 && q * d == x
    ensures q < c <==> x < c * d
  {
    if q < c {
      assert q * d < c * d;
    } else {
      assert q * d >= c * d;
    }
  }

  /** The perimeter gap shrinks strictly as the radius grows, so the
      effective gap never grows from one bar to the next. */
  lemma PerimeterGapDecreasing(r1: int, r2: int, pi: real)
    requires 0 < r1 < r2 && pi > 0.0
    ensures PerimeterGap(r1, pi) > PerimeterGap(r2, pi)
    ensures EffectiveGap(PerimeterGap(r1, pi)) >= EffectiveGap(PerimeterGap(r2, pi))
  {
    var g1, g2 := PerimeterGap(r1, pi), PerimeterGap(r2, pi);
    var d1, d2 := 2.0 * pi * r1 as real, 2.0 * pi * r2 as real;
    assert d1 < d2 by {
      assert d2 - d1 == 2.0 * pi * (r2 - r1) as real;
    }
    assert g2 * d1 < g2 * d2;
    DivBelow(360.0 * MinPerimeterGap, d1, g1, g2);
    assert g1 != g2;
  }

  /** With pi as used, the perimeter gap decides the gap of the eight inner
      bars (radius 14 to 70), and the fixed 6 degrees decides the gap of the
      outermost bar (radius 78). */
  lemma EffectiveGapProfile(k: nat, pi: real)
    requires k < BarCount && PiApprox(pi)
    ensures k < BarCount - 1 ==>
              EffectiveGap(PerimeterGap(BarRadius(k), pi)) == PerimeterGap(BarRadius(k), pi) > BaseVisualGap
    ensures k == BarCount - 1 ==>
              EffectiveGap(PerimeterGap(BarRadius(k), pi)) == BaseVisualGap > PerimeterGap(BarRadius(k), pi)
  {
    var r := BarRadius(k);
    var d := 2.0 * pi * r as real;
    DivBelow(360.0 * MinPerimeterGap, d, PerimeterGap(r, pi), BaseVisualGap);
    if k < BarCount - 1 {
      assert r <= 70;
      assert pi * r as real <= pi * 70.0;
    } else {
      assert pi * 78.0 > 245.0;
    }
  }

  /** The largest effective gap is the one of the innermost bar. */
  lemma InnermostGapIsLargest(k: nat, pi: real)
    requires k < BarCount && pi > 0.0
    ensures EffectiveGap(PerimeterGap(BarRadius(k), pi)) <= EffectiveGap(PerimeterGap(BarRadius(0), pi))
  {
    if k > 0 {
      PerimeterGapDecreasing(BarRadius(0), BarRadius(k), pi);
    }
  }

  /** The innermost bar's perimeter gap lies between 32.73 and 33 degrees. */
  lemma InnermostPerimeterGap(pi: real)
    requires PiApprox(pi)
    ensures 32.73 <= PerimeterGap(BarRadius(0), pi) < 33.0
  {
    var g0 := PerimeterGap(BarRadius(0), pi);
    DivBelow(360.0 * MinPerimeterGap, 2.0 * pi * 14.0, g0, 33.0);
    DivBelow(360.0 * MinPerimeterGap, 2.0 * pi * 14.0, g0, 32.73);
  }

  /** With at most ten sectors the gap of every bar is smaller than the
      sector's share of the circle. */
  lemma GapBelowShare(n: nat, k: nat, pi: real)
    requires 1 <= n <= 10 && k < BarCount && PiApprox(pi)
    ensures EffectiveGap(PerimeterGap(BarRadius(k), pi)) < SectorSpan(n)
  {
    InnermostGapIsLargest(k, pi);
    InnermostPerimeterGap(pi);
    DivBelow(360.0, n as real, SectorSpan(n), 36.0);
  }

  /** With at most ten sectors every bar spans a positive angle. */
  lemma BarSpansPositive(sectors: seq<Sector>, strengths: seq<int>, pi: real, i: nat, k: nat)
    requires i < |sectors| <= 10 && k < BarCount && PiApprox(pi)
    ensures var b := LayoutSector(sectors, strengths, pi, i).bars[k];
            b.endAngle > b.startAngle
  {
    var b := LayoutSector(sectors, strengths, pi, i).bars[k];
    var g := PerimeterGap(BarRadius(k), pi);
    assert b.effectiveGap == EffectiveGap(g);
    GapBelowShare(|sectors|, k, pi);
  }

  /** From eleven sectors on, the innermost bar's gap (about 32.74 degrees)
      exceeds the sector's share of the circle, and the bar's end angle
      falls before its start angle. */
  lemma InnermostSpanNegativeFromElevenSectors(sectors: seq<Sector>, strengths: seq<int>,
                                               pi: real, i: nat)
    requires 11 <= |sectors| && i < |sectors| && PiApprox(pi)
    ensures var b := LayoutSector(sectors, strengths, pi, i).bars[0];
            b.endAngle < b.startAngle
  {
    var n := |sectors|;
    var b := LayoutSector(sectors, strengths, pi, i).bars[0];
    InnermostPerimeterGap(pi);
    assert b.effectiveGap == PerimeterGap(BarRadius(0), pi);
    DivBelow(360.0, n as real, SectorSpan(n), 32.73);
  }
}
