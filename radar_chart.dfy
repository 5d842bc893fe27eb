/**
 * The radar (spider) chart renderer: from an ordered list of labelled values
 * it lays out six concentric grid rings, one spoke per axis, the data polygon
 * (drawn twice, filled and stroked), one text label per entry and an optional
 * legend.
 *
 * `Math.PI`, `Math.cos`, `Math.sin` and the conversion of a number to text
 * inside a template string are not interpreted: they are the fields of a
 * `Host` value that every caller passes in. Lemmas that need a trigonometric
 * fact state it as a `requires` about the one angle they use.
 */
module RadarChart {
  import opened Wrappers
  import opened Strings

  // ---------------------------------------------------------------------------
  // Data model
  // ---------------------------------------------------------------------------

  /** One axis: its label (`label` in the source), its magnitude (0 to 1 by convention, never clamped here) and an optional highlight flag. */
  datatype RadarChartData = RadarChartData(labelText: string, value: real, highlighted: Option<bool>)

  /** One legend entry: a colour swatch and its text. */
  datatype RadarLegendItem = RadarLegendItem(labelText: string, color: string)

  /** The component's props; `None` is a prop left `undefined`. */
  datatype RadarChartProps = RadarChartProps(
    data: seq<RadarChartData>,
    size: Option<real>,
    fillColor: Option<string>,
    borderColor: Option<string>,
    highlightColor: Option<string>,
    labelColor: Option<string>,
    legendItems: Option<seq<RadarLegendItem>>)

  /** The props once their defaults are filled in. */
  datatype Config = Config(
    size: real,
    fillColor: string,
    borderColor: string,
    highlightColor: string,
    labelColor: string)

  /** What the renderer takes from its host: `Math.PI`, `Math.cos`, `Math.sin` and number-to-text conversion. */
  datatype Host = Host(pi: real, cos: real -> real, sin: real -> real, show: real -> string)

  datatype Point = Point(x: real, y: real)

  /** The constants the component binds before drawing: `center`, `radius`, `numAxes` and `angleStep`. */
  datatype Layout = Layout(host: Host, center: real, radius: real, numAxes: nat, angleStep: real)

  datatype LabelPosition = LabelPosition(x: real, y: real, angle: real)

  /** One grid ring as drawn: its path, its stroke colour and its dash pattern. */
  datatype GridPath = GridPath(d: string, stroke: string, strokeDasharray: string)

  /** One axis line from the centre (x1, y1) to the outer ring (x2, y2). */
  datatype Spoke = Spoke(x1: real, y1: real, x2: real, y2: real, stroke: string)

  datatype FilledPath = FilledPath(d: string, fill: string)

  datatype StrokedPath = StrokedPath(d: string, stroke: string)

  /** One axis label: its anchor, its colour and its text. */
  datatype Label = Label(x: real, y: real, fill: string, text: string)

  /** One legend row: the React key, the swatch colour and the text. */
  datatype LegendRow = LegendRow(key: string, color: string, text: string)

  /** The `<svg>` element, layer by layer in drawing order. */
  datatype Svg = Svg(
    width: real,
    height: real,
    viewBox: string,
    grid: seq<GridPath>,
    spokes: seq<Spoke>,
    dataFill: FilledPath,
    dataBorder: StrokedPath,
    labels: seq<Label>)

  /** The whole render: the chart and, when shown, the legend below it. */
  datatype ChartView = ChartView(svg: Svg, legend: Option<seq<LegendRow>>)

  // ---------------------------------------------------------------------------
  // Constants
  // ---------------------------------------------------------------------------

  const DefaultSize: real := 500.0
  const DefaultFillColor: string := "#326960"
  const DefaultBorderColor: string := "#62EFE4"
  const DefaultHighlightColor: string := "#62EFE4"
  const DefaultLabelColor: string := "#9E9E9E"

  const NumGridLevels: nat := 6

  /** Ring colours from the innermost ring outwards. */
  const GridColors: seq<string> := ["#616161", "#515151", "#424242", "#515151", "#3B3B3B", "#515151"]

  const SpokeColor: string := "#424242"

  // ---------------------------------------------------------------------------
  // Props and layout
  // ---------------------------------------------------------------------------

  /** The destructuring defaults of the component's parameter. */
  function ResolveConfig(p: RadarChartProps): (c: Config)
    ensures p.size.Some? ==> c.size == p.size.value
    ensures p.size.None? ==> c.size == DefaultSize
    ensures p.fillColor.Some? ==> c.fillColor == p.fillColor.value
    ensures p.fillColor.None? ==> c.fillColor == DefaultFillColor
    ensures p.borderColor.Some? ==> c.borderColor == p.borderColor.value
    ensures p.borderColor.None? ==> c.borderColor == DefaultBorderColor
    ensures p.highlightColor.Some? ==> c.highlightColor == p.highlightColor.value
    ensures p.highlightColor.None? ==> c.highlightColor == DefaultHighlightColor
    ensures p.labelColor.Some? ==> c.labelColor == p.labelColor.value
    ensures p.labelColor.None? ==> c.labelColor == DefaultLabelColor
  {
    Config(
      p.size.GetOr(DefaultSize),
      p.fillColor.GetOr(DefaultFillColor),
      p.borderColor.GetOr(DefaultBorderColor),
      p.highlightColor.GetOr(DefaultHighlightColor),
      p.labelColor.GetOr(DefaultLabelColor))
  }

  /** `data.length || 1`: the number of axes, one even for an empty list. */
  function NumAxes(data: seq<RadarChartData>): (n: nat)
    ensures n >= 1 && n >= |data|
    ensures |data| > 0 ==> n == |data|
    ensures |data| == 0 ==> n == 1
  {
    if |data| == 0 then 1 else |data|
  }

  function MakeLayout(host: Host, size: real, data: seq<RadarChartData>): (l: Layout)
    ensures l.host == host
    ensures 2.0 * l.center == size
    ensures l.radius == 0.8 * l.center
    ensures l.numAxes == NumAxes(data)
    // the step is a finite division: numAxes turns of it make the full circle
    ensures l.angleStep * (l.numAxes as real) == 2.0 * host.pi
  {
    var numAxes := NumAxes(data);
    Layout(host, size / 2.0, size * 0.4, numAxes, (2.0 * host.pi) / (numAxes as real))
  }

  /** The angle of axis `i`, starting at 12 o'clock (the same expression at every use in the component). */
  function Angle(l: Layout, i: nat): (a: real)
    ensures i == 0 ==> a == -l.host.pi / 2.0
  {
    (i as real) * l.angleStep - l.host.pi / 2.0
  }

  /** The point at distance `r` from the centre in direction `angle`. */
  function Polar(l: Layout, r: real, angle: real): Point
  {
    Point(l.center + r * l.host.cos(angle), l.center + r * l.host.sin(angle))
  }

  /** `getPoint`: the vertex of axis `index` for magnitude `value`. */
  function GetPoint(l: Layout, index: nat, value: real): (p: Point)
    ensures value == 0.0 ==> p == Point(l.center, l.center)
  {
    Polar(l, l.radius * value, Angle(l, index))
  }

  /** `getLabelPosition`: the label anchor of axis `index`, outside the outer ring. */
  function GetLabelPosition(l: Layout, index: nat): (pos: LabelPosition)
    ensures Point(pos.x, pos.y) == GetPoint(l, index, 1.15)
    ensures pos.angle == Angle(l, index)
  {
    var angle := Angle(l, index);
    var labelRadius := l.radius * 1.15;
    var p := Polar(l, labelRadius, angle);
    LabelPosition(p.x, p.y, angle)
  }

  /** `s.slice(0, n)`. */
  function Slice<T>(s: seq<T>, n: nat): seq<T>
  {
    if n < |s| then s[..n] else s
  }

  /** `dataPoints`: one vertex per shown entry, in order. */
  function DataPoints(l: Layout, data: seq<RadarChartData>): (pts: seq<Point>)
    ensures |pts| == if |data| < l.numAxes then |data| else l.numAxes
    ensures forall i :: 0 <= i < |pts| ==> pts[i] == GetPoint(l, i, data[i].value)
  {
    var shown := Slice(data, l.numAxes);
    seq(|shown|, i requires 0 <= i < |shown| => GetPoint(l, i, shown[i].value))
  }

  /** The squared distance between two points. */
  function SqDist(p: Point, q: Point): real
  {
    (p.x - q.x) * (p.x - q.x) + (p.y - q.y) * (p.y - q.y)
  }

  /** The host's cosine and sine at `angle` lie on the unit circle. */
  predicate OnUnitCircle(h: Host, angle: real)
  {
    h.cos(angle) * h.cos(angle) + h.sin(angle) * h.sin(angle) == 1.0
  }

  // ---------------------------------------------------------------------------
  // Path strings
  // ---------------------------------------------------------------------------

  function Coordinates(show: real -> string, p: Point): string
  {
    show(p.x) + " " + show(p.y)
  }

  /** One command of a path: `M x y` for the first point, `L x y` for the others. */
  function PathCommand(show: real -> string, index: nat, p: Point): (cmd: string)
    ensures index == 0 ==> cmd == "M " + Coordinates(show, p)
    ensures index > 0 ==> cmd == "L " + Coordinates(show, p)
  {
    assert "M" + " " == "M " && "L" + " " == "L ";
    (if index == 0 then "M" else "L") + " " + Coordinates(show, p)
  }

  /** The commands joined by spaces, then ` Z` (used for the data polygon and every grid ring). */
  function PathData(show: real -> string, points: seq<Point>): (d: string)
    ensures |d| >= 2 && d[|d| - 2..] == " Z"
    ensures |points| == 0 ==> d == " Z"
  {
    Join(Commands(show, points), " ") + " Z"
  }

  /** The commands of a path, one per point. */
  function Commands(show: real -> string, points: seq<Point>): (cmds: seq<string>)
    ensures |cmds| == |points|
  {
    seq(|points|, i requires 0 <= i < |points| => PathCommand(show, i, points[i]))
  }

  /** `L x y` for each point. */
  function LineCommands(show: real -> string, ps: seq<Point>): (cmds: seq<string>)
    ensures |cmds| == |ps|
  {
    seq(|ps|, i requires 0 <= i < |ps| => "L " + Coordinates(show, ps[i]))
  }

  /** Reference form of a closed polygon: a move to the first vertex, a line to each later one, the close. */
  function Polygon(show: real -> string, points: seq<Point>): string
  {
    if |points| == 0 then " Z"
    else "M " + Coordinates(show, points[0]) + LinesTo(show, points[1..]) + " Z"
  }

  function LinesTo(show: real -> string, ps: seq<Point>): string
  {
    if |ps| == 0 then "" else " L " + Coordinates(show, ps[0]) + LinesTo(show, ps[1..])
  }

  /** A number's text carries none of the path command letters. */
  predicate NoCommandLetters(s: string)
  {
    'M' !in s && 'L' !in s && 'Z' !in s
  }

  ghost predicate ShowsPlainNumbers(h: Host)
  {
    forall r :: NoCommandLetters(h.show(r))
  }

  // ---------------------------------------------------------------------------
  // Grid rings, spokes, labels, legend
  // ---------------------------------------------------------------------------

  /** `levelRadius`: ring `level` (0-based) sits at (level + 1) sixths of the radius. */
  function LevelRadius(l: Layout, level: nat): (r: real)
    ensures r == l.radius * ((level as real + 1.0) / 6.0)
    ensures level == NumGridLevels - 1 ==> r == l.radius
  {
    // the divisor is NumGridLevels, written as a literal so the division stays linear
    (l.radius * (level as real + 1.0)) / 6.0
  }

  /** The ring's `points`: one vertex per axis at the ring's radius. */
  function GridPoints(l: Layout, level: nat): (pts: seq<Point>)
    ensures |pts| == l.numAxes
    ensures forall i :: 0 <= i < l.numAxes ==> pts[i] == GetPoint(l, i, (level as real + 1.0) / 6.0)
  {
    seq(l.numAxes, i requires 0 <= i < l.numAxes => Polar(l, LevelRadius(l, level), Angle(l, i)))
  }

  function GridRing(l: Layout, level: nat): (g: GridPath)
    requires level < NumGridLevels
    ensures g.d == PathData(l.host.show, GridPoints(l, level))
    ensures g.stroke == GridColors[level]
    ensures g.strokeDasharray == "2 2" <==> level % 2 == 1
    ensures g.strokeDasharray == "0" <==> level % 2 == 0
  {
    var isDotted := level % 2 == 1;
    GridPath(PathData(l.host.show, GridPoints(l, level)), GridColors[level], if isDotted then "2 2" else "0")
  }

  function GridRings(l: Layout): (rings: seq<GridPath>)
    ensures |rings| == NumGridLevels
    ensures forall level :: 0 <= level < NumGridLevels ==> rings[level] == GridRing(l, level)
  {
    seq(NumGridLevels, level requires 0 <= level < NumGridLevels => GridRing(l, level))
  }

  function Spokes(l: Layout): (spokes: seq<Spoke>)
    ensures |spokes| == l.numAxes
    ensures forall i :: 0 <= i < |spokes| ==>
      && Point(spokes[i].x1, spokes[i].y1) == Point(l.center, l.center)
      && Point(spokes[i].x2, spokes[i].y2) == Polar(l, l.radius, Angle(l, i))
      && spokes[i].stroke == SpokeColor
  {
    seq(l.numAxes, i requires 0 <= i < l.numAxes =>
      // (endX, endY): the point at the full radius on axis i
      var end := Polar(l, l.radius, Angle(l, i));
      Spoke(l.center, l.center, end.x, end.y, SpokeColor))
  }

  /** `item.highlighted ?? false`, then the colour it selects. */
  function LabelFill(c: Config, item: RadarChartData): (fill: string)
    ensures item.highlighted == Some(true) ==> fill == c.highlightColor
    ensures item.highlighted != Some(true) ==> fill == c.labelColor
  {
    var isHighlighted := item.highlighted.GetOr(false);
    if isHighlighted then c.highlightColor else c.labelColor
  }

  function Labels(l: Layout, c: Config, data: seq<RadarChartData>): (labels: seq<Label>)
    ensures |labels| == if |data| < l.numAxes then |data| else l.numAxes
    ensures forall i :: 0 <= i < |labels| ==>
      && labels[i].text == data[i].labelText
      && labels[i].fill == LabelFill(c, data[i])
      && Point(labels[i].x, labels[i].y) == GetPoint(l, i, 1.15)
  {
    var shown := Slice(data, l.numAxes);
    seq(|shown|, i requires 0 <= i < |shown| =>
      var pos := GetLabelPosition(l, i);
      Label(pos.x, pos.y, LabelFill(c, shown[i]), shown[i].labelText))
  }

  /** `RadarLegend`: nothing for an empty list, otherwise one row per item in order. */
  function RadarLegend(items: seq<RadarLegendItem>): (r: Option<seq<LegendRow>>)
    ensures r.None? <==> |items| == 0
    ensures r.Some? ==> |r.value| == |items|
    ensures r.Some? ==> forall i :: 0 <= i < |items| ==>
      r.value[i].key == items[i].labelText && r.value[i].color == items[i].color && r.value[i].text == items[i].labelText
  {
    if |items| == 0 then None
    else Some(seq(|items|, i requires 0 <= i < |items| => LegendRow(items[i].labelText, items[i].color, items[i].labelText)))
  }

  /** `RadarChartComponent`: the whole render as a pure function of the props. */
  function RadarChartComponent(host: Host, props: RadarChartProps): (v: ChartView)
    ensures |v.svg.grid| == NumGridLevels
    ensures |v.svg.spokes| == NumAxes(props.data)
    ensures |v.svg.labels| == |props.data|
    ensures forall i :: 0 <= i < |props.data| ==> v.svg.labels[i].text == props.data[i].labelText
    ensures v.svg.dataFill.d == v.svg.dataBorder.d
    ensures v.svg.width == v.svg.height == ResolveConfig(props).size
    ensures v.svg.viewBox == "0 0 " + host.show(ResolveConfig(props).size) + " " + host.show(ResolveConfig(props).size)
    ensures v.svg.dataFill.fill == ResolveConfig(props).fillColor && v.svg.dataBorder.stroke == ResolveConfig(props).borderColor
    ensures var l := MakeLayout(host, ResolveConfig(props).size, props.data);
      && v.svg.grid == GridRings(l)
      && v.svg.spokes == Spokes(l)
      && v.svg.dataBorder.d == PathData(host.show, DataPoints(l, props.data))
      && v.svg.labels == Labels(l, ResolveConfig(props), props.data)
    ensures v.legend.Some? ==> props.legendItems.Some? && v.legend == RadarLegend(props.legendItems.value)
    ensures v.legend.Some? <==> props.legendItems.Some? && |props.legendItems.value| > 0
  {
    var c := ResolveConfig(props);
    var l := MakeLayout(host, c.size, props.data);
    var pathData := PathData(host.show, DataPoints(l, props.data));
    var svg := Svg(
      c.size,
      c.size,
      "0 0 " + host.show(c.size) + " " + host.show(c.size),
      GridRings(l),
      Spokes(l),
      FilledPath(pathData, c.fillColor),
      StrokedPath(pathData, c.borderColor),
      Labels(l, c, props.data));
    var legend :=
      if props.legendItems.Some? && |props.legendItems.value| > 0
      then RadarLegend(props.legendItems.value)
      else None;
    ChartView(svg, legend)
  }

  // ---------------------------------------------------------------------------
  // Angles
  // ---------------------------------------------------------------------------

  lemma FirstAxisAtTop(host: Host, size: real, data: seq<RadarChartData>)
    ensures Angle(MakeLayout(host, size, data), 0) == -host.pi / 2.0
  {
  }

  /** With four axes the angles are the four cardinal directions. */
  lemma FourAxesAreCardinal(host: Host, size: real, data: seq<RadarChartData>)
    requires |data| == 4
    ensures var l := MakeLayout(host, size, data);
      [Angle(l, 0), Angle(l, 1), Angle(l, 2), Angle(l, 3)] == [-host.pi / 2.0, 0.0, host.pi / 2.0, host.pi]
  {
    var l := MakeLayout(host, size, data);
    assert l.angleStep == host.pi / 2.0;
  }

  /** Every axis angle, including that of a single axis, lies in the one turn [-π/2, 3π/2) from 12 o'clock. */
  lemma AnglesWithinOneTurn(host: Host, size: real, data: seq<RadarChartData>)
    requires host.pi > 0.0
    ensures var l := MakeLayout(host, size, data);
      forall k: nat :: k < NumAxes(data) ==> -host.pi / 2.0 <= Angle(l, k) < 3.0 * host.pi / 2.0
  {
    var l := MakeLayout(host, size, data);
    var n := l.numAxes as real;
    var step := l.angleStep;
    assert step > 0.0 by {
      assert step * n == 2.0 * host.pi;
    }
    forall k: nat | k < NumAxes(data)
      ensures -host.pi / 2.0 <= Angle(l, k) < 3.0 * host.pi / 2.0
    {
      assert 0.0 <= (k as real) * step;
      assert (k as real) * step < n * step by {
        assert (k as real) < n;
      }
    }
  }

  /** Consecutive axes are one step apart; the angles increase strictly and cover one turn from 12 o'clock. */
  lemma AnglesIncrease(host: Host, size: real, data: seq<RadarChartData>, i: nat, j: nat)
    requires host.pi > 0.0
    requires i < j < NumAxes(data)
    ensures var l := MakeLayout(host, size, data);
      && Angle(l, i + 1) - Angle(l, i) == l.angleStep
      && Angle(l, i) < Angle(l, j)
      && -host.pi / 2.0 <= Angle(l, i)
      && Angle(l, j) < 3.0 * host.pi / 2.0
  {
    var l := MakeLayout(host, size, data);
    var n := l.numAxes as real;
    var step := l.angleStep;
    assert step > 0.0 by {
      assert step * n == 2.0 * host.pi;
    }
    assert (i as real) * step < (j as real) * step;
    assert (j as real) * step < n * step by {
      assert (j as real) < n;
    }
  }

  // ---------------------------------------------------------------------------
  // Vertices
  // ---------------------------------------------------------------------------

  /** A zero magnitude puts the vertex exactly at the centre, whatever the trigonometry. */
  lemma ZeroValueAtCenter(host: Host, size: real, data: seq<RadarChartData>, i: nat)
    ensures var l := MakeLayout(host, size, data);
      GetPoint(l, i, 0.0) == Point(size / 2.0, size / 2.0)
  {
  }

  /** On a unit direction, the point at offset `t` lies at distance |t| from the centre. */
  lemma PolarDistance(l: Layout, t: real, angle: real)
    requires OnUnitCircle(l.host, angle)
    ensures SqDist(Polar(l, t, angle), Point(l.center, l.center)) == t * t
  {
    var c, s := l.host.cos(angle), l.host.sin(angle);
    calc {
      SqDist(Polar(l, t, angle), Point(l.center, l.center));
      == (t * c) * (t * c) + (t * s) * (t * s);
      == (t * t) * (c * c + s * s);
    }
  }

  /** ... so it stays within distance `bound` exactly when -bound <= t <= bound. */
  lemma PolarWithin(l: Layout, t: real, angle: real, bound: real)
    requires bound > 0.0
    requires OnUnitCircle(l.host, angle)
    ensures SqDist(Polar(l, t, angle), Point(l.center, l.center)) <= bound * bound <==> -bound <= t <= bound
  {
    PolarDistance(l, t, angle);
    SquareAtMost(t, bound);
  }

  lemma SquareAtMost(t: real, b: real)
    requires b > 0.0
    ensures t * t <= b * b <==> -b <= t <= b
  {
    if 0.0 <= t <= b {
      assert t * t <= t * b <= b * b;
    } else if -b <= t < 0.0 {
      assert t * t <= (-t) * b <= b * b;
    } else if t > b {
      assert t * t > t * b > b * b;
    } else {
      assert t * t > (-t) * b > b * b;
    }
  }

  /** Along its axis, a vertex lies at distance radius * value from the centre. */
  lemma VertexDistance(l: Layout, i: nat, value: real)
    requires OnUnitCircle(l.host, Angle(l, i))
    ensures SqDist(GetPoint(l, i, value), Point(l.center, l.center)) == (l.radius * value) * (l.radius * value)
  {
    PolarDistance(l, l.radius * value, Angle(l, i));
  }

  /**
   * For a positive radius, a vertex lies within distance `radius` of the centre (the circle
   * through the outer ring's vertices) exactly when |value| <= 1.
   */
  lemma InsideOuterRing(l: Layout, i: nat, value: real)
    requires l.radius > 0.0
    requires OnUnitCircle(l.host, Angle(l, i))
    ensures SqDist(GetPoint(l, i, value), Point(l.center, l.center)) <= l.radius * l.radius <==> -1.0 <= value <= 1.0
  {
    PolarWithin(l, l.radius * value, Angle(l, i), l.radius);
    ScaledUnitInterval(l.radius, value);
  }

  lemma ScaledUnitInterval(r: real, v: real)
    requires r > 0.0
    ensures -r <= r * v <= r <==> -1.0 <= v <= 1.0
  {
    if v > 1.0 {
      assert r * v - r == r * (v - 1.0);
    } else if v < -1.0 {
      assert -r - r * v == r * (-1.0 - v);
    } else {
      assert r - r * v == r * (1.0 - v);
      assert r * v + r == r * (v + 1.0);
    }
  }

  /** One vertex per entry, in input order: `slice(0, numAxes)` never drops an entry. */
  lemma DataPointsOnePerEntry(host: Host, size: real, data: seq<RadarChartData>)
    ensures var l := MakeLayout(host, size, data);
      && Slice(data, l.numAxes) == data
      && |DataPoints(l, data)| == |data|
      && forall i :: 0 <= i < |data| ==> DataPoints(l, data)[i] == GetPoint(l, i, data[i].value)
  {
  }

  // ---------------------------------------------------------------------------
  // Path strings
  // ---------------------------------------------------------------------------

  lemma {:induction false} JoinLines(show: real -> string, ps: seq<Point>)
    requires |ps| > 0
    ensures " " + Join(LineCommands(show, ps), " ") == LinesTo(show, ps)
  {
    var cmds := LineCommands(show, ps);
    if |ps| == 1 {
      assert LinesTo(show, ps[1..]) == "";
    } else {
      var rest := ps[1..];
      assert cmds[1..] == LineCommands(show, rest);
      JoinLines(show, rest);
      assert Join(cmds, " ") == cmds[0] + " " + Join(LineCommands(show, rest), " ");
    }
  }

  /** After the first, every command of a path is a line command. */
  lemma CommandsAfterFirst(show: real -> string, points: seq<Point>)
    requires |points| > 0
    ensures Commands(show, points)[1..] == LineCommands(show, points[1..])
  {
    var cmds, lines := Commands(show, points), LineCommands(show, points[1..]);
    assert "L" + " " == "L ";
    forall i | 0 <= i < |lines| ensures cmds[1..][i] == lines[i] {
      assert cmds[i + 1] == ("L" + " ") + Coordinates(show, points[i + 1]);
    }
  }

  /** The first command of a path is a move. */
  lemma FirstCommand(show: real -> string, points: seq<Point>)
    requires |points| > 0
    ensures Commands(show, points)[0] == "M " + Coordinates(show, points[0])
  {
    assert "M" + " " == "M ";
  }

  /** The joined commands are exactly the reference polygon text. */
  lemma PathDataIsPolygon(show: real -> string, points: seq<Point>)
    ensures PathData(show, points) == Polygon(show, points)
  {
    if |points| == 0 {
      assert Commands(show, points) == [];
    } else if |points| == 1 {
      SinglePointPath(show, points);
    } else {
      ManyPointPath(show, points);
    }
  }

  lemma SinglePointPath(show: real -> string, points: seq<Point>)
    requires |points| == 1
    ensures PathData(show, points) == Polygon(show, points)
  {
    FirstCommand(show, points);
    assert Join(Commands(show, points), " ") == "M " + Coordinates(show, points[0]);
    assert LinesTo(show, points[1..]) == "";
  }

  lemma ManyPointPath(show: real -> string, points: seq<Point>)
    requires |points| > 1
    ensures PathData(show, points) == Polygon(show, points)
  {
    var cmds := Commands(show, points);
    FirstCommand(show, points);
    CommandsAfterFirst(show, points);
    JoinLines(show, points[1..]);
    JoinUnfold(cmds, " ");
  }

  /** Every path starts with `M` at its first point (when it has one) and ends with ` Z`; no points gives exactly ` Z`. */
  lemma PathShape(show: real -> string, points: seq<Point>)
    ensures var d := PathData(show, points);
      && |d| >= 2 && d[|d| - 2..] == " Z"
      && (|points| == 0 ==> d == " Z")
      && (|points| > 0 ==> var m := "M " + Coordinates(show, points[0]); |m| <= |d| && d[..|m|] == m)
  {
    PathDataIsPolygon(show, points);
  }

  lemma {:induction false} LinesToLetters(show: real -> string, ps: seq<Point>)
    requires forall k :: 0 <= k < |ps| ==> NoCommandLetters(show(ps[k].x)) && NoCommandLetters(show(ps[k].y))
    ensures Occurrences('M', LinesTo(show, ps)) == 0
    ensures Occurrences('L', LinesTo(show, ps)) == |ps|
    ensures Occurrences('Z', LinesTo(show, ps)) == 0
  {
    if |ps| > 0 {
      var c := Coordinates(show, ps[0]);
      CoordinatesLetters(show, ps[0]);
      OccurrencesAbsent('M', c);
      OccurrencesAbsent('L', c);
      OccurrencesAbsent('Z', c);
      SeparatorLetters();
      LinesToLetters(show, ps[1..]);
      OccurrencesConcat('M', " L " + c, LinesTo(show, ps[1..]));
      OccurrencesConcat('L', " L " + c, LinesTo(show, ps[1..]));
      OccurrencesConcat('Z', " L " + c, LinesTo(show, ps[1..]));
      OccurrencesConcat('M', " L ", c);
      OccurrencesConcat('L', " L ", c);
      OccurrencesConcat('Z', " L ", c);
    }
  }

  /** The command letters in the fixed separators of a path. */
  lemma SeparatorLetters()
    ensures Occurrences('M', " L ") == 0 && Occurrences('L', " L ") == 1 && Occurrences('Z', " L ") == 0
    ensures Occurrences('M', "M ") == 1 && Occurrences('L', "M ") == 0 && Occurrences('Z', "M ") == 0
    ensures Occurrences('M', " Z") == 0 && Occurrences('L', " Z") == 0 && Occurrences('Z', " Z") == 1
  {
    assert " L "[1..] == "L " && "L "[1..] == " " && " "[1..] == "";
    assert "M "[1..] == " ";
    assert " Z"[1..] == "Z" && "Z"[1..] == "";
  }

  lemma CoordinatesLetters(show: real -> string, p: Point)
    requires NoCommandLetters(show(p.x)) && NoCommandLetters(show(p.y))
    ensures NoCommandLetters(Coordinates(show, p))
  {
  }

  /** One command letter per point: a single `M` when there is a point, an `L` for each later one, and one `Z`. */
  lemma PathCommandCount(show: real -> string, points: seq<Point>)
    requires forall k :: 0 <= k < |points| ==> NoCommandLetters(show(points[k].x)) && NoCommandLetters(show(points[k].y))
    ensures var d := PathData(show, points);
      && Occurrences('M', d) + Occurrences('L', d) == |points|
      && Occurrences('M', d) == (if |points| == 0 then 0 else 1)
      && Occurrences('Z', d) == 1
  {
    PathDataIsPolygon(show, points);
    if |points| > 0 {
      var head := "M " + Coordinates(show, points[0]);
      var lines := LinesTo(show, points[1..]);
      CoordinatesLetters(show, points[0]);
      OccurrencesAbsent('M', Coordinates(show, points[0]));
      OccurrencesAbsent('L', Coordinates(show, points[0]));
      OccurrencesAbsent('Z', Coordinates(show, points[0]));
      SeparatorLetters();
      LinesToLetters(show, points[1..]);
      assert Polygon(show, points) == head + lines + " Z";
      OccurrencesConcat('M', "M ", Coordinates(show, points[0]));
      OccurrencesConcat('L', "M ", Coordinates(show, points[0]));
      OccurrencesConcat('Z', "M ", Coordinates(show, points[0]));
      OccurrencesConcat('M', head, lines);
      OccurrencesConcat('L', head, lines);
      OccurrencesConcat('Z', head, lines);
      OccurrencesConcat('M', head + lines, " Z");
      OccurrencesConcat('L', head + lines, " Z");
      OccurrencesConcat('Z', head + lines, " Z");
    }
  }

  // ---------------------------------------------------------------------------
  // Grid rings and spokes
  // ---------------------------------------------------------------------------

  /** Ring `level` is the polygon of the uniform magnitude (level + 1) / 6; the outermost is at the full radius. */
  lemma GridRingIsUniformPolygon(l: Layout, level: nat, i: nat)
    requires level < NumGridLevels && i < l.numAxes
    ensures GridPoints(l, level)[i] == GetPoint(l, i, (level as real + 1.0) / 6.0)
    ensures LevelRadius(l, NumGridLevels - 1) == l.radius
  {
    assert LevelRadius(l, level) == l.radius * ((level as real + 1.0) / 6.0);
  }

  /** The rings grow outwards: for a positive radius, a higher level has a strictly larger radius. */
  lemma RingsGrowOutwards(l: Layout, level: nat, level': nat)
    requires l.radius > 0.0 && level < level' < NumGridLevels
    ensures 0.0 < LevelRadius(l, level)
    ensures LevelRadius(l, level) < LevelRadius(l, level')
    ensures LevelRadius(l, level') <= l.radius
  {
    MulPositive(l.radius, level as real + 1.0);
    MulStrictlyIncreasing(l.radius, level as real + 1.0, level' as real + 1.0);
    MulIncreasing(l.radius, level' as real + 1.0, 6.0);
  }

  lemma MulPositive(r: real, a: real)
    requires r > 0.0 && a > 0.0
    ensures r * a > 0.0
  {
  }

  lemma MulStrictlyIncreasing(r: real, a: real, b: real)
    requires r > 0.0 && a < b
    ensures r * a < r * b
  {
  }

  lemma MulIncreasing(r: real, a: real, b: real)
    requires r > 0.0 && a <= b
    ensures r * a <= r * b
  {
  }

  /** Six rings; ring `level` is dashed exactly when `level` is odd, and has the palette colour of its level. */
  lemma GridStyling(l: Layout)
    ensures |GridRings(l)| == NumGridLevels == |GridColors|
    ensures forall level :: 0 <= level < NumGridLevels ==>
      && GridRings(l)[level].stroke == GridColors[level]
      && (GridRings(l)[level].strokeDasharray == "2 2" <==> level % 2 == 1)
      && (GridRings(l)[level].strokeDasharray == "0" <==> level % 2 == 0)
      && GridRings(l)[level].d == PathData(l.host.show, GridPoints(l, level))
  {
  }

  /** Each spoke runs from the centre to the vertex of magnitude 1, which is the outermost ring's vertex. */
  lemma SpokeMeetsOuterRing(l: Layout, i: nat)
    requires i < l.numAxes
    ensures var s := Spokes(l)[i];
      && Point(s.x1, s.y1) == Point(l.center, l.center)
      && Point(s.x2, s.y2) == GetPoint(l, i, 1.0)
      && Point(s.x2, s.y2) == GridPoints(l, NumGridLevels - 1)[i]
  {
    var angle := Angle(l, i);
    assert Spokes(l)[i] == Spoke(l.center, l.center, l.center + l.radius * l.host.cos(angle), l.center + l.radius * l.host.sin(angle), SpokeColor);
    assert l.radius * 1.0 == l.radius;
    assert GetPoint(l, i, 1.0) == Polar(l, l.radius, angle);
    assert LevelRadius(l, NumGridLevels - 1) == l.radius;
    assert GridPoints(l, NumGridLevels - 1)[i] == Polar(l, l.radius, angle);
  }

  /** The point a fraction `t` of the way from `a` to `b`. */
  function PointAlong(a: Point, b: Point, t: real): Point
  {
    Point(a.x + t * (b.x - a.x), a.y + t * (b.y - a.y))
  }

  /**
   * Vertex i of magnitude v lies on the line of spoke i: the fraction v of the way from the
   * centre to vertex i of the outermost ring. No trigonometric fact is needed.
   */
  lemma VertexOnSpoke(l: Layout, i: nat, v: real)
    requires i < l.numAxes
    ensures GetPoint(l, i, v) == PointAlong(Point(l.center, l.center), GridPoints(l, NumGridLevels - 1)[i], v)
  {
    var angle := Angle(l, i);
    assert LevelRadius(l, NumGridLevels - 1) == l.radius;
    assert GridPoints(l, NumGridLevels - 1)[i] == Polar(l, l.radius, angle);
    var o := GridPoints(l, NumGridLevels - 1)[i];
    var cx := l.radius * l.host.cos(angle);
    var sy := l.radius * l.host.sin(angle);
    assert o.x - l.center == cx && o.y - l.center == sy;
    assert (l.radius * v) * l.host.cos(angle) == v * cx;
    assert (l.radius * v) * l.host.sin(angle) == v * sy;
  }

  // ---------------------------------------------------------------------------
  // Labels
  // ---------------------------------------------------------------------------

  /** A label sits where a vertex of magnitude 1.15 would, at 1.15 times the radius. */
  lemma LabelBeyondOuterRing(l: Layout, i: nat)
    requires OnUnitCircle(l.host, Angle(l, i))
    ensures var pos := GetLabelPosition(l, i);
      && Point(pos.x, pos.y) == GetPoint(l, i, 1.15)
      && pos.angle == Angle(l, i)
      && SqDist(Point(pos.x, pos.y), Point(l.center, l.center)) == (1.15 * l.radius) * (1.15 * l.radius)
  {
    VertexDistance(l, i, 1.15);
  }

  /** One label per entry in input order, coloured by its highlight flag (absent counts as false). */
  lemma LabelsFollowData(host: Host, props: RadarChartProps, i: nat)
    requires i < |props.data|
    ensures var v := RadarChartComponent(host, props);
      var c := ResolveConfig(props);
      var l := MakeLayout(host, c.size, props.data);
      && |v.svg.labels| == |props.data|
      && v.svg.labels[i].text == props.data[i].labelText
      && Point(v.svg.labels[i].x, v.svg.labels[i].y) == GetPoint(l, i, 1.15)
      && (props.data[i].highlighted == Some(true) ==> v.svg.labels[i].fill == c.highlightColor)
      && (props.data[i].highlighted != Some(true) ==> v.svg.labels[i].fill == c.labelColor)
  {
  }

  // ---------------------------------------------------------------------------
  // The whole chart
  // ---------------------------------------------------------------------------

  /** Each path has one command per vertex: the data path one per entry, every ring one per axis. */
  lemma ChartCommandCounts(host: Host, props: RadarChartProps, level: nat)
    requires ShowsPlainNumbers(host)
    requires level < NumGridLevels
    ensures var v := RadarChartComponent(host, props);
      && Occurrences('M', v.svg.dataBorder.d) + Occurrences('L', v.svg.dataBorder.d) == |props.data|
      && Occurrences('M', v.svg.grid[level].d) + Occurrences('L', v.svg.grid[level].d) == NumAxes(props.data)
  {
    var c := ResolveConfig(props);
    var l := MakeLayout(host, c.size, props.data);
    var v := RadarChartComponent(host, props);
    DataPointsOnePerEntry(host, c.size, props.data);
    PlainPathCommandCount(host, DataPoints(l, props.data));
    assert v.svg.dataBorder.d == PathData(host.show, DataPoints(l, props.data));
    PlainPathCommandCount(host, GridPoints(l, level));
    assert v.svg.grid[level].d == PathData(host.show, GridPoints(l, level));
  }

  lemma PlainPathCommandCount(host: Host, pts: seq<Point>)
    requires ShowsPlainNumbers(host)
    ensures Occurrences('M', PathData(host.show, pts)) + Occurrences('L', PathData(host.show, pts)) == |pts|
  {
    assert forall k :: 0 <= k < |pts| ==> NoCommandLetters(host.show(pts[k].x)) && NoCommandLetters(host.show(pts[k].y));
    PathCommandCount(host.show, pts);
  }

  /** With a single axis every ring is one move to its vertex at 12 o'clock, then the close. */
  lemma SingleAxisRing(l: Layout, level: nat)
    requires l.numAxes == 1 && level < NumGridLevels
    ensures GridRing(l, level).d == "M " + Coordinates(l.host.show, Polar(l, LevelRadius(l, level), -l.host.pi / 2.0)) + " Z"
  {
    var pts := GridPoints(l, level);
    assert Angle(l, 0) == -l.host.pi / 2.0;
    assert |pts| == 1 && pts[0] == Polar(l, LevelRadius(l, level), -l.host.pi / 2.0);
    PathDataIsPolygon(l.host.show, pts);
    assert LinesTo(l.host.show, pts[1..]) == "";
  }

  /** An empty list still draws six one-vertex rings and one spoke, but its data path is just ` Z` and it has no labels. */
  lemma EmptyDataDegradesGracefully(host: Host, props: RadarChartProps, level: nat)
    requires props.data == [] && level < NumGridLevels
    ensures var v := RadarChartComponent(host, props);
      var l := MakeLayout(host, ResolveConfig(props).size, props.data);
      && v.svg.dataFill.d == " Z"
      && |v.svg.spokes| == 1
      && |v.svg.labels| == 0
      && |v.svg.grid| == NumGridLevels
      && v.svg.grid[level].d == "M " + Coordinates(host.show, Polar(l, LevelRadius(l, level), -host.pi / 2.0)) + " Z"
  {
    var c := ResolveConfig(props);
    var l := MakeLayout(host, c.size, props.data);
    var v := RadarChartComponent(host, props);
    EmptyLayoutView(l, c, v.svg, level);
  }

  /** The drawing of an empty list, given its layout: the facts behind EmptyDataDegradesGracefully. */
  lemma EmptyLayoutView(l: Layout, c: Config, svg: Svg, level: nat)
    requires l.numAxes == 1 && level < NumGridLevels
    requires svg.grid == GridRings(l) && svg.spokes == Spokes(l) && svg.labels == Labels(l, c, [])
    requires svg.dataFill.d == svg.dataBorder.d == PathData(l.host.show, DataPoints(l, []))
    ensures svg.dataFill.d == " Z"
    ensures |svg.spokes| == 1 && |svg.labels| == 0 && |svg.grid| == NumGridLevels
    ensures svg.grid[level].d == "M " + Coordinates(l.host.show, Polar(l, LevelRadius(l, level), -l.host.pi / 2.0)) + " Z"
  {
    assert DataPoints(l, []) == [];
    assert svg.grid[level] == GridRing(l, level);
    SingleAxisRing(l, level);
  }

  /**
   * Three axes A = 0.5, B = 1.0, C = 0.0 at size 100: the radius is 40, A sits 20 above the
   * centre (given the cosine and sine at 12 o'clock), B is on its axis at the full radius and C is the centre.
   */
  lemma ThreeAxisScenario(host: Host)
    requires host.cos(-host.pi / 2.0) == 0.0 && host.sin(-host.pi / 2.0) == -1.0
    ensures var data := [
        RadarChartData("A", 0.5, None), RadarChartData("B", 1.0, None), RadarChartData("C", 0.0, None)];
      var l := MakeLayout(host, 100.0, data);
      && l.radius == 40.0
      && DataPoints(l, data) == [
           Point(50.0, 30.0),
           Polar(l, 40.0, -host.pi / 2.0 + 2.0 * host.pi / 3.0),
           Point(50.0, 50.0)]
  {
    var data := [RadarChartData("A", 0.5, None), RadarChartData("B", 1.0, None), RadarChartData("C", 0.0, None)];
    var l := MakeLayout(host, 100.0, data);
    assert Angle(l, 0) == -host.pi / 2.0;
    assert Angle(l, 1) == -host.pi / 2.0 + 2.0 * host.pi / 3.0;
  }
}
