/**
 * The skills chart's data preparation: a row of 1-to-5 skill scores, any of
 * which may be `null`, becomes the five radar entries the renderer draws.
 * Fetching the row is not part of this model.
 */
module SkillsRadarChart {
  import opened Wrappers
  import RadarChart

  /** The five score columns of a `user_skills` row; `None` is a `null` column. */
  datatype UserSkillRow = UserSkillRow(
    ia: Option<real>,
    interaction: Option<real>,
    visual: Option<real>,
    prototype: Option<real>,
    presentation: Option<real>)

  /** The axis labels, in the order the chart draws them. */
  const SkillLabels: seq<string> :=
    ["Information Architecture", "Interaction Design", "Visual Design", "Prototyping", "Presentation"]

  /** `normalizeSkillValue`: a 1-to-5 score as a fraction of 5, clamped to [0, 1]; `null` is 0. */
  function NormalizeSkillValue(value: Option<real>): (r: real)
    ensures 0.0 <= r <= 1.0
    ensures value.None? ==> r == 0.0
    ensures value.Some? && 0.0 <= value.value <= 5.0 ==> r == value.value / 5.0
    ensures value.Some? && value.value > 5.0 ==> r == 1.0
    ensures value.Some? && value.value < 0.0 ==> r == 0.0
  {
    match value
    case None => 0.0
    case Some(v) =>
      var normalized := v / 5.0;
      if normalized < 0.0 then 0.0
      else if normalized > 1.0 then 1.0
      else normalized
  }

  /** Of all numbers in [0, 1], the normalised score is the one closest to score / 5. */
  lemma NormalizeIsNearestInUnitRange(v: real, q: real)
    requires 0.0 <= q <= 1.0
    ensures var r := NormalizeSkillValue(Some(v));
      var target := v / 5.0;
      (if r <= target then target - r else r - target) <= (if q <= target then target - q else q - target)
  {
  }

  /** A higher score never normalises lower. */
  lemma NormalizeMonotone(a: real, b: real)
    requires a <= b
    ensures NormalizeSkillValue(Some(a)) <= NormalizeSkillValue(Some(b))
  {
  }

  /** The worked values: null, 5, 3, 7 and -2. */
  lemma NormalizeExamples()
    ensures NormalizeSkillValue(None) == 0.0
    ensures NormalizeSkillValue(Some(5.0)) == 1.0
    ensures NormalizeSkillValue(Some(3.0)) == 0.6
    ensures NormalizeSkillValue(Some(7.0)) == 1.0
    ensures NormalizeSkillValue(Some(-2.0)) == 0.0
  {
  }

  /** The column behind chart entry `i`. */
  function Score(row: UserSkillRow, i: nat): Option<real>
    requires i < 5
  {
    match i
    case 0 => row.ia
    case 1 => row.interaction
    case 2 => row.visual
    case 3 => row.prototype
    case _ => row.presentation
  }

  /** `mapUserSkillToRadarData`: the five skills in a fixed order, the first two highlighted. */
  function MapUserSkillToRadarData(row: UserSkillRow): (r: seq<RadarChart.RadarChartData>)
    ensures |r| == |SkillLabels| == 5
    ensures forall i :: 0 <= i < 5 ==>
      && r[i].labelText == SkillLabels[i]
      && r[i].value == NormalizeSkillValue(Score(row, i))
      && r[i].highlighted == (if i < 2 then Some(true) else None)
  {
    [
      RadarChart.RadarChartData("Information Architecture", NormalizeSkillValue(row.ia), Some(true)),
      RadarChart.RadarChartData("Interaction Design", NormalizeSkillValue(row.interaction), Some(true)),
      RadarChart.RadarChartData("Visual Design", NormalizeSkillValue(row.visual), None),
      RadarChart.RadarChartData("Prototyping", NormalizeSkillValue(row.prototype), None),
      RadarChart.RadarChartData("Presentation", NormalizeSkillValue(row.presentation), None)
    ]
  }

  /** Every entry's value lies in the renderer's 0-to-1 domain. */
  lemma MappedValuesInUnitRange(row: UserSkillRow)
    ensures forall e :: e in MapUserSkillToRadarData(row) ==> 0.0 <= e.value <= 1.0
  {
    var r := MapUserSkillToRadarData(row);
    forall e | e in r ensures 0.0 <= e.value <= 1.0 {
      var i :| 0 <= i < 5 && r[i] == e;
      assert e.value == NormalizeSkillValue(Score(row, i));
    }
  }

  /**
   * Drawn by the renderer, a row gives five labels in the fixed order, the first two in the
   * highlight colour and the other three in the plain label colour.
   */
  lemma RenderedSkillLabels(host: RadarChart.Host, props: RadarChart.RadarChartProps, row: UserSkillRow)
    requires props.data == MapUserSkillToRadarData(row)
    ensures var v := RadarChart.RadarChartComponent(host, props);
      var c := RadarChart.ResolveConfig(props);
      && |v.svg.labels| == 5
      && (forall i :: 0 <= i < 5 ==> v.svg.labels[i].text == SkillLabels[i])
      && [v.svg.labels[0].fill, v.svg.labels[1].fill, v.svg.labels[2].fill, v.svg.labels[3].fill, v.svg.labels[4].fill]
         == [c.highlightColor, c.highlightColor, c.labelColor, c.labelColor, c.labelColor]
  {
    RadarChart.LabelsFollowData(host, props, 0);
    RadarChart.LabelsFollowData(host, props, 1);
    RadarChart.LabelsFollowData(host, props, 2);
    RadarChart.LabelsFollowData(host, props, 3);
    RadarChart.LabelsFollowData(host, props, 4);
  }

  /** With a positive size, every skill vertex lies within distance `radius` of the centre. */
  lemma SkillVerticesWithinRadius(host: RadarChart.Host, size: real, row: UserSkillRow, i: nat)
    requires size > 0.0 && i < 5
    requires var l := RadarChart.MakeLayout(host, size, MapUserSkillToRadarData(row));
      RadarChart.OnUnitCircle(host, RadarChart.Angle(l, i))
    ensures var data := MapUserSkillToRadarData(row);
      var l := RadarChart.MakeLayout(host, size, data);
      RadarChart.SqDist(RadarChart.DataPoints(l, data)[i], RadarChart.Point(l.center, l.center)) <= l.radius * l.radius
  {
    var data := MapUserSkillToRadarData(row);
    var l := RadarChart.MakeLayout(host, size, data);
    var v := data[i].value;
    SkillValueInUnitRange(row, i);
    assert RadarChart.DataPoints(l, data)[i] == RadarChart.GetPoint(l, i, v);
    RadarChart.InsideOuterRing(l, i, v);
  }

  /**
   * Every skill vertex lies on its spoke, between the centre and vertex i of the outermost
   * ring, at the fraction given by its normalised value.
   */
  lemma SkillVerticesOnSpoke(host: RadarChart.Host, size: real, row: UserSkillRow, i: nat)
    requires i < 5
    ensures var data := MapUserSkillToRadarData(row);
      var l := RadarChart.MakeLayout(host, size, data);
      && 0.0 <= data[i].value <= 1.0
      && RadarChart.DataPoints(l, data)[i]
         == RadarChart.PointAlong(RadarChart.Point(l.center, l.center), RadarChart.GridPoints(l, RadarChart.NumGridLevels - 1)[i], data[i].value)
  {
    var data := MapUserSkillToRadarData(row);
    var l := RadarChart.MakeLayout(host, size, data);
    var v := data[i].value;
    SkillValueInUnitRange(row, i);
    assert RadarChart.DataPoints(l, data)[i] == RadarChart.GetPoint(l, i, v);
    RadarChart.VertexOnSpoke(l, i, v);
  }

  lemma SkillValueInUnitRange(row: UserSkillRow, i: nat)
    requires i < 5
    ensures 0.0 <= MapUserSkillToRadarData(row)[i].value <= 1.0
  {
    MappedValuesInUnitRange(row);
    assert MapUserSkillToRadarData(row)[i] in MapUserSkillToRadarData(row);
  }
}
