# Radar chart, skill normalisation and icon paths

A Dafny model of the computational core of a small portfolio site written in
React/TypeScript:

- **The radar chart renderer** (`components/RadarChart.tsx`). It takes an ordered list
  of labelled values and draws these layers:
  - six concentric grid rings;
  - one spoke per axis;
  - the data polygon, once filled and once stroked;
  - one label per entry;
  - an optional legend.

  The model has the whole render as one pure function, `RadarChart.RadarChartComponent`.
  It goes from the props to a `ChartView` value that holds every path string, coordinate,
  data-dependent colour and dash pattern the component would put into its SVG.
- **The skills chart's data preparation** (`src/components/SkillsRadarChart.tsx`). It
  turns a 1-to-5 score into a fraction in [0, 1], with `null` read as 0. It maps a
  `user_skills` row to the five radar entries, in a fixed order.
- **The icon component** (`components/Icon.tsx`). It defaults the icon set to `Base`,
  builds the path `/icons/<set>/<name>.svg` and builds the alternative text. It then
  passes the remaining props through to the `<img>`.

All three are pure in the source: `map`/`join`/`Array.from` expressions, template
strings and `const` bindings. So the model uses datatypes, functions and lemmas only.

The host environment is not interpreted. `Math.PI`, `Math.cos`, `Math.sin` and the
conversion of a number to text inside a template string are the four fields of a
`RadarChart.Host` value that the caller passes in. Any lemma that needs a
trigonometric fact asks for it about the one angle it uses, as a precondition:
`OnUnitCircle` says that cos² + sin² = 1 at that angle. Any lemma that counts path
commands asks that number text contains no `M`, `L` or `Z` (`ShowsPlainNumbers`).

The model follows the code in these details:

- There are always 6 grid rings (`numGridLevels`).
- The palette `gridColors` has one colour per level, six in all, and ring `level` uses `gridColors[level]`.
- A ring is dashed when its 0-based `level` is odd (`level % 2 === 1`).
- An empty data list is accepted. `numAxes` becomes 1, every ring is a single move
  followed by the close, and the data path is just ` Z`.

## Model

| member | source | states |
|---|---|---|
| RadarChart.ResolveConfig | components/RadarChart.tsx:62-69 | each prop that is left undefined takes its default: size 500 and the four default colours; a given prop is kept |
| RadarChart.NumAxes | components/RadarChart.tsx:73 | the axis count is at least 1 and at least the number of entries; it equals the number of entries when there are any and is 1 for an empty list |
| RadarChart.MakeLayout | components/RadarChart.tsx:71-77 | the centre is half the size, the radius is 0.8 times the centre (0.4 times the size), and numAxes angle steps make exactly one full turn, so the step never divides by zero |
| RadarChart.FirstAxisAtTop | components/RadarChart.tsx:91 | corollary of Angle's contract: axis 0 is at angle -π/2 (12 o'clock) for every host, size and list |
| RadarChart.FourAxesAreCardinal | components/RadarChart.tsx:77-91 | with four entries the axes point up, right, down and left: -π/2, 0, π/2 and π |
| RadarChart.AnglesIncrease | components/RadarChart.tsx:77-91 | consecutive axes are one step apart; the angles increase strictly with the index and stay in [-π/2, 3π/2) |
| RadarChart.AnglesWithinOneTurn | components/RadarChart.tsx:77-91 | every axis angle, the single axis of a one-entry or empty list included, lies in [-π/2, 3π/2) |
| RadarChart.Angle | components/RadarChart.tsx:91 | the one angle formula that vertices, rings, spokes and labels share; axis 0 is at -π/2 (FirstAxisAtTop and AnglesIncrease state the rest) |
| RadarChart.GetPoint | components/RadarChart.tsx:90-97 | `getPoint`: a value of 0 gives exactly the centre (VertexOnSpoke gives the direction, VertexDistance and InsideOuterRing the distance) |
| RadarChart.GetLabelPosition | components/RadarChart.tsx:108-116 | `getLabelPosition`: the anchor is the vertex of value 1.15 on its axis, and it carries the axis angle |
| RadarChart.DataPoints | components/RadarChart.tsx:100-102 | `dataPoints`: as many vertices as entries kept by `slice(0, numAxes)`; vertex i is getPoint(i, value of entry i) |
| RadarChart.PathCommand | components/RadarChart.tsx:104 | one command of a path: `M x y` for the first point and `L x y` for every later one |
| RadarChart.VertexOnSpoke | components/RadarChart.tsx:90-97 | vertex i of value v is the point the fraction v of the way from the centre to vertex i of the outermost ring, with no trigonometric fact assumed |
| RadarChart.ZeroValueAtCenter | components/RadarChart.tsx:90-97 | a vertex of value 0 is exactly the centre (size/2, size/2), whatever cos and sin return |
| RadarChart.VertexDistance | components/RadarChart.tsx:90-97 | on a unit direction, vertex i of value v lies at squared distance (radius·v)² from the centre |
| RadarChart.InsideOuterRing | components/RadarChart.tsx:90-97 | for a positive radius, a vertex lies within distance `radius` of the centre (the circle through the outer ring's vertices) if and only if -1 <= value <= 1; the renderer itself never clamps |
| RadarChart.DataPointsOnePerEntry | components/RadarChart.tsx:100-102 | adds to DataPoints' contract that `slice(0, numAxes)` drops nothing, because numAxes is at least the number of entries: one data vertex per entry, in input order, vertex i being getPoint(i, value of entry i) |
| RadarChart.PathData | components/RadarChart.tsx:103-105 | `pathData` and `gridPath`: every path ends in ` Z`, and no points give exactly ` Z` (PathDataIsPolygon gives the full text) |
| RadarChart.PathDataIsPolygon | components/RadarChart.tsx:103-105 | the joined path is exactly `M p0 L p1 … L pn Z` of the points, in order; no points gives ` Z` |
| RadarChart.PathShape | components/RadarChart.tsx:103-105 | adds to PathData's contract the leading `M` and first point: every path ends in ` Z`, starts with `M` and the first point when it has one, and an empty point list gives exactly ` Z` |
| RadarChart.PathCommandCount | components/RadarChart.tsx:103-105 | when number text holds no command letters, a path has one `M` (if there are points), one `L` for every later point and one `Z`, so its commands match its points one to one |
| RadarChart.GridRingIsUniformPolygon | components/RadarChart.tsx:127-136 | corollary of GridPoints and LevelRadius: vertex i of ring `level` is the vertex of axis i at the uniform value (level + 1)/6, and the outermost ring's radius is the full radius |
| RadarChart.RingsGrowOutwards | components/RadarChart.tsx:127-128 | for a positive radius, the ring radii are positive and strictly increase with the level, up to the full radius |
| RadarChart.LevelRadius | components/RadarChart.tsx:128 | `levelRadius`: ring `level` sits at (level + 1)/6 of the radius, and the outermost ring at the full radius |
| RadarChart.GridPoints | components/RadarChart.tsx:130-136 | the ring's `points`: one vertex per axis, vertex i being the vertex of axis i at the uniform value (level + 1)/6 |
| RadarChart.GridRing | components/RadarChart.tsx:127-153 | ring `level` is the path of its polygon, stroked `gridColors[level]`, dashed "2 2" iff the level is odd and solid "0" iff it is even |
| RadarChart.GridRings | components/RadarChart.tsx:127 | exactly six rings, ring `level` at position `level` |
| RadarChart.GridStyling | components/RadarChart.tsx:80-87 | corollary of GridRing and GridRings, adding that the palette has exactly six entries, so `gridColors[level]` is always in bounds: six rings, ring `level` stroked `gridColors[level]`, dashed "2 2" iff the level is odd and "0" iff it is even |
| RadarChart.Spokes | components/RadarChart.tsx:157-174 | one spoke per axis, from the centre to the point at the full radius on its axis, in the spoke colour |
| RadarChart.SpokeMeetsOuterRing | components/RadarChart.tsx:157-174 | spoke i runs from the centre to the vertex of value 1 on axis i, which is vertex i of the outermost ring |
| RadarChart.LabelBeyondOuterRing | components/RadarChart.tsx:108-116 | label i is anchored where a vertex of value 1.15 would be, at squared distance (1.15·radius)² from the centre, and it carries the axis angle |
| RadarChart.LabelFill | components/RadarChart.tsx:194-203 | the label is in the highlight colour iff its flag is `true`; an absent or false flag gives the plain label colour |
| RadarChart.Labels | components/RadarChart.tsx:192-210 | one label per entry kept by `slice(0, numAxes)`, in order, with the entry's text, its flag colour and the 1.15-radius anchor |
| RadarChart.LabelsFollowData | components/RadarChart.tsx:192-210 | there is one label per entry, in order, with the entry's text, anchored at 1.15 radius on its axis and coloured by its highlight flag |
| RadarChart.RadarLegend | components/RadarChart.tsx:44-59 | no legend for an empty list; otherwise one row per item, in order, with the item's text as key and label and its colour as the swatch |
| RadarChart.RadarChartComponent | components/RadarChart.tsx:118-215 | the svg is `size` wide and high, with viewBox `0 0 size size`; the rendered grid, spokes and labels are exactly GridRings, Spokes and Labels of the layout, so six rings, one spoke per axis and one label per entry with its text; one path of the data vertices is shared by the filled and stroked polygons, in the fill and border colours; the legend is shown iff the legend items are given and non-empty, and is then RadarLegend of them |
| RadarChart.ChartCommandCounts | components/RadarChart.tsx:103-141 | in the rendered chart, the data path has one command per entry and every grid ring has one command per axis |
| RadarChart.SingleAxisRing | components/RadarChart.tsx:127-141 | with one axis, each ring is a single move to its 12 o'clock vertex, then the close |
| RadarChart.EmptyDataDegradesGracefully | components/RadarChart.tsx:73-105 | an empty list draws a data path of just ` Z`, no labels, one spoke and six one-vertex rings |
| RadarChart.ThreeAxisScenario | components/RadarChart.tsx:71-102 | with size 100 and values 0.5, 1, 0 on three axes: radius 40, the first vertex at (50, 30), the second on its axis at the full radius, the third at the centre |
| SkillsRadarChart.NormalizeSkillValue | src/components/SkillsRadarChart.tsx:13-20 | the result is always in [0, 1]; null gives 0; a score in [0, 5] gives exactly score/5; above 5 gives 1 and below 0 gives 0 |
| SkillsRadarChart.NormalizeIsNearestInUnitRange | src/components/SkillsRadarChart.tsx:16-19 | the normalised value is the point of [0, 1] nearest to score/5 |
| SkillsRadarChart.NormalizeMonotone | src/components/SkillsRadarChart.tsx:16-19 | a higher score never normalises lower |
| SkillsRadarChart.NormalizeExamples | src/components/SkillsRadarChart.tsx:13-20 | null gives 0, 5 gives 1, 3 gives 0.6, 7 gives 1 and -2 gives 0 |
| SkillsRadarChart.MapUserSkillToRadarData | src/components/SkillsRadarChart.tsx:22-47 | exactly five entries, labelled Information Architecture, Interaction Design, Visual Design, Prototyping, Presentation; entry i holds the normalised value of its column; the first two are highlighted and the last three carry no flag |
| SkillsRadarChart.MappedValuesInUnitRange | src/components/SkillsRadarChart.tsx:22-47 | every mapped value lies in the renderer's 0-to-1 domain |
| SkillsRadarChart.RenderedSkillLabels | src/components/SkillsRadarChart.tsx:22-47 | rendered, a row gives five labels in the fixed order: two in the highlight colour, then three in the plain label colour |
| SkillsRadarChart.SkillVerticesWithinRadius | src/components/SkillsRadarChart.tsx:13-47 | for a positive size, every skill vertex lies within distance `radius` of the centre, the circle through the outer ring's vertices |
| SkillsRadarChart.SkillVerticesOnSpoke | src/components/SkillsRadarChart.tsx:13-47 | skill vertex i has a normalised value in [0, 1] and lies on spoke i, that fraction of the way from the centre to vertex i of the outermost ring |
| Icon.SetName | components/Icon.tsx:3-16 | every set's folder name is non-empty and contains no '/' |
| Icon.SetNameInjective | components/Icon.tsx:3-16 | different sets have different folder names |
| Icon.ResolveSet | components/Icon.tsx:40 | a missing set means `Base`; a given set is used as is |
| Icon.IconSrc | components/Icon.tsx:41 | the path starts with "/icons/" and ends with ".svg" (NameFromSrcRoundTrip and IconSrcInjective state the rest) |
| Icon.ComputedAlt | components/Icon.tsx:42 | a given alt is used as is; otherwise the alt is "<set> <name> icon" |
| Icon.Icon | components/Icon.tsx:40-44 | the image has `src` and `alt`; alt is the computed alt; src is the computed path unless the rest props carry their own `src`, which wins because the spread comes last; every rest prop is passed through unchanged, and no other attribute appears |
| Icon.NameFromSrcRoundTrip | components/Icon.tsx:41 | stripping "/icons/<set>/" and ".svg" from a set's path gives back the name |
| Icon.NameFromSrcSound | components/Icon.tsx:41 | whatever name a path yields for a set rebuilds exactly that path |
| Icon.IconSrcInjective | components/Icon.tsx:41 | different (set, name) pairs never share a path |
| Icon.DocumentedHomeIcon | components/Icon.tsx:36 | `<Icon name="home" />` shows /icons/Base/home.svg with alt "Base home icon" |
| Icon.DocumentedArrowIcon | components/Icon.tsx:37 | `<Icon set="Arrows" name="up" />` shows /icons/Arrows/up.svg |
| Icon.SrcIgnoresOtherProps | components/Icon.tsx:40-41 | the computed path depends on the set and the name only, never on alt or the other props |

## Left out

- Floating point is not modelled. Coordinates are exact reals: no rounding, NaN or infinities.
- `Math.PI`, `Math.cos` and `Math.sin` are the uninterpreted fields `pi`, `cos` and `sin` of
  `Host`. Facts about them are a per-angle precondition (`OnUnitCircle`, or exact values at
  -π/2 in `ThreeAxisScenario`).
- How JavaScript writes a number inside a template string is the uninterpreted field `show`.
  The command counts assume its text holds no `M`, `L` or `Z` (`ShowsPlainNumbers`).
- RadarChart.VertexDistance: distance is stated squared, because the reals here have no square root.
- RadarChart.InsideOuterRing: distance is stated squared, because the reals here have no square root.
- RadarChart.LabelBeyondOuterRing: distance is stated squared, because the reals here have no square root.
- SkillsRadarChart.SkillVerticesOnSpoke: it places each vertex on the segment from the centre to the outer ring's vertex. It does not prove that the vertex lies inside the drawn outer polygon. That would need the polygon to be convex, which depends on facts about cos and sin at every axis that the host does not supply.
- Some presentation attributes are not modelled:
  - `fill="none"` on rings and the border;
  - `opacity`, `strokeWidth`, `fontSize`, `textAnchor`, `dominantBaseline` and `className`;
  - the React `key` of rings, spokes and labels;
  - the legend's Tailwind markup.

  They are fixed literals and do not depend on the input.
- The `RadarChart.Legend` static property (`Object.assign`, components/RadarChart.tsx:223-225)
  only attaches `RadarLegend` to the chart component. It is not modelled.
- Icon.Icon: the rest props are modelled as string-valued attributes. React's other attribute
  value types (numbers, handlers, style objects) are not modelled.
- The fetch logic of the skills chart is left out: `useEffect`/`useState`, the Supabase query, and the
  loading, error and empty placeholders (src/components/SkillsRadarChart.tsx:56-126). They are
  network I/O and React state. The `legendItems` constant there is a plain literal.
- Other files are not part of this model:
  - src/components/UserSkillsList.tsx;
  - src/lib/supabase.ts;
  - next.config.ts;
  - the page layout and menu components;
  - the fixed-prop wrapper components/SkillsRadarChart.tsx.
- The generated `types/supabase` row type is not part of this model. Only the five score
  columns the mapping reads are represented in `UserSkillRow`.
