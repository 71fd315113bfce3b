# Wellness radar: layout rules and editing state

This project is a Dafny model of the core of the "wellness radar" web app.
The app draws a set of named sectors as a circular chart on a fixed 200 x 200
canvas. Each sector has a strength from 0 to 9, shown as 9 concentric arc
bars, and the app lets the user rename sectors, change their icons and drag
strength sliders.

- `sectors.dfy` (module `Sectors`): the sector record, icon resolution
  (`GetIconPath`), and the functional edit of one field of one sector
  (`ChangeSector`).
- `radar_layout.dfy` (module `RadarLayout`): the pure layout that the `Radar`
  component computes on every render. It covers the angular partition, bar
  radii, the active test, the palette lookup, the per-bar gap and its
  centring, and the large-arc flag. Positions stay in polar form
  (`PolarPoint`). `Math.PI` becomes the parameter `pi`. The lemmas about
  concrete gap values assume `3.1415 < pi < 3.1417`.
- `editor.dfy` (module `Editor`): class `RadarEditor` holds the app state. Its
  fields are the title, the sectors, the committed strengths, the slider
  preview, the snapshots whose delayed commit has not fired yet, and the icon
  uploads whose file read has not completed yet. Every `setTimeout` uses the
  same 100 ms delay, so the snapshots fire in the order they were scheduled.
  The model keeps them as a first-in, first-out queue, and `FireTimer`
  commits the oldest one. The class invariant says the newest pending
  snapshot is the preview. So once the queue is empty, the chart shows
  exactly what the sliders show.

Notes on the code's behaviour:

- The code does not clamp slider values to [0, 9]. The range input only
  produces values in that range, so `SlideStrength` requires it. The slider
  maximum and the number of bars are both 9; the model uses one constant,
  `RadarLayout.BarCount`, for both.
- Icon and label radii are the fixed constants 90 and 102.
- With no sectors, `360 / sectors.length` is computed but never used, and only
  the centre marker is drawn. `Layout` returns exactly that, and `SectorSpan`
  is only called for a sector that exists.
- Nothing in the layout limits the number of sectors. From eleven sectors on,
  the innermost bar's gap (about 32.74 degrees) is larger than the sector's
  share, so the bar's end angle falls before its start angle
  (`InnermostSpanNegativeFromElevenSectors`). The app has a fixed list of six
  sectors, so this case is not reachable in it. With at most ten sectors every
  bar has a positive span (`BarSpansPositive`).
- An icon upload finishes in a callback that edits the sector list of the
  render in which the upload started (see "## Findings"). The model keeps an
  upload as the sector index plus that list. `CompleteIconUploadAsWritten`
  models the code as written; `CompleteIconUpload` edits the current list.

## Model

| member | source | states |
|---|---|---|
| Sectors.GetIconPath | src/App.tsx:26-29 | an icon that starts with `data:` is returned unchanged; any other icon gets the `/assets/` prefix; the result starts with `data:` exactly when the icon does |
| Sectors.IconPathRoundTrip | src/App.tsx:26-29 | the icon reference can always be read back from the resolved location |
| Sectors.IconPathInjective | src/App.tsx:26-29 | two sectors that resolve to the same location have the same icon |
| Sectors.WithField | src/App.tsx:42 | the spread update sets the chosen field to the new value and leaves the other field as it was |
| Sectors.ChangeSector | src/App.tsx:40-45 | the list keeps its length; only the chosen field of the sector at `index` changes; every other sector is unchanged; an out-of-range index leaves the list untouched |
| Sectors.ChangeSectorOverwrites | src/App.tsx:40-45 | two edits of the same field of the same sector: the later one wins |
| Sectors.ChangeSectorCommutes | src/App.tsx:40-45 | edits of different sectors or of different fields commute |
| RadarLayout.SectorSpan | src/App.tsx:131 | each of N sectors gets a positive share of the circle, and N shares make 360 degrees |
| RadarLayout.BaseAngle | src/App.tsx:160 | sector i starts at -90 + i * 360/N; its contract is `SectorsTile` (the starts tile the circle from -90 to 270) |
| RadarLayout.LabelAngle | src/App.tsx:161 | the label angle is half a share past the start; its contract is `SectorsTile` (the midpoint of the span) |
| RadarLayout.SectorsTile | src/App.tsx:160-161 | sector 0 starts at -90; each sector starts where the previous one ends; the last one ends at 270; the label angle is the midpoint of the span |
| RadarLayout.StrengthAt | src/App.tsx:158 | the strength of sector i, 0 when the entry is missing; its contract is `ActiveBarCount` and `SectorColours`, which state the layout for `strengths[i]` or 0 |
| RadarLayout.OuterBarIndex | src/App.tsx:159 | the palette index max(s - 1, 0); its contract is `SectorColours` (the sector colour is the outermost active bar's colour) |
| RadarLayout.GradientColor | src/App.tsx:136-150 | the colour is a palette entry and never the inactive grey; an index at or past the last entry gives the last colour; a smaller index gives its own entry |
| RadarLayout.GradientColorRange | src/App.tsx:137-149 | index 0 gives `#FF0000`; any index of 8 or more gives `#006400`; distinct levels 0..8 give distinct colours |
| RadarLayout.IsActive | src/App.tsx:175 | bar k is lit when k + 1 <= strength; its contract is `LayoutBar` (active exactly when k < strength) and `ActiveBarCount` |
| RadarLayout.BarRadius | src/App.tsx:169 | radius 14 + 8k; its contract is `BarRadii` |
| RadarLayout.BarRadii | src/App.tsx:162-169 | bar radii grow strictly from 14 to 78 and stay below the icon radius 90 and the label radius 102 |
| RadarLayout.PerimeterGap | src/App.tsx:170 | the perimeter gap is positive, and times the circumference 2 pi r it gives 360 * 8 |
| RadarLayout.EffectiveGap | src/App.tsx:171 | the effective gap is at least 6 and at least the perimeter gap, and equals one of the two |
| RadarLayout.LargeArcFlag | src/App.tsx:213 | "0" for a span of at most 180 degrees, else "1"; its contract is `DescribeArc` |
| RadarLayout.DescribeArc | src/App.tsx:210-215 | the large-arc flag is "0" exactly when the span is at most 180 degrees, otherwise "1"; the path runs from the end angle back to the start angle on radius r, with sweep flag "0" |
| RadarLayout.LayoutBar | src/App.tsx:168-185 | for any perimeter gap: radius 14 + 8k; the gap is at least 6; the span is 360/N minus the gap; the span is centred, with half the gap on each side of the sector's bounds; the bar is active exactly when k < strength; the stroke is the sector colour when active and grey otherwise; the flag follows the span |
| RadarLayout.LayoutSector | src/App.tsx:157-200 | a sector has 9 bars; the icon sits at radius 90 and the name at radius 102, both on the bisecting angle; the icon link is the resolved icon path; the title is the raw icon reference |
| RadarLayout.Layout | src/App.tsx:152-206 | the chart is the grey centre marker plus one sector drawing per sector, in order; no sectors means the centre marker only |
| RadarLayout.ActiveBarCount | src/App.tsx:158-175 | exactly min(max(s, 0), 9) bars are active, where s is the sector's strength; a missing strength counts as 0 |
| RadarLayout.SectorColours | src/App.tsx:158-180 | all active bars share the colour `palette[min(max(s-1, 0), 8)]`; inactive bars are `#E0E0E0`; when s >= 1 that colour is the outermost active bar's own level colour, and every bar beyond it is inactive |
| RadarLayout.GeometryIndependentOfStrengths | src/App.tsx:157-174 | changing strengths moves no icon, label or bar: angles, radii and arc paths are the same |
| RadarLayout.PerimeterGapDecreasing | src/App.tsx:169-171 | the perimeter gap strictly decreases as the radius grows, so the effective gap never grows from one bar to the next |
| RadarLayout.InnermostGapIsLargest | src/App.tsx:169-171 | no bar has a larger effective gap than the innermost one |
| RadarLayout.EffectiveGapProfile | src/App.tsx:169-171 | with the real value of pi, the perimeter gap (above 6) is the gap of bars 0 to 7 (radius 14 to 70); the fixed 6 degrees is the gap of bar 8 (radius 78) |
| RadarLayout.InnermostPerimeterGap | src/App.tsx:169-170 | with the real value of pi the innermost bar's perimeter gap lies in [32.73, 33) degrees |
| RadarLayout.GapBelowShare | src/App.tsx:170-172 | with at most ten sectors every bar's effective gap is smaller than the sector's share of the circle |
| RadarLayout.BarSpansPositive | src/App.tsx:170-174 | with at most ten sectors every bar's end angle lies after its start angle |
| RadarLayout.InnermostSpanNegativeFromElevenSectors | src/App.tsx:170-174 | with eleven or more sectors the innermost bar's end angle lies before its start angle |
| Editor.RadarEditor.constructor | src/App.tsx:34-37 | the initial state has the default title, the six default sectors, every strength 5, the preview equal to the strengths, and nothing pending |
| Editor.RadarEditor.SetTitle | src/App.tsx:78 | only the title changes |
| Editor.RadarEditor.HandleSectorChange | src/App.tsx:40-45 | the sectors become `ChangeSector` of the old sectors; the strengths, preview and pending commits are unchanged; the invariant is kept |
| Editor.RadarEditor.StartIconUpload | src/App.tsx:47-53 | with no file nothing changes; with a file an upload is recorded with its sector index and the sector list of that moment; nothing else changes |
| Editor.RadarEditor.CompleteIconUploadAsWritten | src/App.tsx:49 | as the code does it: the sectors become the upload's remembered list with that sector's icon set to the data URL, and the upload is removed |
| Editor.RadarEditor.CompleteIconUpload | src/App.tsx:49 | corrected: only the icon of the upload's sector changes in the current list; a data URL then resolves to itself; the upload is removed |
| Editor.StaleUploadScenario | src/App.tsx:40-53 | an upload to sector 0 starts, sector 1 is renamed to "X", the read completes as written: sector 1 has its old name again |
| Editor.CorrectedUploadScenario | src/App.tsx:40-53 | the same events with the corrected completion: sector 1 keeps the name "X" and sector 0 shows the uploaded data URL |
| Editor.RadarEditor.SlideStrength | src/App.tsx:106-110 | the preview becomes the old preview with entry i replaced; a commit of that copy is queued; the committed strengths are not yet changed |
| Editor.RadarEditor.FireTimer | src/App.tsx:110 | the oldest queued snapshot becomes the committed strengths; when no commit is left, the strengths equal the preview |

## Left out

- `polarToCartesian` (src/App.tsx:217-223): points are kept as (centre, radius, angle), and cosine and sine are not modelled. Arc endpoints, icons and labels all use the same polar form, `PolarPoint`.
- Floating-point rounding: angles and gaps are exact reals. `Math.PI` is a parameter `pi`. The lemmas that depend on its value only assume `3.1415 < pi < 3.1417`.
- Formatting the SVG path string (src/App.tsx:214), and the JSX, CSS and SVG element output. This covers the icon box offsets, the 12 x 12 icon size, the text offset, stroke width 4 and round caps.
- Reading the uploaded file with `FileReader` (src/App.tsx:47-53): the data URL it produces is an input to the completion methods.
- Editor.RadarEditor.CompleteIconUpload and Editor.RadarEditor.CompleteIconUploadAsWritten: a failed read is not modelled. It still fires `onloadend` (src/App.tsx:49), with a null result. The app then stores null as the icon, and `getIconPath` (src/App.tsx:28) fails on the next render. Icons are strings in this model, so a null icon cannot be represented.
- The 100 ms delay itself (src/App.tsx:110): the model keeps only the order in which the queued commits fire.
- The percentage readout `Math.round(s / 9 * 100)` (src/App.tsx:115): it is display-only and uses float rounding.
- React's `useState` mechanics and re-rendering (src/App.tsx:34-37): handlers assign the class fields directly.
- vite.config.ts: build configuration only.

## Findings

| source | as written | input that shows it | evidently intended | confidence | as-written member | corrected member |
|---|---|---|---|---|---|---|
| src/App.tsx:40-53 | `reader.onloadend` calls the `handleSectorChange` closure of the render that started the upload, which maps over that render's `sectors`; edits made while the file is read are undone | start an upload for sector 0, rename sector 1 to "X", then let the read complete: sector 1 is named "Ernährung & Genuss" again (two overlapping uploads lose one icon the same way) | the completion changes only the uploaded sector's icon in the current list | not executed | Editor.StaleUploadScenario | Editor.RadarEditor.CompleteIconUpload |
