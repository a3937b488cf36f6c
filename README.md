# Roof take-off measuring tool: a Dafny model

The tool calibrates a photograph against a real-world length. The user then
traces roof planes and edges on it by clicking, which yields edge lengths,
per-label edge counts and pitch-adjusted areas. This project models that
measurement core and proves properties of the model. The core consists of:

- the click-driven editing state machine of `controller.py`. It runs over the
  session state of `model.py`.
  - In create-shape mode a click does this, in order:
    1. snaps to a vertex of a closed shape, then to the first point of the
       buffer;
    2. appends the point;
    3. registers the segment from the previous point, unless the same
       unordered pair is already registered;
    4. calibrates on the second point of a buffer while no scale exists;
    5. re-measures the last registered segment;
    6. closes the shape when the point is back within 5 px of the first point.
  - In edit-line mode a click selects the first segment whose line passes
    within 5 px of it and relabels that segment.
  - A right click looks up the first shape containing the click, by ray
    casting.
- the geometry of `controller.py` and `Shape.py`:
  - the 5 px proximity test;
  - the point-near-a-line test;
  - ray-casting containment;
  - the shoelace area;
  - the pitch correction.
- calibration and the report totals of `model.py`, and the segment record of
  `LineSegment.py`.
- the earlier single-file tool `MeasuringTool.py`. It is the same click
  machine without snapping and without the duplicate-pair check, plus a
  manual calibration command and right-click line selection.

Modules follow the source files:

| module | file | contents |
|---|---|---|
| `Wrappers` | `wrappers.dfy` | Option, Result, and Python's exceptions as values |
| `Geometry` | `geometry.dfy` | points, the 5 px tests, cyclic sums and the first-hit scan |
| `Segments` | `line_segment.dfy` | the segment record and its distance |
| `Shapes` | `shape.dfy` | the shape record, the shoelace area and the pitch correction |
| `Measurement` | `model.dfy` | the session value, calibration, the report and the model class |
| `RayCasting` | `ray_casting.dfy` | ray-casting containment |
| `Controller` | `controller.dfy` | the click step functions, the session invariant and the controller class |
| `MeasuringTool` | `measuring_tool.dfy` | the earlier single-file tool |

Each event handler is stated twice. One version is a pure step function over
a session value (`ClickStep`, `ToolClickStep`). The other is a method of the
class that owns the fields, and its postcondition ties the new state and the
outcome to the step function. Properties that span calls are lemmas about the
step functions.

Coordinates are integers, as click coordinates are, so several quantities are
exact integers:

- the 5 px tests compare squared quantities (`dx² + dy² < 25`,
  `cross² < 25·len²`);
- the shoelace sum;
- the ray-casting test, once cross-multiplied.

Square roots appear only in lengths and in the pitch multiplier. They go
through a function parameter `sqrt`, and lemmas that need its meaning assume
`IsSqrt(sqrt)`: the result is non-negative and squares back to the argument.

A Python exception becomes an outcome value (`Raised(fault)`). The state is
then what the handler had changed before the exception, since the window
keeps running after a failed callback.

Where the code does something other than what the tool is meant to do, the
model follows the code:

- **The closing point is stored.** A closed shape keeps its closing point, a
  copy of the first vertex, as its last vertex (`controller.py:57`).
  `PolygonAreaClosingVertex` and `PointInPolygonClosingVertex` show that this
  copy changes neither the area nor containment.
  - A buffer `A, B, A` closes into a "shape" with two distinct vertices.
- **Closing with no usable scale raises.** This happens when the scale is
  missing or zero. The shape is stored and the buffer is reset before the
  exception, so the stored shape keeps no area and the handler raises instead
  of completing (`CreateShapeRaises`).
- **The report does not count missing values as zero.** A segment without a
  distance or a shape without an area makes it raise (`ReportOf`).
- **The two snaps both apply.** The snap to the first point of the buffer is
  applied after the snap to shape vertices. It is not an alternative to it
  (`SnapClick`).
- **The vertex snap can chain.** Each vertex is compared with the point as
  already moved, so a click can end more than 5 px from where it was made
  (`SnapChains`).
- **Zero-length segments can be created.** Two clicks that snap to the same
  point register one. An edit-line click whose scan reaches that segment
  then divides by zero (`ZeroLengthSegment`).
- **The scale need not be positive.** It is zero when the reference segment
  has zero length (`CalibrateZeroLength`), and negative for a negative
  entered length.
- **The reference and the measured segment can be older segments.** The
  calibration reference and the segment a click measures are both the last
  registered segment. When the traced pair was already registered, as for an
  edge shared with an earlier shape, that is an older segment, not the one
  just traced.

## Model

| member | source | states |
|---|---|---|
| Geometry.IsCloseToPoint | controller.py:84-89 | the 5 px proximity test, as the squared distance below 25; its agreement with the source's square-root form is `IsCloseToPointAsRoot` |
| Geometry.IsCloseToPointAsRoot | controller.py:84-89 | the integer proximity test holds exactly when the square-root pixel distance is below 5 |
| Geometry.IsCloseToPointSymmetric | controller.py:84-89 | proximity and squared distance do not depend on the order of the two points |
| Geometry.IsCloseToPointReflexive | controller.py:84-89 | every point is close to itself |
| Geometry.IsPointOnLine | controller.py:91-96 | the near-a-line test for a segment with distinct endpoints, as `cross² < 25·len²`; its agreement with the source's division is `IsPointOnLineAsRoot`, and the zero-length case is the division by zero of `FirstHit` |
| Geometry.IsPointOnLineAsRoot | controller.py:91-96 | for distinct endpoints the integer hit test `cross² < 25·len²` holds exactly when `abs(cross) / length < 5`, the source's test |
| Geometry.HitBeyondSegmentEnd | controller.py:91-96 | the hit test is against the infinite line: a point far beyond the end of a segment, on its line, hits it |
| Geometry.FirstHit | controller.py:65-82 | the scan result is the first segment hit with every earlier one passed over, or a miss with every segment passed over, or the first zero-length segment reached, where the source divides by zero |
| Segments.NewLineSegment | LineSegment.py:2-6 | a new segment keeps its endpoints in the given order, has no distance and is labelled "Eave" |
| Segments.CalculateDistance | LineSegment.py:8-12 | the pixel length over the scale; what it means is stated by `CalculateDistanceTimesScale`, `CalculateDistanceSymmetric` and `CalculateDistanceZero` |
| Segments.CalculateDistanceTimesScale | LineSegment.py:8-12 | the distance times the scale is the segment's pixel length |
| Segments.CalculateDistanceSymmetric | LineSegment.py:9-11 | swapping the endpoints leaves the distance unchanged |
| Segments.CalculateDistanceZero | LineSegment.py:9-11 | at a positive scale the distance is non-negative, and zero exactly when the endpoints coincide |
| Shapes.NewShape | Shape.py:5-8 | a new shape stores the given vertices, no area and pitch 6/12 |
| Shapes.CalculatePolygonArea | Shape.py:23-35 | the accumulator loop over the edges `(i, (i + 1) % n)` returns the shoelace area of the vertex list |
| Shapes.PolygonAreaBounds | Shape.py:25-35 | the area is never negative, and it is zero for fewer than three vertices |
| Shapes.PolygonAreaRotate | Shape.py:30-33 | starting the outline at any vertex gives the same area |
| Shapes.PolygonAreaReverse | Shape.py:30-35 | reversing the outline negates the shoelace sum and leaves the area unchanged |
| Shapes.PolygonAreaClosingVertex | Shape.py:29-35 | a copy of the first vertex appended at the end leaves the sum and the area unchanged |
| Shapes.RectangleShoelace | Shape.py:29-33 | the shoelace sum of an axis-aligned w by h rectangle is exactly 2wh |
| Shapes.RectangleArea | Shape.py:23-35 | the area of an axis-aligned w by h rectangle is abs(wh) |
| Shapes.CalculateFlatArea | Shape.py:18-21 | the shoelace area over the square of the scale; `AreaIncludingPitchBounds` proves it non-negative |
| Shapes.PitchMultiplier | Shape.py:10-12 | `sqrt((rise/run)² + 1)`, defined only for a non-zero run; `AreaIncludingPitchBounds` proves it at least 1 |
| Shapes.AreaIncludingPitch | Shape.py:10-16 | the flat area times the pitch multiplier, raising on a zero run, a missing scale or a zero scale in the source's order; characterised by `AreaIncludingPitchBounds` |
| Shapes.AreaIncludingPitchBounds | Shape.py:10-21 | the pitch-adjusted area exists exactly when the run and the scale are non-zero; it is then at least the flat area, which is non-negative |
| Measurement.InitialSession | model.py:7-17 | a fresh session is in create-shape mode with no scale, no points, shapes, segments or selection, and an empty label |
| Measurement.MeasurementModel.constructor | model.py:7-21 | the new model's state is the fresh session and its labels are Ridge, Valley, Rake, Eave |
| Measurement.Calibrate | model.py:24-31 | a None or zero length keeps the scale; a truthy length with no segments reads an attribute of None; otherwise a scale is set |
| Measurement.MeasurementModel.SetScale | model.py:24-31 | writes only the scale, to the result of the calibration; when calibration raises, the scale is unchanged |
| Measurement.CalibrationRoundTrip | model.py:28-31 | after calibrating on a reference of non-zero pixel length, that segment measures exactly the entered length |
| Measurement.CalibrateZeroLength | model.py:28-31 | a zero-length reference calibrates to a scale of zero |
| Measurement.Total | model.py:35-40 | the accumulated total exists exactly when every value is present; otherwise adding None raises |
| Measurement.LabelList | model.py:36-39 | one label per segment, in registry order |
| Measurement.ReportOf | model.py:33-56 | the report exists exactly when every segment has a distance and every shape an area, and it raises otherwise; the distance total is the sum of the distances, the area total the sum of the areas, and the label counts are the multiset of the segments' labels |
| Measurement.MeasurementModel.GenerateReport | model.py:33-56 | the report of the model's own fields raises exactly when some segment has no distance or some shape has no area |
| Measurement.TotalAppend | model.py:40 | one more measured value adds exactly that value to the total |
| Measurement.TotalNonNegative | model.py:46-48 | non-negative values have a non-negative total |
| Measurement.TotalUpdate | model.py:35-40 | replacing one value changes the total by exactly the difference |
| Measurement.ReportRelabel | model.py:33-56 | relabelling one segment leaves the report producible exactly when it was, with the same distance and area totals, and moves one label count from the old label to the new one |
| Measurement.RelabelCounts | model.py:52-54 | relabelling one segment moves one count from its old label to the new one |
| RayCasting.PointInPolygon | controller.py:98-114 | containment as the parity of the cyclic crossing count; `IsPointInShape` computes it with the source's loop and the lemmas below characterise it |
| RayCasting.IsPointInShape | controller.py:98-114 | the counting loop returns the parity of the number of edges crossed by the ray from the click |
| RayCasting.CrossesLeftOfAsInteger | controller.py:108-111 | the interpolated crossing test divides only across a non-horizontal edge and equals an integer sign test |
| RayCasting.CrossingSymmetric | controller.py:107-111 | an edge is crossed or not whichever way round it is walked |
| RayCasting.CrossingDegenerate | controller.py:108 | an edge from a vertex to itself is never crossed, since the straddle guard excludes it |
| RayCasting.PointInPolygonRotate | controller.py:103-105 | containment does not depend on the starting vertex of the outline |
| RayCasting.PointInPolygonReverse | controller.py:103-114 | containment and the crossing count do not depend on the winding |
| RayCasting.PointInPolygonClosingVertex | controller.py:103-114 | the stored closing copy of the first vertex does not change containment |
| RayCasting.RectangleContainment | controller.py:98-114 | on a row the rectangle spans, a point is inside exactly when `0 < x <= w` |
| Controller.SnapToVertices | controller.py:23-25 | the inner loop leaves the point where it was or moves it onto a vertex of that shape |
| Controller.SnapToShapes | controller.py:22-25 | the snapped click is the click itself or a vertex of a closed shape |
| Controller.SnapNearVertex | controller.py:23-25 | a point within 5 px of some vertex of a shape ends on a vertex of that shape |
| Controller.SnapNearShapeVertex | controller.py:22-25 | a click within 5 px of some vertex of a closed shape is moved onto a vertex of a closed shape |
| Controller.SnapChains | controller.py:22-25 | vertices are compared with the already-moved point: a click at (0,0) beside vertices (4,0) and (8,0) ends at (8,0), which is not within 5 px of it |
| Controller.SnapClick | controller.py:21-28 | the appended point is the click, a vertex of a closed shape, or the first point of the buffer |
| Controller.SnapFarFromShapes | controller.py:22-25 | a click not within 5 px of any shape vertex is not moved |
| Controller.SnapFarFromVertices | controller.py:22-25 | a click not within 5 px of any vertex of one shape is not moved by it |
| Controller.RegisterSegment | controller.py:34-43 | after registration the pair is present; the registry grows by one new default segment exactly when the unordered pair was absent, keeps its prefix, and stays free of duplicate pairs |
| Controller.RegisterSegmentReversed | controller.py:38-42 | registering the reversed pair right after the pair changes nothing |
| Controller.AppendPoint | controller.py:19-43 | the buffer grows by the snapped click, a segment is registered once there are two points, and only the buffer and the registry change |
| Controller.CalibrateOnSecondPoint | controller.py:45-48 | it never raises and only the scale changes; on the buffer's second point, with no scale and a truthy length, the scale becomes the last registered segment's pixel length over that length, and otherwise nothing changes |
| Controller.MeasureLast | controller.py:50-53 | only the registry changes and it keeps its length; with at least two points and a truthy scale exactly the last segment gets its distance at that scale, and otherwise nothing changes |
| Controller.CloseShape | controller.py:55-60 | without a closing buffer nothing changes; otherwise the buffer is emptied and the new shape appended with the buffer as vertices and default pitch, and it stores the pitch-adjusted area and completes when that area exists, else keeps no area and raises its fault |
| Controller.CreateShapeStep | controller.py:17-60 | a create-shape click changes neither the mode, the selection nor the selected label; its effects are stated by `Closure`, `ClosureArea`, `CreateShapeRaises` and the lemmas beside them |
| Controller.EditLineStep | controller.py:62-82 | an edit-line click changes only the selection and labels, keeps every endpoint and distance, and when it raises, it raises division by zero with nothing changed |
| Controller.ClickStep | controller.py:16-82 | no click changes the mode or the selected label; `ClickConsistent` states the invariant every click keeps |
| Controller.InitialConsistent | model.py:7-17 | the fresh session satisfies the session invariant |
| Controller.AppendPointConsistent | controller.py:21-43 | appending a click keeps the invariant and only extends the registry |
| Controller.MeasureConsistent | controller.py:45-53 | calibration and measurement keep the invariant |
| Controller.CloseShapeConsistent | controller.py:55-60 | closure keeps the invariant |
| Controller.EditLineConsistent | controller.py:63-82 | an edit-line click keeps the invariant |
| Controller.ClickConsistent | controller.py:16-82 | every click keeps the invariant: no duplicate unordered pairs, a selection inside the registry, every buffer and shape edge registered, a snapped buffer, closed outlines |
| Controller.CalibrationCompletes | controller.py:45-48 | calibration during a click never raises, because the registry is non-empty by then |
| Controller.ScaleSetOnce | controller.py:46-48 | a click never changes a scale that is present |
| Controller.ScaleChangesOnlyOnSecondPoint | controller.py:46-48 | a click changes the scale only in create-shape mode, on the second point of a buffer, without a scale and with a truthy length; it is then the last segment's pixel length over that length |
| Controller.CreateShapeRegistry | controller.py:34-42 | a create-shape click grows the registry by one exactly when the buffer was non-empty and the snapped pair was not registered; earlier endpoints and labels do not change |
| Controller.ClickLines | controller.py:34-53 | after a create-shape click the registry is the registered one, with only its last segment's distance possibly changed |
| Controller.MeasuresLast | controller.py:50-53 | every create-shape click after the first point of a buffer, with a truthy scale after it, leaves the registered segments with the last one measured at that scale |
| Controller.CalibratesOnSecondPoint | controller.py:45-53 | the click that brings a buffer to two points with no scale and a non-zero entered length sets the scale to the last registered segment's pixel length over that length, and that segment then measures exactly the entered length when its pixel length is not zero |
| Controller.MeasuresLastOnly | controller.py:51-52 | only the last segment's distance is written, from its own endpoints, and only with a truthy scale |
| Controller.Closure | controller.py:56-58 | closure happens exactly when the buffer had at least two points and the snapped click is near the first; the buffer then empties and one shape is appended: the buffer plus the first point, default pitch. Otherwise the buffer grows by the snapped click and the shapes are unchanged |
| Controller.ClosureArea | controller.py:56-59 | a click that closes a shape and completes stores the pitch-adjusted area of the new outline at the current scale, which is at least the flat area, itself non-negative |
| Controller.CreateShapeRaises | controller.py:56-59 | a create-shape click raises exactly when it closes a shape without a truthy scale; the fault is None arithmetic or division by zero, and the new shape has no area |
| Controller.EditLineSelects | controller.py:63-82 | an edit-line click selects the first segment whose line it hits and relabels only it; a miss clears the selection and nothing else; a raise means a zero-length segment was reached with every earlier segment passed over, and nothing changed |
| Controller.EditLineReport | controller.py:71-74 | after an edit-line click the report can be produced exactly when it could before, with the same distance and area totals; a selection moves one of its label counts from the segment's old label to the selected one |
| Controller.ZeroLengthSegment | controller.py:27-42 | two clicks at one point register a zero-length segment, and an edit-line click whose scan reaches it then divides by zero |
| Controller.TraceCalibrates | controller.py:45-53 | clicking (0,0) then (100,0) and entering 10 sets scale 10 and measures the segment at 10 |
| Controller.TraceMeasures | controller.py:50-53 | a third click at (100,100) adds a segment measured at 10 |
| Controller.TraceCloses | controller.py:55-58 | a click at (2,2) after (0,0), (100,0), (100,100) closes the triangle outline with the snapped first point stored last and empties the buffer |
| Controller.Containment | controller.py:127-128 | one flag per shape, in registry order, set exactly when the shape's outline contains the click |
| Controller.FirstSet | controller.py:127-130 | the scan stops at the first set flag, every earlier flag clear, or finds none when no flag is set |
| Controller.PitchAt | controller.py:123-130 | a pitch answered is the pitch of some shape; `PitchAtFirstContaining` states which |
| Controller.PitchAtFirstContaining | controller.py:123-130 | the right click finds a pitch exactly when some shape contains the click, and it is the pitch of the first such shape |
| Controller.PitchAtDefault | controller.py:123-130 | with default pitches the right click reports 6/12 or nothing |
| Controller.MeasurementController.constructor | controller.py:6-8 | the controller holds the given model |
| Controller.MeasurementController.SnapToShapeVertices | controller.py:22-25 | the nested loop computes the shape-vertex snap |
| Controller.MeasurementController.HasSegment | controller.py:38-41 | the for/else scan finds the unordered pair exactly when it is registered |
| Controller.MeasurementController.AppendClick | controller.py:19-43 | the model's new state is the click appended with its segment registered |
| Controller.MeasurementController.CalibrateClick | controller.py:45-48 | the model's new state and outcome are those of calibration on the second point |
| Controller.MeasurementController.MeasureClick | controller.py:50-53 | the model's new state has the last segment measured |
| Controller.MeasurementController.CloseClick | controller.py:55-60 | the model's new state and outcome are those of closure |
| Controller.MeasurementController.CreateShapeClick | controller.py:17-60 | the model's new state and outcome are those of a create-shape click |
| Controller.MeasurementController.EditLineClick | controller.py:62-82 | the model's new state and outcome are those of an edit-line click |
| Controller.MeasurementController.OnClick | controller.py:16-82 | the model's new state and outcome are those of the click step, whose invariant and effects the lemmas above state |
| Controller.MeasurementController.OnRightClick | controller.py:123-130 | the pitch returned is that of the first shape containing the click; the model is not changed |
| MeasuringTool.InitialToolSession | MeasuringTool.py:22-41 | a fresh tool has no scale, points, shapes, segments, reference or selection |
| MeasuringTool.ToolSetScale | MeasuringTool.py:49-57 | the reference becomes the last segment or None; the call raises exactly when the length is truthy and there are no segments; the scale changes only with a truthy length and a segment, and then always becomes the last segment's pixel length over the entered length, whether or not a scale was present; nothing else changes |
| MeasuringTool.MeasureLastSegment | MeasuringTool.py:129-133 | the last segment receives the distance that, times the scale, is its pixel length, and keeps its endpoints and colour; the others are unchanged |
| MeasuringTool.ToolAppend | MeasuringTool.py:60-67 | the raw click is appended, plus a segment from the previous point whenever there was one |
| MeasuringTool.ToolCalibrateStage | MeasuringTool.py:70-72 | with a scale present nothing happens; otherwise only the scale and the reference can change |
| MeasuringTool.ToolMeasureStage | MeasuringTool.py:74-76 | with at least two points and a truthy scale, exactly the last segment gets pixel length over scale; otherwise nothing changes |
| MeasuringTool.ToolCloseStage | MeasuringTool.py:80-93 | the buffer is stored as it is and emptied exactly when it has at least 3 points and its last is near its first, by the same squared-distance-below-25 test as the controller |
| MeasuringTool.ToolClickStep | MeasuringTool.py:59-85 | a click never raises and never touches the selection |
| MeasuringTool.ToolRightClick | MeasuringTool.py:108-120 | a right click changes only the selection, selects an existing segment when it completes, and when it raises, raises division by zero with nothing changed |
| MeasuringTool.ToolClickPoints | MeasuringTool.py:59-85 | every click completes; it either appends the raw click or, when the buffer had two or more points and the click is near the first, stores the buffer with the click as a shape and empties it |
| MeasuringTool.ToolClickLines | MeasuringTool.py:64-67 | a click after the first of a buffer adds exactly one segment, from the previous point to the click; earlier endpoints stay |
| MeasuringTool.ToolMeasuresLastOnly | MeasuringTool.py:63-77 | after a click the segments are the appended ones, with only the last measured, at pixel length over the scale the click leaves, and only when the buffer held a point and that scale is truthy |
| MeasuringTool.ToolScaleSetOnce | MeasuringTool.py:70-72 | a click never changes a scale that is present |
| MeasuringTool.ToolScaleChangesOnlyOnSecondPoint | MeasuringTool.py:70-72 | scale and reference change only on the second point of a buffer while there is no scale |
| MeasuringTool.ToolSetScaleRoundTrip | MeasuringTool.py:49-57 | the Set Scale command with a non-zero length, over a present scale or none, makes the last segment the reference, and that segment then measures exactly the entered length |
| MeasuringTool.ToolCalibrationRoundTrip | MeasuringTool.py:49-76 | on the second point with a non-zero entered length, the new segment becomes the reference and is measured at exactly that length |
| MeasuringTool.ToolDuplicatePair | MeasuringTool.py:64-67 | walking back along the first segment registers its pair a second time, so the registry holds a duplicate unordered pair, which the controller never does |
| MeasuringTool.ToolRawClosingVertex | MeasuringTool.py:59-83 | without snapping, the closing click (1,1) is stored as the last vertex instead of the first point (0,0) |
| MeasuringTool.ToolSetScaleWithoutLines | MeasuringTool.py:49-54 | the calibration command with no segments and a truthy length clears the reference and raises |
| MeasuringTool.ToolRightClickSelects | MeasuringTool.py:108-127 | a right click selects the first segment hit by the same line test as the controller, clears the selection on a miss, and raises with nothing changed when a zero-length segment is reached with every earlier segment passed over; nothing else changes |
| MeasuringTool.MeasurementApp.constructor | MeasuringTool.py:13-41 | the new tool's state is the fresh tool session |
| MeasuringTool.MeasurementApp.SetScale | MeasuringTool.py:49-57 | the new state and outcome are those of the calibration command |
| MeasuringTool.MeasurementApp.CalculateArea | MeasuringTool.py:135-152 | returns the non-negative shoelace area of every stored shape, in order, through the same accumulator loop as Shape.py, and changes nothing |
| MeasuringTool.MeasurementApp.AppendClick | MeasuringTool.py:60-67 | the new state is the click and its segment appended |
| MeasuringTool.MeasurementApp.CalibrateClick | MeasuringTool.py:70-72 | the new state and outcome are those of the calibration stage |
| MeasuringTool.MeasurementApp.MeasureClick | MeasuringTool.py:74-78 | the new state has the last segment measured |
| MeasuringTool.MeasurementApp.CloseClick | MeasuringTool.py:80-85 | the new state is that of the closure stage |
| MeasuringTool.MeasurementApp.OnClick | MeasuringTool.py:59-85 | the new state and outcome are those of the tool's click step |
| MeasuringTool.MeasurementApp.OnRightClick | MeasuringTool.py:108-120 | the new state and outcome are those of the right-click scan; only the selection is written |

## Left out

- The window, the canvas and all drawing: view.py and main.py, every draw call, point size, line width and the image. The scale prompt's answer is a parameter of the click handlers.
- Opening an image (`open_image`), because it is file-dialog and image I/O.
- Floating point. Lengths and the pitch multiplier use a square-root parameter over exact reals; Python's `**0.5`, `math.sqrt` and float rounding are not modelled.
- Shapes.CalculateFlatArea: divides by the scale twice rather than once by its square. Over exact reals the two are the same number.
- The text side of the report: the strings, `round`, `print` and the Counter output. Only the totals and the per-label counts are modelled.
  - The report function also returns nothing, although the window unpacks six values from it. That mismatch is not modelled.
- The pitch list box and its click handler, because they are UI and the list box is not defined in view.py.
- The menu bindings of the earlier tool and the printing of "Calculate Area". The command itself is modelled as `MeasurementApp.CalculateArea`, which returns the areas, and "Set Scale" as `MeasurementApp.SetScale`.
- The editing mode and the selected label are written by the window's menu and radio buttons, which are not part of this model. The session carries them as plain fields, and the label is a string rather than a Tk variable.
- `MeasurementMode` is not part of this model; it is a two-constructor datatype here.
- Controller.MeasurementController.OnRightClick: returns the pitch that the source prints instead of printing it.
- MeasuringTool.MeasurementApp.OnRightClick: does not return the distance the source prints for a selected segment.
