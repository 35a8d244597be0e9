# Slicer-PySLM core, modelled in Dafny

This project models the application core of Slicer-PySLM, a desktop slicer for selective
laser melting (SLM) builds. Three parts are covered:

- **The scene** (`scene_manager.py`): the objects placed on a cylindrical build plate, keyed
  by uid in insertion order, with a single selection. It also holds a bounded linear
  undo/redo history of transform snapshots, a most-recently-used list of source files,
  build-volume validation, grid auto-arrange, a project snapshot, and the visible-only list
  handed to the slicer.
- **The slicing service** (`slicer_service.py`): slicing a list of meshes into layers at
  `np.arange(z_min, z_max, t)` heights, with progress reports, the summary it keeps, the
  build-time estimate, export of the last result as a simplified ASCII Common Layer
  Interface (CLI) file, and an SVG preview of one layer.
- **The domain records** (`models.py`): hatch paths, layers, build styles, and parts whose
  layer list only grows.

Objects whose fields the source updates in place are classes:
`SceneManagement.SceneManager`, `UndoRedo.UndoRedoManager`, `SlicingService.SlicerService`
and `Models.SLMPart`. Their methods carry `modifies` clauses and state the whole new state.
Records are datatypes. Each imperative operation is proved against a specification function:

- `UndoRedo.History` for the history;
- the `SceneObjects` functions for the scene commands;
- `Slicing.SlicedParts`, `Slicing.ProgressTrace` and `Slicing.SliceOutcome` for a slicing run;
- `CliExport.CliDocument` and `SvgPreview.Preview` for the exports.

The properties are then proved about those functions. The central one is
`CliExport.CliRoundTrip`: reading a written CLI file back gives the layer thickness and, for
every part, every layer at its height with its non-empty contours in order.

Foreign code and the environment are parameters of the model:

- the mesh library's cross-section (`Slicing.Section`);
- the placement of a mesh by its transform (`SceneObjects.Placement`, standing for `to_matrix`
  and `apply_transform`);
- the square root (a function `sqrt` with `IsSqrt(sqrt)`);
- the elapsed clock time (`elapsed`);
- fresh uuids (`newUid`).

A mesh is a non-empty list of vertices plus its centroid, and its bounds are the
componentwise minimum and maximum of the vertices. Floats are modelled as `real`. Files are
modelled as sequences of records, one per written line.

Modules: `Wrappers`, `Numeric`, `Geometry`, `Transforms`, `UndoRedo`, `SceneObjects`,
`SceneManagement`, `Models`, `Slicing`, `CliExport`, `SvgPreview`, `SlicingService`.

## Model

| member | source | states |
|---|---|---|
| Transforms.Transform.Set | src/application/scene_manager.py:318-323 | each of translation, rotation and scale is replaced when supplied and kept otherwise |
| Transforms.ToDict | src/application/scene_manager.py:46-52 | the serialised transform has exactly the three keys, each holding a 3-vector |
| Transforms.VecAt | src/application/scene_manager.py:55-60 | reading one vector succeeds iff the key is present with three numbers, and gives back those numbers |
| Transforms.FromDict | src/application/scene_manager.py:54-60 | loading succeeds iff all three keys are present with 3-vectors |
| Transforms.FromToDict | src/application/scene_manager.py:46-60 | loading a saved transform gives it back |
| Transforms.ToFromDict | src/application/scene_manager.py:46-60 | saving a loaded transform gives back the three loaded lists |
| Transforms.BuildPlate.Radius | src/application/scene_manager.py:106-108 | the plate radius is half its diameter |
| Geometry.Vec3.With | src/application/scene_manager.py:339 | one component is replaced and the other two are kept |
| Geometry.MinCoordIsLeast | src/application/scene_manager.py:234 | `bounds[0]` along an axis is at most every vertex and equals one of them |
| Geometry.MaxCoordIsGreatest | src/application/slicer_service.py:127 | `bounds[1]` along an axis is at least every vertex and equals one of them |
| Geometry.Extents | src/application/slicer_service.py:227-228 | the extents are non-negative along every axis |
| Geometry.Translate | src/application/scene_manager.py:233-235 | every vertex and the centroid move by the translation, and no vertex is added or lost |
| Geometry.TranslateMin | src/application/scene_manager.py:234 | translating shifts the minimum along an axis by that component of the translation |
| Geometry.TranslateTwice | src/application/scene_manager.py:233-235 | two translations are one translation by their sum |
| Geometry.RestOnPlate | src/application/scene_manager.py:231-235 | an added mesh has its centroid on the Z axis and its lowest point at Z = 0 |
| Geometry.DropToPlate | src/application/scene_manager.py:234-235 | the second step keeps the centroid's X and Y and brings the lowest point to Z = 0 |
| Geometry.RestOnPlateIsOneTranslation | src/application/scene_manager.py:232-235 | the two steps amount to one translation by minus the centroid's X, Y and minus the lowest Z |
| UndoRedo.History.Undo | src/application/scene_manager.py:161-166 | nothing iff the cursor is -1 (then the history is unchanged); otherwise the entry at the cursor, with the cursor one back and the stack unchanged |
| UndoRedo.History.Redo | src/application/scene_manager.py:168-172 | nothing iff the cursor is on the last entry; otherwise the entry after the cursor, with the cursor moved onto it |
| UndoRedo.History.UndoLabel | src/application/scene_manager.py:149-153 | the label of the entry an undo would return, or "" when undo returns nothing |
| UndoRedo.History.RedoLabel | src/application/scene_manager.py:155-159 | the label of the entry a redo would return, or "" when redo returns nothing |
| UndoRedo.History.CanUndo | src/application/scene_manager.py:143-144 | there is something to undo exactly when the cursor is on an entry, which is when `Undo` returns one |
| UndoRedo.History.CanRedo | src/application/scene_manager.py:146-147 | there is something to redo exactly when an entry follows the cursor, which is when `Redo` returns one |
| UndoRedo.History.Push | src/application/scene_manager.py:135-141 | the history stays valid, redo is no longer possible, the length is min(cursor + 2, max_depth), and the pushed entry is last |
| UndoRedo.History.Clear | src/application/scene_manager.py:174-176 | neither undo nor redo is possible afterwards |
| UndoRedo.History.PushAll | src/application/scene_manager.py:135-141 | pushing a non-empty run leaves the cursor on the last entry with no redo |
| UndoRedo.EmptyHistory | src/application/scene_manager.py:129-132 | a new history is empty with neither undo nor redo possible |
| UndoRedo.UndoThenRedo | src/application/scene_manager.py:161-172 | undo followed by redo returns the same entry and restores the history |
| UndoRedo.RedoThenUndo | src/application/scene_manager.py:161-172 | redo followed by undo returns the same entry and restores the history |
| UndoRedo.PushAllLength | src/application/scene_manager.py:135-141 | after a run of pushes the history holds min(cursor + 1 + run length, max_depth) entries |
| UndoRedo.PushKeepsBack | src/application/scene_manager.py:137-140 | below the new entry, a push keeps the entries up to the old cursor in order |
| UndoRedo.PushAllNewest | src/application/scene_manager.py:135-141 | after a run of pushes the newest entries are the newest of the run, as many as fit |
| UndoRedo.PushAllStep | src/application/scene_manager.py:135-141 | pushing one more entry extends a run of pushes |
| UndoRedo.UndoRedoManager.constructor | src/application/scene_manager.py:129-132 | a new manager holds the empty history with the given depth |
| UndoRedo.UndoRedoManager.Push | src/application/scene_manager.py:135-141 | the manager's new state is the history's push |
| UndoRedo.UndoRedoManager.Undo | src/application/scene_manager.py:161-166 | the manager's new state and the entry returned are the history's undo |
| UndoRedo.UndoRedoManager.Redo | src/application/scene_manager.py:168-172 | the manager's new state and the entry returned are the history's redo |
| UndoRedo.UndoRedoManager.Clear | src/application/scene_manager.py:174-176 | the manager's new state is the cleared history |
| UndoRedo.UndoRedoManager.CanUndo | src/application/scene_manager.py:143-144 | the object answers as its current history value does |
| UndoRedo.UndoRedoManager.CanRedo | src/application/scene_manager.py:146-147 | the object answers as its current history value does |
| SceneObjects.IndexOf | src/application/scene_manager.py:247 | the position of the first occurrence: it holds the value and no earlier position does |
| SceneObjects.RemoveFirst | src/application/scene_manager.py:247 | `list.remove` shortens the list by one |
| SceneObjects.RemoveFirstNoDup | src/application/scene_manager.py:246-247 | in a list without repeats, removing a path leaves every other path once and that path not at all |
| SceneObjects.AddRecent | src/application/scene_manager.py:245-249 | the path is first, the length is capped at 10, and the rest is the old list without the path, cut to fit |
| SceneObjects.AddRecentOnce | src/application/scene_manager.py:245-249 | the path occurs exactly once, no path repeats, and nothing new besides the path is added |
| SceneObjects.AxisIndex | src/application/scene_manager.py:338 | "y" and "z" in any case select axes 1 and 2; any other name selects x |
| SceneObjects.Mirrored | src/application/scene_manager.py:337-341 | mirroring negates the chosen scale component and leaves everything else unchanged |
| SceneObjects.MirrorLabel | src/application/scene_manager.py:342 | the undo label of a mirror is "Mirror " followed by the upper-cased axis name |
| SceneObjects.MirrorTwice | src/application/scene_manager.py:339 | mirroring twice along one axis restores the transform |
| SceneObjects.OutsideRadiusIsSqrtTest | src/application/scene_manager.py:372 | the square-root-free test agrees with `sqrt(cx² + cy²) > r` |
| SceneObjects.ObjectIssues | src/application/scene_manager.py:358-378 | nothing for an invisible object; otherwise at most one radius issue, present iff a corner is outside the radius, and at most one Z issue, present iff the minimum Z is below -0.01, in that order; every issue carries the object's uid and name, and the Z issue carries the minimum Z |
| SceneObjects.Corners | src/application/scene_manager.py:365-370 | the four horizontal corners of the world bounding box, in the order the source tests them |
| SceneObjects.VolumeIssues | src/application/scene_manager.py:354-380 | the issues of every object, in scene order; each object contributes what `ObjectIssues` finds |
| SceneObjects.WorldMesh | src/application/scene_manager.py:83-88 | the world mesh is the stored mesh placed by the transform; the stored mesh is not changed |
| SceneObjects.IssuesNameVisibleObjects | src/application/scene_manager.py:354-379 | every reported issue names a visible object of the scene |
| SceneObjects.CentreOutsideIsReported | src/application/scene_manager.py:365-374 | an object whose footprint centre is outside the plate radius is reported |
| SceneObjects.CeilSqrt | src/application/scene_manager.py:388 | the least natural number whose square reaches n |
| SceneObjects.Columns | src/application/scene_manager.py:388 | the grid has at least one column |
| SceneObjects.ColumnsFit | src/application/scene_manager.py:388 | with at least one object there are no more columns than objects |
| SceneObjects.DistinctColumns | src/application/scene_manager.py:392-394 | objects in different columns get different X positions when the spacing is non-zero |
| SceneObjects.ArrangedAt | src/application/scene_manager.py:396-399 | arranging overwrites X and Y only and keeps Z, rotation and scale |
| SceneObjects.Slot | src/application/scene_manager.py:391-395 | the grid position of the i-th object: its column centred on `cols`, its row centred on `n // cols` |
| SceneObjects.VisibleUids | src/application/scene_manager.py:384 | exactly the visible objects, without repeats |
| SceneObjects.RecordOf | src/application/scene_manager.py:437-443 | the saved transform of an object loads back to that transform |
| SceneObjects.Document | src/application/scene_manager.py:426-444 | the snapshot holds version "1.0", the plate size and one record per object in order, each carrying the object's fields and a transform that loads back |
| SceneObjects.SlicingItems | src/application/scene_manager.py:454-465 | every item is a visible object with its world mesh, and every visible object gives an item |
| SceneManagement.Without | src/application/scene_manager.py:253 | the order without the removed uid, keeping every other uid and having no repeats |
| SceneManagement.CopyOf | src/application/scene_manager.py:264-286 | the copy is named `<name>_copy`, shares mesh and path, is visible and selected, and is moved by the offset, by default 1.2 times the mesh's X extent along X |
| SceneManagement.Reflagged | src/application/scene_manager.py:293-299 | the same objects, each flagged exactly when it is the new selection |
| SceneManagement.ObjectsOf | src/application/scene_manager.py:204-206 | the objects in insertion order |
| SceneManagement.ArrangeStep | src/application/scene_manager.py:391-399 | moving the next visible object extends the arrangement by one |
| SceneManagement.ArrangeEntries | src/application/scene_manager.py:396-400 | one "Auto-arrange" entry per visible object, in order, from its transform before to its transform after |
| SceneManagement.GridSpacing | src/application/scene_manager.py:389 | the grid spacing is 0.6 times the plate radius |
| SceneManagement.Arranged | src/application/scene_manager.py:382-401 | the objects after arranging: every visible object at its slot, X and Y replaced, everything else as it was |
| SceneManagement.SceneManager.constructor | src/application/scene_manager.py:196-201 | an empty scene on the given or default plate, with an empty history of depth 50 |
| SceneManagement.SceneManager.ObjectList | src/application/scene_manager.py:204-206 | every stored object, in insertion order |
| SceneManagement.SceneManager.SelectedObject | src/application/scene_manager.py:208-212 | the selected object iff the selection names a stored object; otherwise no object is flagged |
| SceneManagement.SceneManager.ObjectCount | src/application/scene_manager.py:214-216 | the number of objects equals the length of the object list |
| SceneManagement.SceneManager.GetObject | src/application/scene_manager.py:218-219 | the stored object iff the uid is stored |
| SceneManagement.SceneManager.AddMesh | src/application/scene_manager.py:226-243 | the mesh rests centred on the plate, is stored under the new uid and selected, the path is recorded as recent when given, and the plate is unchanged |
| SceneManagement.SceneManager.Store | src/application/scene_manager.py:238 | a new uid is appended to the order; a known uid keeps its place and its object is replaced |
| SceneManagement.SceneManager.AddRecentPath | src/application/scene_manager.py:245-249 | the recent list becomes `AddRecent` of the old one |
| SceneManagement.SceneManager.Remove | src/application/scene_manager.py:251-257 | true iff the uid was stored; the object is gone and the selection is cleared iff it was the removed object |
| SceneManagement.SceneManager.RemoveSelected | src/application/scene_manager.py:259-262 | removes iff the selection is a truthy stored uid; then that object leaves the dict and the order, the others keep their order, and the selection is cleared; otherwise nothing changes |
| SceneManagement.SceneManager.Duplicate | src/application/scene_manager.py:264-286 | an unknown uid changes nothing; otherwise the copy is stored and selected and the source keeps its transform |
| SceneManagement.SceneManager.DuplicateSelected | src/application/scene_manager.py:288-291 | with no stored selection nothing changes and there is no copy; otherwise the copy is `CopyOf` the selected object, stored under the new uid and appended to the order, the copy becomes the selected object, and the source object only loses its flag |
| SceneManagement.SceneManager.Select | src/application/scene_manager.py:293-299 | the selection becomes the uid, even an unknown one, and exactly that object is flagged |
| SceneManagement.SceneManager.DeselectAll | src/application/scene_manager.py:301-302 | no selection and no flagged object |
| SceneManagement.SceneManager.SetTransform | src/application/scene_manager.py:304-327 | an unknown uid changes nothing; otherwise only the supplied fields change, and with `record_undo` exactly one entry from before to after is pushed |
| SceneManagement.SceneManager.Retransform | src/application/scene_manager.py:409-411 | the object gets the whole given transform and nothing else changes |
| SceneManagement.SceneManager.MirrorSelected | src/application/scene_manager.py:330-343 | false and no change without a selected object; otherwise the chosen scale component is negated and "Mirror <AXIS>" is pushed |
| SceneManagement.SceneManager.ToggleVisibility | src/application/scene_manager.py:346-351 | an unknown uid gives false; otherwise that object's visibility flips |
| SceneManagement.SceneManager.CheckBuildVolume | src/application/scene_manager.py:354-379 | the issues of every object in order, for the plate's radius |
| SceneManagement.CheckObject | src/application/scene_manager.py:358-378 | the loop over the corners finds the issues `ObjectIssues` states |
| SceneManagement.SceneManager.AutoArrange | src/application/scene_manager.py:382-400 | the visible objects move to their grid slots 0.6 radii apart, every other object is unchanged, and one entry per visible object is pushed in order |
| SceneManagement.SceneManager.ArrangeVisible | src/application/scene_manager.py:391-400 | the loop moves each object to its slot and pushes its entry |
| SceneManagement.ArrangedKeepsIdentity | src/application/scene_manager.py:396-399 | arranging keeps every object's uid and its visible and selected flags |
| SceneManagement.SceneManager.PerformUndo | src/application/scene_manager.py:403-412 | the history is undone; its object, if still stored, gets back its transform from before; the label is returned even when the object is gone |
| SceneManagement.SceneManager.PerformRedo | src/application/scene_manager.py:414-423 | the history is redone; its object, if still stored, gets its transform from after |
| SceneManagement.SceneManager.Serialize | src/application/scene_manager.py:426-444 | the snapshot of the plate and of every object in insertion order |
| SceneManagement.SceneManager.CollectForSlicing | src/application/scene_manager.py:454-465 | the visible objects in insertion order with their world meshes |
| SceneManagement.SceneManager.TransformedMeshes | src/application/scene_manager.py:450-452 | the world meshes of the same visible objects |
| SceneManagement.NoDupCard | src/application/scene_manager.py:214-216 | a list without repeats is as long as the set of its elements |
| SceneManagement.ReflagSteps | src/application/scene_manager.py:293-299 | clearing the old flag and then setting the new one flags exactly the new selection |
| SceneManagement.ReflaggedInsert | src/application/scene_manager.py:237-239 | storing then selecting equals storing the object already flagged |
| Models.LayerOf | src/domain/models.py:12-17 | a layer has the given height and contours and no hatches |
| Models.EmptyLayer | src/domain/models.py:13-17 | a layer defaults to no contours and no hatches |
| Models.SLMPart.constructor | src/domain/models.py:31-35 | a new part has its name and mesh, no layers and empty metadata |
| Models.SLMPart.AddLayer | src/domain/models.py:37-38 | the layer is appended, the length grows by one, and earlier layers are unchanged |
| Numeric.Ceil | src/application/scene_manager.py:388 | the least integer not below x |
| Numeric.Trunc | src/application/slicer_service.py:128 | `int()` on a float truncates toward zero |
| Numeric.Round | src/application/slicer_service.py:194-195 | `round(x, digits)` is a whole number of units of 10^-digits, within half a unit of x |
| Numeric.RoundedUnits | src/application/slicer_service.py:194-195 | the number of units is the integer nearest x·10^digits, and the even one of two equally near |
| Numeric.MaxInt | src/application/slicer_service.py:128 | the larger of two integers |
| Numeric.Max | src/application/slicer_service.py:232-234 | the larger of two reals |
| Slicing.Param | src/application/slicer_service.py:112-116 | `dict.get`: the stored value when the key is present, otherwise the default |
| Slicing.StyleOf | src/application/slicer_service.py:110-117 | the style is "GUI_Style" with each number from the dictionary or its default (0.03, 200, 1000, 0.10, 67) |
| Slicing.LayerCount | src/application/slicer_service.py:139 | the number of `np.arange(z_min, z_max, t)` heights: the steps of t from z_min that stay below z_max |
| Slicing.Heights | src/application/slicer_service.py:141 | `np.arange`: the i-th height is z_min + i·t, with ⌈(z_max − z_min)/t⌉ heights |
| Slicing.HeightInRange | src/application/slicer_service.py:141 | every height lies in [z_min, z_max) |
| Slicing.LayerCountReachesTop | src/application/slicer_service.py:141 | the step after the last height reaches z_max, and there is no height when z_max ≤ z_min |
| Slicing.HeightsCoverRange | src/application/slicer_service.py:141 | with a positive step the heights lie in [z_min, z_max), strictly increase, stop within one step of z_max, and are empty for an empty range |
| Slicing.HeightsIncrease | src/application/slicer_service.py:139 | a later layer is higher |
| Slicing.HeightsClimb | src/application/slicer_service.py:139 | with a positive step every height is below every later one |
| Slicing.NegativeStepHasNoHeights | src/application/slicer_service.py:141 | a negative step gives no heights over a non-empty range |
| Slicing.ContoursAt | src/application/slicer_service.py:148-161 | the section's contours, or none when the section raises or finds nothing |
| Slicing.PartLayers | src/application/slicer_service.py:141-164 | a part receives one layer per height |
| Slicing.PartLayersAreOrdered | src/application/slicer_service.py:141-164 | layer i is at z_min + i·t, within the part's range, with the section's contours there and no hatches, and the layers climb strictly |
| Slicing.SlicedParts | src/application/slicer_service.py:133-174 | one part per item, in item order, with the item's name |
| Slicing.SlicedPartsHoldAllLayers | src/application/slicer_service.py:163-173 | whatever the section does, the parts hold exactly as many layers as there are heights |
| Slicing.ExpectedLayers | src/application/slicer_service.py:128 | each item counts for at least one layer in the progress denominator |
| Slicing.ExpectedTotal | src/application/slicer_service.py:124-128 | the progress denominator is at least the number of items |
| Slicing.ExpectedLayersIsCloseBelow | src/application/slicer_service.py:128-141 | the real layer count exceeds an item's expected count by at most one |
| Slicing.Fraction | src/application/slicer_service.py:144 | a reported fraction is never negative |
| Slicing.FractionMonotone | src/application/slicer_service.py:143-171 | more processed layers never report a smaller fraction |
| Slicing.LayerEvents | src/application/slicer_service.py:166-171 | the reports made inside one part: one after every twentieth layer, starting with the first, each with the fraction done so far |
| Slicing.ItemsEvents | src/application/slicer_service.py:133-171 | the reports made for the items in order: one as each item starts, followed by its layer reports |
| Slicing.ProgressTrace | src/application/slicer_service.py:131-188 | a run reports at least once per item plus twice: first 0.0 "starting", last 1.0 "complete" with the total layers |
| Slicing.LayerEventsCount | src/application/slicer_service.py:167-171 | a part with n layers reports ⌈n/20⌉ times |
| Slicing.ItemsEventsCount | src/application/slicer_service.py:143-146 | every item reports at least once |
| Slicing.LayerEventsRise | src/application/slicer_service.py:166-171 | a part's layer reports rise and lie between its start and its end |
| Slicing.ItemsEventsRise | src/application/slicer_service.py:143-171 | the reports before the final one never go backwards and stay below the share processed so far |
| Slicing.FootprintArea | src/application/slicer_service.py:222-228 | the summed footprints are never negative |
| Slicing.ScanSecondsPerLayer | src/application/slicer_service.py:218-234 | the scan time per layer is never negative |
| Slicing.EstimateBuildTime | src/application/slicer_service.py:204-237 | the build time in hours: per layer one scan and one 8 s recoat, times the layer count |
| Slicing.EstimateAtLeastRecoat | src/application/slicer_service.py:220-237 | the estimate covers at least 8 s of recoating per layer, so it is non-negative, and it is zero with no layers |
| Slicing.EstimateAdditive | src/application/slicer_service.py:236-237 | the estimate is linear in the number of layers |
| Slicing.EstimateMonotone | src/application/slicer_service.py:236-237 | more layers never take less time |
| Numeric.RoundThreeDigits | src/application/slicer_service.py:194 | rounding the elapsed time to three digits moves it by at most half a thousandth |
| Slicing.DefaultEstimate | src/application/slicer_service.py:218-237 | with default parameters and no items (None or empty), a layer takes 1258 s (1250 s of scanning plus 8 s of recoating) |
| Slicing.Summaries | src/application/slicer_service.py:175-179 | one summary per item in order, with its name, layer count and Z range |
| Slicing.SummariesAddUp | src/application/slicer_service.py:173-179 | the summaries' layer counts add up to the run's total |
| Slicing.SliceOutcome | src/application/slicer_service.py:119-199 | a run fails iff the thickness is zero and there are items; otherwise the total is the sum of all layer counts, each item gets a summary with its name, its layer count and its Z range, the elapsed time is `round(elapsed, 3)`, within half a thousandth of the clock, the estimate is the rounded build time for that total, and the thickness and parameters used are kept |
| CliExport.Flatten | src/application/slicer_service.py:266 | a contour flattens to two numbers per point |
| CliExport.UnflattenFlatten | src/application/slicer_service.py:266-268 | the flattened coordinates give back the contour's points in order |
| CliExport.HeaderShape | src/application/slicer_service.py:252-258 | the header starts with `$$HEADERSTART`, ends with `$$HEADEREND` and a blank line, and holds a thickness line iff a thickness is kept, carrying that value |
| CliExport.Header | src/application/slicer_service.py:252-258 | the header records: start, format, units, the thickness when one is kept, end and a blank line |
| CliExport.ContourLine | src/application/slicer_service.py:264-268 | a non-empty contour is one polyline of all its points; an empty one writes nothing |
| CliExport.ContourLines | src/application/slicer_service.py:264-268 | the polylines of a layer's contours, in order |
| CliExport.LayerLines | src/application/slicer_service.py:262-268 | a layer is its height record followed by its polylines |
| CliExport.LayersLines | src/application/slicer_service.py:262-269 | every layer of a part, in order |
| CliExport.PartLines | src/application/slicer_service.py:260-269 | a part is its name comment followed by its layers |
| CliExport.PartsLines | src/application/slicer_service.py:260-269 | every part, in order |
| CliExport.CliDocument | src/application/slicer_service.py:250-270 | the whole file: the header, every part and the end record |
| CliExport.ReadContourLines | src/application/slicer_service.py:264-268 | reading a layer's polylines gives back its non-empty contours |
| CliExport.ReadLayerLines | src/application/slicer_service.py:263-268 | reading one layer's records gives the layer at its height with its non-empty contours |
| CliExport.ReadLayersLines | src/application/slicer_service.py:262-269 | reading a part's layer records gives every layer, in order |
| CliExport.ReadPartLines | src/application/slicer_service.py:260-269 | reading a part's records adds that part with all its layers |
| CliExport.ReadPartsLines | src/application/slicer_service.py:260-269 | reading every part's records adds every part in order |
| CliExport.ReadHeader | src/application/slicer_service.py:252-258 | reading the header gives the kept thickness and no parts |
| CliExport.CliRoundTrip | src/application/slicer_service.py:250-270 | reading a written file back gives the thickness and every part with every layer and its non-empty contours |
| SvgPreview.PyIndex | src/application/slicer_service.py:286 | a Python index within reach counts from the front when non-negative and from the end when negative |
| SvgPreview.LayerContours | src/application/slicer_service.py:283-286 | the chosen layer's contours of every part that is taken to have one, in part order; a negative index too far back raises |
| SvgPreview.LayerContoursFailsIff | src/application/slicer_service.py:284-286 | collecting raises iff some part has fewer layers than a negative index reaches back |
| SvgPreview.NonNegativeIndexSkipsShortParts | src/application/slicer_service.py:283-286 | a non-negative index takes that layer from each part that has it and skips the rest |
| SvgPreview.PointsContainContours | src/application/slicer_service.py:294 | every point of every contour is among the stacked points |
| SvgPreview.PointOfPoints | src/application/slicer_service.py:294 | every stacked point comes from some contour |
| SvgPreview.PointsEmptyIff | src/application/slicer_service.py:288-293 | there is no point iff every contour is empty |
| SvgPreview.Points | src/application/slicer_service.py:291-294 | `np.vstack` of the contours: all their points, in order |
| SvgPreview.Drawn | src/application/slicer_service.py:307-309 | the contours drawn as polylines are those with at least two points |
| SvgPreview.Frame | src/application/slicer_service.py:295-299 | the points' bounding box widened by the 2 mm margin on every side |
| SvgPreview.Preview | src/application/slicer_service.py:278-314 | what `export_layer_svg` does: raises, writes nothing (false), or writes the document (true) |
| SvgPreview.DrawnAreContours | src/application/slicer_service.py:307-309 | only contours with at least two points are drawn |
| SvgPreview.PreviewWrittenIff | src/application/slicer_service.py:280-293 | a preview is written iff there are parts, the index is in reach of every part, and some chosen contour is non-empty |
| SvgPreview.PreviewFramesEveryPoint | src/application/slicer_service.py:294-306 | the view box is the points' bounding box widened by 2 on each side, touching a point on every inner edge; it is at least 4 wide and high; the size is three times the box; every drawn point is inside it |
| SvgPreview.FrameHoldsContours | src/application/slicer_service.py:294-301 | the widened bounding box holds every point of every contour at least 2 from each edge, and some point lies on each inner edge |
| SlicingService.MaterialPresetStyle | src/application/slicer_service.py:27-52 | slicing with a material preset alone uses that material's laser settings and the default 0.03 mm thickness |
| SlicingService.SlicerService.constructor | src/application/slicer_service.py:72-75 | a new service keeps no result and no parts |
| SlicingService.SlicerService.Slice | src/application/slicer_service.py:80-199 | the result is `SliceOutcome`; a failure reports and keeps nothing; a success reports `ProgressTrace`, keeps the summary, and replaces the kept parts with parts holding `SlicedParts`, one per item, built from the items' meshes |
| SlicingService.SlicerService.Keep | src/application/slicer_service.py:190-198 | the kept parts and result are replaced together |
| SlicingService.SlicerService.CountExpected | src/application/slicer_service.py:124-128 | the pre-pass fails iff the thickness is zero and there are items, and otherwise sums the expected layers |
| SlicingService.SlicerService.SliceItems | src/application/slicer_service.py:133-179 | the item loop builds `SlicedParts` from the items' meshes, the summaries, the total and the reports of every item |
| SlicingService.ItemStep | src/application/slicer_service.py:133-179 | one more item adds its layer count to the total, its start report and layer reports to the reports, and its part, mesh and summary to the lists |
| SlicingService.SlicerService.SliceItem | src/application/slicer_service.py:134-171 | a fresh part holding one layer per height, and a report after every twentieth layer starting with the first |
| SlicingService.SlicerService.ExportCli | src/application/slicer_service.py:242-273 | fails without parts; otherwise writes `CliDocument` of the kept parts and returns their total layer count |
| SlicingService.SlicerService.ExportLayerSvg | src/application/slicer_service.py:278-314 | the outcome is `Preview` of the kept parts: raise, no file (false), or the document (true) |
| SlicingService.WriteHeader | src/application/slicer_service.py:252-258 | the header records are written, with the thickness line when given |
| SlicingService.WriteParts | src/application/slicer_service.py:260-269 | every part's records in order, and the number of layers written |
| SlicingService.WriteLayers | src/application/slicer_service.py:262-269 | every layer's records in order, and one count per layer, empty ones included |
| SlicingService.WriteContours | src/application/slicer_service.py:264-268 | one polyline per non-empty contour, in order |
| SlicingService.CollectLayer | src/application/slicer_service.py:283-286 | the loop collects `LayerContours`, stopping at the first part whose indexing raises |
| SlicingService.LayerContoursStaysFailed | src/application/slicer_service.py:284-286 | once indexing raises on some part, collecting the whole list raises |

## Left out

- `Transform.to_matrix` and `apply_transform` (rotation matrices from the mesh library) are not modelled: a world mesh is `Placement(mesh, transform)`, a parameter.
- `Transform.clone` and `copy.deepcopy` are not separate operations: transforms are values, so a copy is the value itself.
- The mesh library's `section`/`to_planar` is a parameter (`Slicing.Section`) whose outcome is raised, nothing, or contours.
- The mesh's `centroid` is carried as data and moved with the mesh; it is not recomputed from the faces.
- Fresh uuids are a parameter `newUid`. A colliding uid replaces the stored object in place, as a Python dict would.
- `time.perf_counter` is the parameter `elapsed`; `print` logging, `json.dumps`, file opening, file-system errors and the written text itself are not modelled. Files are sequences of records.
- The number formatting (`:.4f` in CLI files, `:.3f` and default `str` in SVG files, `:.2f` in issue texts, `:.1f` in the final progress message) is not modelled: records carry the values.
- Floats are modelled as exact reals, so rounding in `np.arange` heights and in the estimate is not modelled.
- The progress callback's delivery, and the swallowing of its exceptions, are not modelled: the reports are the returned sequence `events`.
- Case conversion of axis names covers ASCII letters only.
- Aliasing is not modelled. `add_mesh` mutates the caller's mesh, and the returned scene objects are references the caller may mutate. Here both are values.
- `max_depth` is fixed when the history is made; the source allows reassigning it later.
- `SlicerService`'s optional slicer adapter is not modelled: it is stored but never used by the modelled operations.
- The SVG stroke, fill colours and the background rectangle's fill are constants of the text and are not modelled. The background rectangle's geometry is modelled.
- Hatches of layers are carried but never written, as in the source: the CLI file holds only contours.
- Slicing.ExpectedLayers: with a zero thickness it gives 1 where the source raises. That case is never reached, because the run fails first; `SlicerService.CountExpected` models the failure.
- Slicing.LayerCount: with a zero thickness it gives 0 where the source raises. That case is never reached either.
- Progress fractions before the final report can exceed 1.0, because layers are counted with a ceiling and the denominator truncates (`Slicing.ExpectedLayersIsCloseBelow`). No bound of 1.0 is claimed.
- Transforms.FromDict / Transforms.VecAt: `Transform.from_dict` in the source accepts lists of any length; here a list that is not a 3-vector is refused.
- SlicingService.SlicerService.Slice: does not state that the kept parts are new objects, distinct from everything allocated before: carrying that through the item loop is left out to keep the proof small. `SliceItem` does state it for each part it makes.
- SlicingService.SlicerService.SliceItems: does not state that the parts it returns are new objects; `SliceItem` states it for each part.
- Slicing.FootprintArea: an item whose `mesh` is None adds no area in the source, so a non-empty list of such items gives an area of 0 rather than 2500. Here every item carries a mesh. Every item `slice` passes does, because its pre-pass reads `item["mesh"].bounds` first; only a direct call of `estimate_build_time` can pass a missing mesh.
- Slicing.EstimateBuildTime: for the same reason, items without a mesh are not modelled.
- The `contour is None` tests in both exporters are not modelled, because a contour here is never absent.
