# fiberview layout, placement and camera model

`fiberview.py` draws one or more legacy VTK mesh files. It has two display modes:

- **combi-view** (the default) overlays up to two files in one full-window renderer;
- **multiview** (`--multiview`) gives each file its own tile of a 1-to-4-tile layout.

In multiview each actor is turned into one of four fixed poses, and each tile's box (`--box`)
gets a pose too. The poses follow the tile index when `--rotations` is given. An optional
camera spec, a string over `a`, `e`, `r`, drives azimuth, elevation and roll calls in
combi-view. All renderers end up sharing the first renderer's camera object, and the window
is sized from the tile count.

This project models that core in Dafny:

- `Layout`: the viewport table of `get_viewports`. It proves the tiles partition the unit
  square, the point-to-tile lookup, and reading order.
- `Vtk`: recorder classes for the VTK objects the script touches. `Camera`, `Actor`,
  `Renderer` and `Window` keep the calls made on them (rotations, camera moves, colours,
  viewport, actors, renderers, size) in their fields. `Actor` and `Renderer` also have a
  `View()` function that gives their state as a value.
- `Placement`: `transform_multiview`, the slot-to-rotation table and its error case.
- `CameraRig`: `transform_camera`, with the falsy and non-string cases, lower-casing, the
  per-character calls in order, and the error on the first bad character.
- `Scene`: the colour branches of `create_renderer` and `create_actor`, `create_box`, the
  sizing and ordering of `create_scene`, and a finding about `create_actor`.
- `FiberView`: the command-line options as a `Config` value. `Plan` is a pure function giving
  the scene `main` builds (or the error it raises). `Run` is the imperative body of `main`, up
  to the output step, proved equal to `Plan`. It covers the dispatch, the rotor counter and
  the camera-sharing loop.
- `FiberViewProperties`: lemmas on `Plan`. They cover:
  - which configurations fail, and how;
  - the actors of combi-view;
  - the pose of every multiview tile;
  - `--camera` having no effect in multiview;
  - `--rotations` having no effect in combi-view.

Facts about the code that the model keeps:

- Combi-view applies no per-actor transform: its actors are neither rotated nor moved. Only
  multiview rotates actors, and only through `transform_multiview`.
- Multiview ignores `--camera` and `--angle`. The shared camera is only reset.
- With more than four files in multiview, `get_viewports` returns no tiles, so the zip builds
  no renderer. `main` then fails at `renderers[0]`, before `create_scene`. So the
  "too many files" error of `create_scene` cannot come from `main`; it is modelled in
  `Scene.CreateScene` for its own callers.
- With `--rotations --box`, tile k's box takes slot k + 1, because the rotor is bumped before
  the box is turned. Four files with both options therefore raise the "invalid transformation"
  error on the fourth box. This is modelled as written.
- `main` reaches `create_actor` with every file name from the command line, and argparse
  accepts an empty one (`fiberview.py ""`). For such a name `create_actor` raises
  UnboundLocalError (see "## Findings"). `main`'s model follows the code: the run fails with
  that error at the first such file in the order the files are built. In combi-view that
  comes after the more-than-two-files check and before the camera spec. In multiview a tile's
  name is checked before its box slot.

## Model

| member | source | states |
|---|---|---|
| Layout.GetViewports | fiberview.py:116-132 | gives n well-formed tiles for n in 1..4 and none for any other n |
| Layout.Partition | fiberview.py:116-132 | for 1..4 tiles, the tiles are pairwise disjoint and their areas sum to exactly 1, so they tile the unit square |
| Layout.TileAt | fiberview.py:116-132 | every point of the half-open square [0,1)×[0,1) lies in exactly one tile (tiles contain their lower and left edges), and the function names it |
| Layout.ReadingOrder | fiberview.py:116-132 | tiles come in reading order (top row first, left to right); the 2- and 3-tile layouts are full-height strips from x = 0 to x = 1 that share their edges |
| Layout.GridShape | fiberview.py:116-132 | one to three tiles form a single row of that many columns; four form two rows of two columns |
| Layout.ThirdsWidths | fiberview.py:123-126 | the three strips are 0.333333, 0.333333 and 0.333334 wide, so the last strip takes the rounding remainder |
| Placement.MultiviewRotation | fiberview.py:181-192 | a rotation list exists exactly for slots 0..3 |
| Placement.OneQuarterTurn | fiberview.py:181-192 | every valid slot makes exactly one quarter turn; slot 2's extra RotateZ(0) is a no-op |
| Placement.SlotsDistinct | fiberview.py:181-192 | the four slots give four different poses |
| Placement.TransformMultiview | fiberview.py:181-192 | slots 0..3 append their rotations to the actor; any other slot raises and leaves the actor unchanged |
| CameraRig.LowerChar | fiberview.py:200 | each upper-case ASCII letter becomes its own lower-case letter (code point + 32); every other character is unchanged; the result is never upper-case, and is a lower-case letter exactly when the input is a letter |
| CameraRig.LowerStr | fiberview.py:200 | the result has the input's length; at each index an upper-case letter becomes its own lower-case letter and every other character is kept; no upper-case letter is left |
| CameraRig.LowerIdempotent | fiberview.py:200 | lower-casing twice gives the same string as lower-casing once |
| CameraRig.CharCall | fiberview.py:201-209 | `e`, `r` and `a` map to elevation, roll and azimuth by the angle; any other character has no call |
| CameraRig.CameraCalls | fiberview.py:201-209 | no contract: the calls the loop makes for a lower-cased spec, one per character up to the first invalid one; the reference TransformCamera is proved against |
| CameraRig.AppliedCalls | fiberview.py:194-209 | no contract: the calls the whole function makes (none unless the spec is a non-empty string); the reference for TransformCamera's new camera state |
| CameraRig.SpecOutcome | fiberview.py:194-209 | no contract: pass for a falsy spec, the type error for a truthy non-string, otherwise the invalid-spec error exactly when a lower-cased character is not `a`, `e` or `r`; the reference for TransformCamera's result |
| CameraRig.CallsAppend | fiberview.py:201-209 | when a is a valid spec, the calls for a + b are a's calls followed by b's |
| CameraRig.CallsSnoc | fiberview.py:201-209 | a valid prefix extended by one valid character gains exactly that character's call |
| CameraRig.CallsStopAt | fiberview.py:201-209 | at the first bad character, the calls made are exactly those of the prefix before it |
| CameraRig.CallsMatchCharacters | fiberview.py:201-209 | for a valid spec there is one call per character, in order, each the character's own call |
| CameraRig.CaseInsensitive | fiberview.py:200-209 | a spec and its lower-cased form have the same outcome and calls |
| CameraRig.CaseVariants | fiberview.py:200-209 | two specs of equal length that differ at each index only in letter case lower-case to the same string and give the same calls and outcome, so `A`, `E` and `R` act as `a`, `e` and `r` |
| CameraRig.SpecOrder | fiberview.py:201-209 | "ae" gives azimuth then elevation; "Ea" gives elevation then azimuth; "axe" applies azimuth and then fails |
| CameraRig.NoCallsWithoutText | fiberview.py:194-198 | a missing, empty or non-string spec makes no call; a non-string truthy spec is a type error and a falsy one passes |
| CameraRig.TransformCamera | fiberview.py:194-209 | the outcome is the spec's outcome, and the camera gains exactly the calls made before the first bad character |
| Scene.Background | fiberview.py:214-219 | no contract: black for `bw`, white for `wb`, (0.1, 0.2, 0.31) otherwise; the reference CreateRenderer is proved against |
| Scene.DiffuseColor | fiberview.py:162-165 | no contract: 0.1 grey under `wb` without fibres, 0.9 grey otherwise; the reference CreateActor is proved against |
| Scene.SchemeCases | fiberview.py:162-219 | only `bw` has a black background and only `wb` a white one; mesh colours are grey, dark exactly under `wb` without fibres |
| Scene.ActorSourceAsWritten | fiberview.py:135-170 | as written, create_actor returns a source only for a non-empty file name |
| Scene.EmptyNameUnbound | fiberview.py:135-170 | the test-cube path for an empty name always ends unbound |
| Scene.ActorSource | fiberview.py:135-142 | corrected: the source is the test cube exactly when no file name is given |
| Scene.ActorSourceTotal | fiberview.py:135-142 | the corrected source agrees with the code wherever the code succeeds, and reads the named file |
| Scene.CreateActor | fiberview.py:135-170 | as written: an empty name raises the unbound-reader error; otherwise a new actor showing the file's mesh (tubed with fibres), ambient 0.6 grey, the scheme's diffuse colour and no rotation, together with the file's reader |
| Scene.CreateBox | fiberview.py:172-179 | a new, unrotated, uncoloured actor showing the source's outline |
| Scene.CreateRenderer | fiberview.py:211-240 | a new renderer with the scheme's background, the given viewport, the given actor if any, and a camera that has been reset once |
| Scene.WindowSize | fiberview.py:243-251 | window sizing succeeds exactly for at most four renderers and raises the too-many error beyond that |
| Scene.WindowGrid | fiberview.py:243-249 | for one to four tiles the window is size pixels wide per layout column and size pixels high per layout row |
| Scene.TilesMapToPixels | fiberview.py:243-249 | every tile of the n-tile layout is `size` pixels high and `size` pixels wide, except the thirds, which are within 0.000002·size of it |
| Scene.CreateScene | fiberview.py:243-258 | fails with no window for more than four renderers; otherwise a new window of the computed size holding the renderers in order |
| FiberView.CombiPlan | fiberview.py:72-90 | no contract: combi-view's outcome (overflow, then an unnamed file, then the camera spec) and its single full-window renderer, camera calls and size; part of the reference Run is proved against |
| FiberView.TileError | fiberview.py:93-104 | no contract: the error tile k raises, if any: an unnamed file in create_actor, before a box slot transform_multiview rejects |
| FiberView.FirstTileError | fiberview.py:93-104 | no contract: the error of the first raising tile in zip order; the reference for BuildTiles' failures |
| FiberView.MultiviewPlan | fiberview.py:92-108 | no contract: multiview's outcome (the first tile error, then no renderers) and its tiles, reset-only camera and size; part of the reference Run is proved against |
| FiberView.Plan | fiberview.py:68-109 | no contract: the scene main builds or the error it raises, dispatching on `--multiview`; the reference Run is proved against, whose properties the FiberViewProperties lemmas state |
| FiberView.AddFile | fiberview.py:81-87 | a named file adds its mesh actor and, with boxes, its outline right after it; an unnamed file raises and adds nothing |
| FiberView.AddFiles | fiberview.py:81-87 | with every file named, the renderer gains the combi-view actors of all files in file order; otherwise it raises at the first unnamed file, after the files before it have added theirs |
| FiberView.BuildCombiView | fiberview.py:72-90 | fails as Plan does (overflow, then an unnamed file, then the camera spec); otherwise the renderer and its camera are exactly Plan's single renderer and camera calls |
| FiberView.FirstTileErrorStays | fiberview.py:93-104 | once a tile has raised, later tiles cannot change the error the zip loop ends with |
| FiberView.FirstTileErrorIsFirst | fiberview.py:93-104 | the zip loop's error is absent exactly when no tile raises, and otherwise it is the error of a tile whose predecessors all pass |
| FiberView.SetUpTile | fiberview.py:93-104 | one zip step: it fails exactly when the tile raises (an unnamed file, then a bad box slot), with that error; on success the rotor advances by one with rotations and stays 0 without, and the tile is Plan's |
| FiberView.BuildTiles | fiberview.py:93-104 | the zip over n files and tiles fails exactly with the first tile's error in zip order; otherwise it gives n distinct new renderers, tile k as Plan has it |
| FiberView.BuildMultiview | fiberview.py:92-104 | BuildTiles over all files and the layout for their count, with the same outcome |
| FiberView.ShareCamera | fiberview.py:106-108 | every renderer ends up holding the first renderer's camera object, and nothing else any renderer shows changes |
| FiberView.Run | fiberview.py:68-109 | main fails exactly when Plan does, with Plan's error; otherwise a new window shows Plan's renderers through distinct renderers that share one camera, with Plan's camera calls and size |
| FiberViewProperties.CombiActorsLayout | fiberview.py:81-87 | in combi-view file i's mesh sits at index i (2i with boxes) with its box right after it; there are no other actors and none is rotated |
| FiberViewProperties.CombiView | fiberview.py:72-90 | more than two files overflow; otherwise an unnamed file raises the unbound-reader error; otherwise combi-view succeeds exactly when the camera spec passes, giving one full-window renderer whose camera is reset twice and then moved by the spec, in a size × size window |
| FiberViewProperties.MultiviewOutcome | fiberview.py:92-106 | multiview succeeds exactly for 1..4 named files, except four files with rotations and boxes, which raise on the fourth box; an unnamed file among 1..4 raises the unbound-reader error; 0 or more than 4 files fail for lack of renderers |
| FiberViewProperties.FirstTileErrorIgnoresCamera | fiberview.py:93-104 | the zip loop's error does not depend on the camera spec or the angle |
| FiberViewProperties.MultiviewTile | fiberview.py:92-104 | tile k shows file k in viewport k, rotated by slot k (or 0), with its box by slot k + 1 (or 0); the camera is only reset, and the window is sized for the tile count |
| FiberViewProperties.MultiviewPoses | fiberview.py:96-103 | for any two tiles k < l: with rotations they show different poses and tile k's box is posed like tile k + 1's actor; without rotations both tiles' actors and boxes are turned −90° about Y |
| FiberViewProperties.PosesWithoutRotations | fiberview.py:96-103 | without rotations every tile, the last and a lone one included, has its actor and its box turned −90° about Y |
| FiberViewProperties.MultiviewIgnoresCamera | fiberview.py:91-104 | the camera spec and angle have no effect in multiview |
| FiberViewProperties.CombiActorsIgnoreRotations | fiberview.py:76-87 | the combi-view actors do not depend on the rotations flag |
| FiberViewProperties.CombiIgnoresRotations | fiberview.py:76-90 | setting `rotations` for two files, as main does, changes nothing in combi-view |

## Left out

- The VTK pipeline is not modelled: readers, tube and outline filters, mappers, the light kit
  and rendering. Actors record only which geometry they show, their colours and their
  rotation calls. Rotation maths stays symbolic: a pose is the list of calls.
- `ResetCamera` is recorded as a `Reset` call. The camera fitting it does depends on the
  geometry and is not modelled.
- The output step of `main` is not modelled: `save_screenshot`, `view_scene`, the `--outfile`
  and `--offscreen` dispatch, `dump_screen` and `set_off_screen_rendering`. These are I/O on
  a window, which `Run` returns instead.
- `parse_commandline` is not modelled. Its result is the `Config` parameter. The colour
  scheme is a three-valued `Scheme`: argparse admits only `default`, `bw` and `wb`, and gives
  `default` when the option is omitted.
- `vtk2png.py` and `lvtk2png.py` are not part of this model.
- `--angle` is a `real`. The floating-point rounding of Python floats is not modelled.
- CameraRig.LowerChar, CameraRig.LowerStr: lower-case ASCII letters only, where Python's
  `str.lower` is Unicode. Non-ASCII capitals stay unchanged here. `str.lower` can also change
  a string's length (U+0130 becomes "i̇"), which `LowerStr`'s equal-length contract leaves
  out. No non-ASCII character lower-cases to `a`, `e` or `r`, so a camera spec's outcome and
  calls are the same.
- Scene.WindowSize: its contract states only success and the error. The exact pixel sizes for
  one to four tiles are stated by Scene.WindowGrid. The per-tile pixel sizes are stated by
  Scene.TilesMapToPixels.
- The `create_scene` "too many input files" error cannot be reached from `main`, which fails
  earlier for more than four files. It is modelled in Scene.CreateScene only.

## Findings

| source | as written | input that shows it | evidently intended | confidence | as-written member | corrected member |
|---|---|---|---|---|---|---|
| fiberview.py:136-170 | `reader` is bound only when a file name is given, but it is returned (and used for fibres) unconditionally | `create_actor()` or `create_actor("")`: the cube branch runs, then `return (actor, reader)` raises UnboundLocalError | with no file name the test cube is the actor's source and is returned | medium, not executed | Scene.ActorSourceAsWritten, Scene.EmptyNameUnbound | Scene.ActorSource, Scene.ActorSourceTotal |

`main`'s model keeps the behaviour as written, because an empty file name on the command line
reaches it. The corrected source stands beside it, and Scene.ActorSourceTotal relates the two.
