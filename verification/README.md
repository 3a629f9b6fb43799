# K-glyph viewer: a Dafny model

The viewer is a small interactive 3D demo from a graphics lab. It draws a
wireframe letter "K" and lets the user translate, rotate and scale it with the
keyboard. It can switch between a perspective view and three orthographic
views. This project models the parts of `main.py` that hold logic rather than
graphics-library calls:

- `geometry.dfy` (module `Geometry`): the glyph builder. `create_box` makes an
  axis-aligned prism of 8 vertices and 12 edges. `get_k_geometry` appends three
  such blocks: the vertical stick and two slanted legs. It shifts each block's
  edge indices by the number of vertices collected before that block.
- `interaction.dfy` (module `Interaction`): the state of `App` and the body of
  `App.run` as pure step functions. The state holds the view mode, the
  transform mode, the pose (translation, rotation, scale) and the `running`
  flag. A frame first applies its queued events in order: keys 1-4, Tab, R,
  Escape, and window close. It then applies one held-key step to the vector the
  transform mode selects. `Run` models the `while running` loop over a supply
  of frames.
- `projection.dfy` (module `Projection`): the choice in `set_projection`
  between a perspective lens (view mode 0) and an orthographic box for every
  other mode. The box is sized from the window's aspect ratio.

Coordinates and vector components are `real`, so all arithmetic is exact. The
source uses Python floats and stores the glyph's vertices as a float32 array.
The equalities below therefore hold only in this exact idealisation. An
example is "holding a key for n frames moves the component by exactly n
increments".

The modes stay plain integers, as in the source. `Interaction.Valid` states
their ranges, and every step is proved to preserve it. Python's `%` floors, while
Dafny's is Euclidean. The two agree for the divisor 3, so `(m + 1) % 3` is
written as in the source.

Three Tab presses return any valid transform mode to itself
(`Interaction.ThreeTabs`), so a fourth press moves Translate on to Rotate.

## Model

| member | source | states |
|---|---|---|
| `Geometry.CreateBox` | main.py:15-29 | A box has 8 vertices and 12 edges, and every edge index is in [0, 8). Its back face is its front face lifted by the depth d along z. Vertex 0 is the origin corner and vertex 6 the opposite corner. |
| `Geometry.LiftAll` | main.py:64 | The lifted face has as many points as the front face. Each point keeps its x and y, and its z is raised by exactly dz. |
| `Geometry.PrismEdgesWithin` | main.py:24-28 | The shared 12-edge list of a prism only refers to vertices 0..7. |
| `Geometry.BoxEdgesAxisParallel` | main.py:19-28 | Every edge of a box joins two vertices that differ in at most one coordinate. An edge has zero length when the matching extent is zero. `Geometry.BoxEdgeSides` says which side each edge is. |
| `Geometry.BoxEdgeSides` | main.py:19-28 | Each of a box's 12 edges is one of its sides. The four front-ring and four back-ring edges step by ± the width along x or ± the height along y. The four connectors step by the depth along z. If no extent is zero, each edge's endpoints differ in exactly one coordinate. |
| `Geometry.BoxEdgeSide` | main.py:19-28 | Edge j of a box, for any j below 12, is a side of the box. |
| `Geometry.PrismEdgesDistinct` | main.py:24-28 | No segment appears twice in the 12-edge list, in either direction. |
| `Geometry.Slab` | main.py:59-70 | A leg built from a 4-point front face has 8 vertices, and its first four are that face. Its back face is the front face with z + 1.0. It has 12 edges, and they stay in range. |
| `Geometry.Shift` | main.py:45 | Shifting edges by an offset keeps their count and moves any index range [lo, hi) they respect to [lo + offset, hi + offset). |
| `Geometry.Extend` | main.py:43-45 | Appending a block keeps all earlier vertices and edges unchanged. The block's vertices follow them. The block's new edges reference only the block's own vertex range. Two well-formed parts give a well-formed whole. Every earlier edge and every appended edge joins the same two points it joined in its own part. |
| `Geometry.AppendedEndpoints` | main.py:43-45 | Shifting a block's edges by the vertex count taken before the append makes each edge join the same points it joined in the block. |
| `Geometry.KGeometry` | main.py:31-95 | The glyph has 24 vertices and 36 edges, and every edge index is below 24. |
| `Geometry.ThreeBlocksLocal` | main.py:43-93 | Appending any three well-formed blocks of 8 vertices and 12 edges keeps edges 12k..12k+11 inside vertices 8k..8k+7. |
| `Geometry.ThreeBlocksSlabs` | main.py:42-93 | Appending three prisms of a given depth leaves vertices 8k..8k+7 a prism of that depth. |
| `Geometry.KeepsSlab` | main.py:43-44 | Appending a block leaves an earlier prism block a prism of the same depth at the same position. |
| `Geometry.AppendsSlab` | main.py:43-44 | A prism appended after 8k vertices becomes block k of the result, with the same depth. |
| `Geometry.KGeometryShape` | main.py:31-95 | The glyph has 24 vertices and 36 edges, and every edge index is below 24. Edges 12k..12k+11 of block k (k = 0, 1, 2) reference only vertices 8k..8k+7. Each block's back face is its front face lifted by 1.0 along z. |
| `Geometry.KGeometryBlocks` | main.py:37-93 | The glyph's vertices are the stick, upper leg and lower leg, in that order. Its edges are the prism edges shifted by 0, 8 and 16. |
| `Interaction.Initial` | main.py:107-113 | The start state is valid and running, in perspective view and translate mode. |
| `Interaction.ViewOf` | main.py:243-246 | A view key selects a mode in 0..3. |
| `Interaction.HandleEvent` | main.py:237-255 | One event preserves valid modes. It clears `running` exactly for window close or Escape. It leaves the pose alone or sets it to the reset pose. |
| `Interaction.ApplyEvents` | main.py:237-255 | A frame's events preserve valid modes and never set `running` again once it is cleared. |
| `Interaction.ViewKeys` | main.py:243-246 | Keys 1, 2, 3, 4 set the view mode to 0, 1, 2, 3 and change nothing else. |
| `Interaction.StopKeys` | main.py:238-242 | Window close and Escape clear `running` and change nothing else. |
| `Interaction.TabCycles` | main.py:248-249 | Tab sets the transform mode to (m + 1) mod 3, which is in {0, 1, 2}, and changes nothing else. |
| `Interaction.ThreeTabs` | main.py:248-249 | From any state with a valid transform mode, three Tab presses return exactly that state. |
| `Interaction.ResetKey` | main.py:252-255 | R sets the pose to the start-up pose, whatever it was before. It keeps both modes and `running`, and a second R changes nothing. |
| `Interaction.EventsRunning` | main.py:237-242 | After a frame's events the loop is still running exactly when it was running before and no event was a window close or Escape. |
| `Interaction.EventsView` | main.py:243-246 | After a frame's events the view mode is the one chosen by the last view key among them. With no view key it is unchanged. |
| `Interaction.EventsTabs` | main.py:248-249 | After a frame's events the transform mode has advanced by the number of Tab presses, mod 3. With no Tab it is untouched. |
| `Interaction.EventsPose` | main.py:252-255 | After a frame's events the pose is the reset pose if R was pressed, and otherwise it is unchanged. |
| `Interaction.HeldStep` | main.py:263-285 | The held-key step never changes the modes or `running`. Only the vector the transform mode selects can change. With no keys held nothing changes. |
| `Interaction.AdjustIsStep` | main.py:264-265 | A decreasing key and an increasing key on one component move it by step × (+1, −1 or 0). Opposite keys cancel. |
| `Interaction.HeldStepIncrement` | main.py:258-285 | One step adds 0.1 × direction to the translation in mode 0 and 2.0 × direction to the rotation in mode 1. It adds 0.05 × direction to the scale in mode 2. Translate and scale use left/right → x, down/up → y and pgdn/pgup → z. Rotate uses up/down → x, left/right → y and pgup/pgdn → z. An out-of-range mode changes nothing. |
| `Interaction.HoldForIncrement` | main.py:257-285 | Holding the same keys for n frames moves the selected vector by exactly n increments, with no clamping. The modes stay the same. |
| `Interaction.ScaleUpFrames` | main.py:279-285 | Holding right in scale mode from the reset pose for n frames gives an x scale of 1.0 + 0.05n, which is 2.25 after 25 frames. |
| `Interaction.Frame` | main.py:236-285 | A frame preserves valid modes. It keeps running exactly when it was running and none of its events stops the loop. What its events and held keys do is stated by `Interaction.FrameEffect`. |
| `Interaction.FrameEffect` | main.py:236-285 | After one frame the view mode is the one chosen by the frame's last view key, or unchanged if there was none. The transform mode has advanced by the frame's Tab presses, mod 3. The pose is what the held keys make of the reset pose if R was pressed, or else of the old pose. They act on the vector selected by the transform mode after the Tab presses, so events take effect before the held-key step. |
| `Interaction.Run` | main.py:236-368 | The final state is the frames run, applied in order. A running loop with input runs at least one frame. Every frame before the last one run keeps the loop going. The loop ends early only because the last frame run stopped it. It preserves valid modes and runs no frame if not running. With no stopping event it runs every frame and is still running. |
| `Interaction.EventFreeFrame` | main.py:257-285 | A frame with no events is exactly one held-key step. |
| `Interaction.RunHeld` | main.py:236-285 | A running loop fed n event-free frames with the same keys held runs all n and ends in the state of n held-key steps. |
| `Projection.OrthoExtents` | main.py:165-175 | The orthographic box is symmetric, its right/top ratio is the aspect, and its near and far planes are 0.1 and 50. For a positive aspect both half-extents are positive and the smaller one is exactly the zoom of 10. |
| `Projection.OrthoExtentsUnique` | main.py:170-175 | Any box with those properties is the one `OrthoExtents` returns. |
| `Projection.OrthoBranches` | main.py:172-175 | For aspect ≥ 1 the half-extents are (10·aspect, 10). Otherwise they are (10, 10/aspect). In both cases horizontal / vertical equals the aspect. |
| `Projection.LensFor` | main.py:161-178 | View mode 0 gets the 45° perspective with the window's aspect, near 0.1 and far 50. Every other mode gets a symmetric orthographic box with the window's aspect ratio, near 0.1 and far 50. For a positive aspect its smaller half-extent is the zoom of 10. |
| `Projection.DisplayAspect` | main.py:165 | The window's aspect is 1000/700. |
| `Projection.OrthoExamples` | main.py:165-175 | The 1000×700 window gets half-extents (100/7, 10). A tall window of aspect 0.7 would get (10, 100/7). |

## Left out

- Every pygame and OpenGL call is left out, because each is a side effect of a foreign library. This covers window creation, `draw_axes`, `glBegin`/`glVertex` drawing, the `gluPerspective`/`glOrtho` calls themselves, `gluLookAt`, the matrix stack and the model-matrix composition (main.py:288-354). `Projection.LensFor` only records which lens arguments would be passed.
- `set_camera_view` (main.py:180-218) is left out. Its matrices are discarded by the `glLoadIdentity()` at main.py:309 before anything is drawn.
- `draw_text` and `get_matrix_string` (main.py:124-146) and the periodic matrix print (main.py:358-361) are left out because they are dead code.
- The console help banner, the per-Tab mode-name print and the window-title status string (main.py:224-232, 250, 363-365) are left out as presentation only.
- Frame timing (`clock.tick(60)`) and event polling are left out. A frame is given to the model as its list of events plus a snapshot of the six held keys.
- Float rounding and the float32 vertex array (main.py:95) are left out. The model uses exact reals, so the repeated-increment equalities do not describe IEEE doubles. The source applies the decreasing key before the increasing one on some axes and the other way round on others. That order only matters under rounding, which the model does not have.
- `Projection.OrthoExtents` requires a nonzero aspect. In the source, the tall-window branch raises a division error for a zero aspect. The source never gets there, because its window size is fixed at 1000×700.
