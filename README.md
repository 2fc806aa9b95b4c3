# Tone curve: a verified model

This project models the core of darktable's tone curve module,
`src/iop/tonecurve.c`. The module keeps three curves, one per channel (L, a
and b of CIE Lab). Each curve has 2 to 20 control points (nodes) in a
fixed 20-slot array. The model covers four parts:

- **The parameter migration** (`legacy_params`). Version-1 parameters hold
  six L nodes. They become version-3 parameters: an L cubic spline, default
  a and b curves, and autoscale switched on.
- **The default parameters** (`init`). They are an L identity curve with two
  nodes and a and b identity curves with three nodes, all monotone Hermite.
- **The interactive editor** (`motion_notify`, `button_press`, `scrolled`
  and the editor state set up by `gui_init`):
  - hovering selects the nearest node within radius 0.04;
  - dragging a selected node moves it, and deletes it when it crosses a
    neighbour on a curve with more than two nodes;
  - dragging with nothing selected inserts a node at its sorted position;
  - a double-click resets the channel to the factory curve;
  - the scroll wheel nudges the selected node's y by 0.001;
  - while autoscale is on, the a and b curves are locked.
- **The pixel transform** (`process`, `picker_scale`, and the sample indices
  of the highlight extrapolation fit in `commit_params`):
  - L is looked up in a 65536-entry table up to `1/c0`, and extrapolated
    from there on;
  - without autoscale, a and b are looked up in their own tables;
  - with autoscale, a and b follow the change of L above L = 1, and at or
    below L = 1 all three channels get one fixed gain.

Modules:

| file | module | contents |
|---|---|---|
| `numeric.dfy` | `Numeric` | C's truncating `(int)` cast, `CLAMP`, `MIN` and `MAX` over the reals |
| `curves.dfy` | `Curves` | nodes and curves; insertion and removal in a 20-slot row; the ordering facts they keep |
| `editing.dfy` | `Editing` | the editor as pure transitions on (curve, selection); the specification the editor class is proved against |
| `editor.dfy` | `Editor` | class `ToneCurveEditor`: the event handlers as methods updating the parameter arrays in place |
| `params.dfy` | `ToneParams` | class `Params` (the parameter record, arrays updated in place), its defaults and `LegacyParams` |
| `pixel.dfy` | `Pixel` | the per-pixel mapping, the image loop, the picker normalisation and the extrapolation sample slots |

Each handler in `Editor` states its effect as `State() == F(old(State()), ...)`.
Here `F` is the matching function in `Editing`, and the properties are
proved about `F`. Floats are modelled as `real`. Selection sentinels follow
the source: -1 means no selection and -2 means suppressed. The selection
is kept in [-2, 20), not below the node count. The reason is that
the source's channel tab switch changes channel without clearing the
selection, so a stale index can reach the handlers. `DragMove` models
that case exactly as the code behaves. `Scroll` also writes the stale
slot as the code does, but with the corrected nudge (see Findings).

Two properties one might expect of the editor and the tables do not hold
in the code, and the model follows the code:

- The editor does not always keep x strictly increasing. A two-node curve
  is never pruned (src/iop/tonecurve.c:908), so a drag can carry a node
  past its neighbour (`Editing.DragMoveTwoNodesCanReorder`). An insert at
  an existing x duplicates it, because the insert position is the first
  node with x > mx (src/iop/tonecurve.c:925-929). So
  `Editing.MotionKeepsStrictOrder` states both exceptions as preconditions.
- The pixel lookup scales by 0xffff (src/iop/tonecurve.c:166), but the
  fit samples scale by 0x10000 (src/iop/tonecurve.c:292-295). The two
  slots differ (`Pixel.SampleAndLookupScalesDiffer`).

## Model

| member | source | states |
|---|---|---|
| Numeric.Trunc | src/iop/tonecurve.c:166 | the `(int)` cast truncates toward zero: floor bounds for non-negative values, ceiling bounds for negative ones |
| Numeric.TruncMonotone | src/iop/tonecurve.c:166 | truncation is monotone |
| Numeric.ClampInt | src/iop/tonecurve.c:166 | `CLAMP` lands in [lo, hi], is the identity inside it, and gives lo below and hi above |
| Numeric.ClampReal | src/iop/tonecurve.c:893-894 | `CLAMP` on reals lands in [lo, hi], is the identity inside it, and gives lo below and hi above |
| Numeric.MaxReal | src/iop/tonecurve.c:453 | `MAX` is an upper bound of both arguments and equals one of them |
| Numeric.MinReal | src/iop/tonecurve.c:454 | `MIN` is a lower bound of both arguments and equals one of them |
| Numeric.UnitRatio | src/iop/tonecurve.c:896-897 | a clamped pointer coordinate divided by the area size lies in [0, 1], and 0 and the size map to 0 and 1 |
| Curves.InsertNode | src/iop/tonecurve.c:936-943 | shifting nodes k..n-1 up one slot and writing q at k gives live prefix `row[..k] + [q] + row[k..n]` and leaves slots above n alone |
| Curves.RemoveNode | src/iop/tonecurve.c:912-916 | shifting nodes k+1..n-1 down closes the gap: live prefix `row[..k] + row[k+1..n]`; slots from n-1 up untouched; nothing moves when k >= n-1 |
| Curves.InsertKeepsNonDecreasing | src/iop/tonecurve.c:924-943 | inserting at the first position whose x exceeds q.x keeps a non-decreasing sequence non-decreasing |
| Curves.InsertKeepsStrictlyIncreasing | src/iop/tonecurve.c:924-943 | the same insertion keeps a strictly increasing sequence strictly increasing when no node has x equal to q.x |
| Curves.RemoveKeepsStrictlyIncreasing | src/iop/tonecurve.c:912-916 | removing any node keeps a strictly increasing sequence strictly increasing |
| Curves.MoveKeepsStrictlyIncreasing | src/iop/tonecurve.c:904-910 | moving a node strictly between its neighbours keeps the sequence strictly increasing |
| Editing.MapPointer | src/iop/tonecurve.c:891-897 | the pointer, less the inset, is kept as it is inside the drawing area and clamped to 0 or to the width (height) outside it; mx and my lie in [0, 1]; a pointer left of (above) the area gives mx = 0 (my = 1), one right of (below) it gives mx = 1 (my = 0) |
| Editing.MapPointerScalesBack | src/iop/tonecurve.c:891-897 | mx times the width is the clamped x, and 1 - my times the height is the clamped y |
| Editing.SquaredDistance | src/iop/tonecurve.c:956-957 | the distance the hit test compares is never negative, is zero at the node itself, and is at least the squared gap along either axis |
| Editing.HitTest | src/iop/tonecurve.c:950-965 | -1 exactly when every node is at squared distance >= 0.04²; otherwise the node found is within the radius, is nearest, and is the first among equally near nodes |
| Editing.InsertPos | src/iop/tonecurve.c:924-935 | the insert position is the first index whose x exceeds mx, or the count when there is none |
| Editing.InsertPosUnique | src/iop/tonecurve.c:924-935 | those two properties determine the position |
| Editing.DragMove | src/iop/tonecurve.c:902-920 | the selected slot gets q; with more than two nodes the node is deleted and the selection becomes -2 exactly when q.x is not strictly between the neighbours' x; the live nodes afterwards, for live and for stale selections |
| Editing.DragInsert | src/iop/tonecurve.c:922-946 | the count grows by one; the selection is the insert position; the live nodes are the old ones with q spliced in there |
| Editing.Drag | src/iop/tonecurve.c:899-946 | a selected node is moved; with no selection and fewer than 20 nodes a node is inserted; when suppressed or full nothing changes |
| Editing.Hover | src/iop/tonecurve.c:950-964 | the curve is unchanged and the selection is the hit test over the live nodes |
| Editing.Motion | src/iop/tonecurve.c:877-969 | while locked (autoscale on and channel a or b) nothing changes; otherwise a drag with the button held and a hover without it |
| Editing.Reset | src/iop/tonecurve.c:985-994 | unless locked, the count, type and live nodes become the factory curve's, slots above the factory count are kept, and the selection is -2 |
| Editing.Nudge | src/iop/tonecurve.c:453-454 | the corrected nudge moves y by 0.001 up or down; within one step of the edge it lands exactly on 1 (up) or 0 (down); a y in [0, 1] stays in [0, 1]; other scroll directions leave y alone |
| Editing.NudgeAsWritten | src/iop/tonecurve.c:453-454 | as written, the upward step is taken whenever y >= -0.001 and otherwise floored at 0; the downward step is taken whenever y <= 1.001 and otherwise capped at 1; other scroll directions leave y alone |
| Editing.NudgeAsWrittenJumpsBack | src/iop/tonecurve.c:453-454 | as written, two downward scrolls from 0 reach -0.002, and one upward scroll then gives 0: a jump of two steps |
| Editing.NudgeAsWrittenLeavesUnitRange | src/iop/tonecurve.c:453-454 | as written, scrolling up at y = 1 gives more than 1 and scrolling down at y = 0 gives less than 0; the corrected nudge stays at the edge |
| Editing.Scroll | src/iop/tonecurve.c:438-459 | only the selected slot's y changes, by the nudge; nothing changes when locked or when nothing is selected |
| Editing.ScrollKeepsYInUnitRange | src/iop/tonecurve.c:438-459 | with the corrected nudge, scrolling keeps every live y in [0, 1] |
| Editing.DragMoveKeepsStrictOrder | src/iop/tonecurve.c:902-920 | on a curve with more than two nodes a move-or-delete drag keeps the nodes strictly increasing in x |
| Editing.DragMoveTwoNodesCanReorder | src/iop/tonecurve.c:908-910 | with exactly two nodes, dragging node 0 onto node 1's x leaves a curve that is not strictly increasing |
| Editing.DragInsertKeepsOrder | src/iop/tonecurve.c:922-946 | an inserting drag keeps non-decreasing order, and strict order unless a node already has the pointer's x |
| Editing.SuppressionBlocksDrag | src/iop/tonecurve.c:917-922 | while the selection is -2 a drag changes nothing, and a hover clears the suppression |
| Editing.MotionKeepsStrictOrder | src/iop/tonecurve.c:877-969 | every motion event keeps strict order, apart from the two-node drag and the equal-x insert |
| Editing.InsertBetweenFirstTwoNodes | src/iop/tonecurve.c:922-946 | a drag at x = 0.25 on the three-node identity curve gives four nodes with the new one at index 1 |
| Editor.ToneCurveEditor.constructor | src/iop/tonecurve.c:477-479 | a new editor has no selection and pointer position -1 |
| Editor.ToneCurveEditor.NearestNode | src/iop/tonecurve.c:950-965 | the source's loop returns the hit test of the live nodes |
| Editor.ToneCurveEditor.InsertPosition | src/iop/tonecurve.c:924-935 | the source's search loop with its early break returns the insert position |
| Editor.ToneCurveEditor.DragSelected | src/iop/tonecurve.c:902-920 | the in-place move and shift leave the editor in the `DragMove` state; other channels' counts unchanged |
| Editor.ToneCurveEditor.InsertAtPointer | src/iop/tonecurve.c:922-946 | the in-place shift and write leave the editor in the `DragInsert` state; other channels' counts unchanged |
| Editor.ToneCurveEditor.DragAt | src/iop/tonecurve.c:899-946 | the drag branch leaves the editor in the `Drag` state; other channels' counts unchanged |
| Editor.ToneCurveEditor.HoverAt | src/iop/tonecurve.c:950-964 | the hover branch leaves the editor in the `Hover` state |
| Editor.ToneCurveEditor.MotionNotify | src/iop/tonecurve.c:877-969 | on a locked channel nothing changes, whatever the area size; otherwise the new state is `Motion` of the old one at the mapped pointer and the pointer fields are the clamped position |
| Editor.ToneCurveEditor.Locked | src/iop/tonecurve.c:889 | the L curve is never locked; the a and b curves are locked exactly when autoscale is on |
| Editor.ToneCurveEditor.ButtonPress | src/iop/tonecurve.c:971-1001 | handled exactly for a primary double-click, which resets the channel as `Reset` says; otherwise nothing changes |
| Editor.ToneCurveEditor.ResetChannel | src/iop/tonecurve.c:987-994 | count, type and live nodes are copied from the factory parameters and the selection is -2 |
| Editor.ToneCurveEditor.Scrolled | src/iop/tonecurve.c:438-459 | the new state is `Scroll` of the old one, using the corrected nudge |
| Editor.RemoveAt | src/iop/tonecurve.c:912-916 | the delete loop on the node array computes `RemoveNode` of the old row |
| Editor.InsertAt | src/iop/tonecurve.c:936-943 | the shift loop and the write of the new node compute `InsertNode` of the old row |
| Editor.CopyNodes | src/iop/tonecurve.c:989-993 | the first n nodes are copied and the rest of the destination is kept |
| ToneParams.Params.Defaults | src/iop/tonecurve.c:345-364 | a fresh parameter record holds the defaults |
| ToneParams.Params.LoadDefaults | src/iop/tonecurve.c:345-364 | writes the default curves, counts 2/3/3, monotone Hermite, autoscale on and preset 0 |
| ToneParams.FillRow | src/iop/tonecurve.c:347-357 | every slot of the row gets the given contents |
| ToneParams.DefaultRow | src/iop/tonecurve.c:347-357 | the default live nodes are the identity nodes, strictly increasing in x |
| ToneParams.MigratedRow | src/iop/tonecurve.c:85-86 | the migrated L row holds the six version-1 nodes in order, then zero nodes |
| ToneParams.LegacyParams | src/iop/tonecurve.c:57-94 | 0 exactly for version 1 to 3; then L is the six old nodes as a cubic spline, a and b are defaults, counts 6/3/3, autoscale 1 and preset copied; otherwise 1 and nothing written |
| ToneParams.CopyV1Nodes | src/iop/tonecurve.c:85-86 | the two copy loops turn the default L row into the migrated row |
| Pixel.TableIndex | src/iop/tonecurve.c:166 | the lookup slot is in [0, 0xffff], the floor of v·65535 on [0, 1], 0 at or below 0 and 0xffff at or above 1 |
| Pixel.TableIndexMonotone | src/iop/tonecurve.c:166 | a larger value never looks up an earlier slot |
| Pixel.LowIndexIsTruncatedThreshold | src/iop/tonecurve.c:160 | the low-gain slot 655 is `(int)(0.01 * 0xffff)` |
| Pixel.ChromaIndex | src/iop/tonecurve.c:171-174 | the a/b lookup slot is the floor of ((v + 128) / 256) times 0xffff for v in [-128, 128], 0 below and 0xffff above |
| Pixel.InTableRange | src/iop/tonecurve.c:151-166 | with c0 = 0 every L is read from the table, and with c0 > 0 every non-positive L is |
| Pixel.LuminanceOut | src/iop/tonecurve.c:166-167 | inside the table range L comes from the L table at the slot of L_in, outside it from the extrapolation; with c0 = 0 it always comes from the table |
| Pixel.TablePixel | src/iop/tonecurve.c:169-175 | without autoscale, L is the given output and a and b are read from their own tables at their slots; the fourth channel passes through |
| Pixel.ScaleChroma | src/iop/tonecurve.c:179-180 | autoscaled chroma keeps the chroma-to-lightness ratio: out·L_in = in·L_out |
| Pixel.RatioPixel | src/iop/tonecurve.c:177-181 | above the threshold a and b change by the same ratio as L |
| Pixel.LowGainPixel | src/iop/tonecurve.c:182-187 | at or below the threshold L, a and b are all multiplied by the low gain, which keeps their ratio |
| Pixel.ProcessPixel | src/iop/tonecurve.c:162-189 | the fourth channel passes through; L is looked up below 1/c0 and extrapolated from there; without autoscale a and b come from their tables; with autoscale and normalised L > 0.01 L is the same lookup or extrapolation; with autoscale and normalised L <= 0.01 the result is the low-gain pixel for the value in slot 655 |
| Pixel.RatioBranchKeepsChromaRatio | src/iop/tonecurve.c:177-181 | with autoscale and normalised L > 0.01, a and b keep their ratio to L |
| Pixel.LowGainBranchKeepsChromaRatio | src/iop/tonecurve.c:182-187 | with autoscale and normalised L <= 0.01, a and b keep their ratio to L |
| Pixel.AutoscaleKeepsChromaRatio | src/iop/tonecurve.c:176-187 | with autoscale, in both branches a and b keep their ratio to L |
| Pixel.LowGainBranchScalesAll | src/iop/tonecurve.c:182-187 | with autoscale and normalised L <= 0.01 the value in slot 655 multiplies L, a and b alike and the fourth channel passes through |
| Pixel.ThresholdTakesLowGain | src/iop/tonecurve.c:177 | at exactly L = 1 autoscale takes the low-gain branch |
| Pixel.Process | src/iop/tonecurve.c:147-192 | every output pixel of the width·height image is the mapped input pixel at the same position |
| Pixel.PickerScale | src/iop/tonecurve.c:586-591 | each of L / 100, (a + 128) / 256 and (b + 128) / 256 is kept inside [0, 1] and replaced by 0 below and 1 above; the values fall in the same table slots that the pixel lookup uses |
| Pixel.SampleIndex | src/iop/tonecurve.c:292-295 | the fit sample slot is in [0, 0xffff], the floor of x·65536 on [0, 1), 0xffff at or above 1 and 0 at or below 0 |
| Pixel.SampleAndLookupScalesDiffer | src/iop/tonecurve.c:166 | at x = 0.5 the fit samples slot 32768 while the pixel lookup reads slot 32767 |
| Pixel.ExtrapolationSamples | src/iop/tonecurve.c:289-296 | the sample x values are 0.7, 0.8, 0.9 and 1.0 times the last live L node's x, and each y is read from the L table at its sample slot |
| Pixel.ExtrapolationSamplesAscend | src/iop/tonecurve.c:289-296 | for a last node at x >= 0 the sample positions and their slots ascend |

## Findings

| source | as written | input that shows it | evidently intended | confidence | as-written member | corrected member |
|---|---|---|---|---|---|---|
| src/iop/tonecurve.c:453-454 | scrolling up sets y to `MAX(0, y + 0.001)`; scrolling down sets y to `MIN(1, y - 0.001)` | a selected node at y = 1.0 scrolled up gets y = 1.001; at y = 0.0 scrolled down it gets y = -0.001 | `MIN(1, y + 0.001)` and `MAX(0, y - 0.001)`, keeping y in [0, 1] | high (not executed) | Editing.NudgeAsWritten, Editing.NudgeAsWrittenLeavesUnitRange | Editing.Nudge, Editing.ScrollKeepsYInUnitRange |

The editor's `Scroll` and `Editor.ToneCurveEditor.Scrolled` use the corrected nudge.

## Left out

- Editing.Scroll: uses the corrected clamps, not the swapped ones at src/iop/tonecurve.c:453-454 (see Findings).
- Editor.ToneCurveEditor.Scrolled: writes the corrected y, so a node at y = 1.0 scrolled up stays at 1.0 where src/iop/tonecurve.c:453 writes 1.001 (and 0.0 scrolled down stays 0.0 where line 454 writes -0.001). The code as written is `Editing.NudgeAsWritten` (see Findings).
- The spline sampler that fills the tables (`dt_draw_curve_calc_values`) and the fit of the coefficients (`dt_iop_estimate_exp`) are outside this file. The tables and coefficients enter `Pixel` as data.
- The extrapolation itself (`dt_iop_eval_exp`) is a function parameter of `ProcessPixel` and `Process`.
- The rest of `commit_params` is not modelled: building the curves, the 65536-step table rescaling loops, and copying the autoscale flag. Only the fit sample slots are modelled.
- `process_cl` and the OpenCL kernel: the OpenCL path; its kernel source is not in this file.
- The OpenMP parallel loop: `Process` runs its rows in order.
- The interleaved float buffer with `colors` channels per pixel is modelled as an array of four-field `Lab` records. This assumes four channels per pixel.
- Floating point: single-precision rounding is not modelled. The tables and coordinates are reals, the threshold 0.01 is the real 0.01, and `1/c0` with `c0 == 0` is taken as +infinity.
- A float-to-int cast of a value outside the int range is undefined behaviour in C. `Trunc` gives the mathematical truncation instead.
- Editing.MapPointer: requires a drawing area wider and taller than twice the inset. The source divides by width and height without a check, so a smaller area would divide by zero or by a negative value.
- Editor.ToneCurveEditor.MotionNotify: on an unlocked channel requires the same area size as `Editing.MapPointer`, for the same reason. On a locked channel it requires nothing of the area, as the source returns at src/iop/tonecurve.c:889 before it reads the allocation.
- `tab_switch`: the editor's channel is fixed when it is built. The stale selection a tab switch can leave behind is still modelled.
- `autoscale_ab_callback`, `gui_update`, `gui_init`'s widget set-up, the drawing handler (`expose`), and enter/leave notifications: GTK wiring that only forwards input or draws.
- `dt_dev_add_history_item` and `gtk_widget_queue_draw`: calls into the host application, left out.
- `init_presets` and `src/common/database.c`: preset storage and the database, not part of the transform.
- The layout of the parameter structs in `iop/tonecurve.h`: that header is not part of this model. `Params` and `ParamsV1` follow the fields the code uses.
- Legacy versions other than 1 to 3 (for example 2 to 3): the source rejects them with 1, and so does the model.
