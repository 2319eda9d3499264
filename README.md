# uxui-rs layout and input engine, in Dafny

This project models the layout and input engine of uxui-rs, a retained-mode
UI toolkit written in Rust, and proves properties of the model. The parts
modelled are:

- the geometry value types and the per-axis sizing resolver that every
  component uses;
- the layout containers (the current `Column`, the older `Column` of
  `src/layouts/mod.rs`, and the five-slot `Dock`);
- the leaf controls (`Image`, `Button`);
- the node-plus-controller draft of `src/component_v3.rs`;
- the default input-dispatch protocol, the `Scene`, and font selection;
- two small stateful containers (the scissor stack of `DrawingContext`, and
  `ObservableVec`).

Modules, one per source area:

| file | module | models |
|---|---|---|
| `wrappers.dfy` | `Wrappers` | `Option` and `Result` |
| `geometry.dfy` | `Geometry` | `Size`, `Point`, `Rect`, `Length`, `Dimension`, `Sizing`, alignments, `Color` (`src/lib.rs` and its duplicate `src/datatypes/sizing.rs`) |
| `input.dfy` | `Input` | events, default handlers, `DispatchInput` (`src/input_handling/mod.rs`) |
| `component.dfy` | `Components` | `calc_available_size` and `calc_final_size` (`src/component.rs`), and a child component as its parent sees it |
| `column.dfy` | `ColumnLayout` | `Column` and `ColumnBuilder` (`src/layouts/column.rs`) |
| `stale_column.dfy` | `StaleColumn` | the older `Column` (`src/layouts/mod.rs`) |
| `dock.dfy` | `DockLayout` | `Dock` and `DockBuilder` (`src/layouts/dock.rs`) |
| `component_v3.dfy` | `NodeTree` | `Component`, `ComponentBuilder`, `ContentLayout`, `Button`, `MyButton` (`src/component_v3.rs`) |
| `scene.dfy` | `Scenes` | `Scene` (`src/scene.rs`) |
| `image.dfy` | `Images` | `Image` and `ImageBuilder` (`src/controls/image.rs`) |
| `button.dfy` | `Buttons` | `Button` and `ButtonBuilder` (`src/controls/button.rs`) |
| `font.dfy` | `Fonts` | sizes, `align_size`, style classes, `find_best_match`, `find_best_font` (`src/font/mod.rs`) |
| `drawing.dfy` | `Drawing` | the scissor stack of `DrawingContext` (`src/drawing/mod.rs`) |
| `observable.dfy` | `Observable` | `ObservableVec` (`src/observable/mod.rs`) |

## Modelling decisions

**Lengths and bounds.** Lengths are `real`. `f32::MIN` and `f32::MAX` appear
only as the sentinel bounds of unconstrained dimensions (`F32Min`, `F32Max`).
The f32 `max` and `min` used in clamping become comparisons. The clamp
applies `max` first and then `min`, so when the bounds cross, the upper
bound wins.

**Child components.** A child of a container or of the scene is a
`dyn Component`. Here it is a `DynComponent` value that holds:

- what `measure` returns for each argument;
- what `arrange` returns for each argument;
- what its `dispatch_*` methods answer;
- its two dirty flags.

These answers are fixed functions of each call's argument: the value
stands for the child as it is, not as its earlier `measure` and `arrange`
calls leave it. In the source a child's answers can depend on those calls.
A `Dock` gates cursor moves on the `final_rect` its last `arrange` cached,
and an `Image` centres the size its last `measure` cached. In the
`NodeTree` module, nodes are objects, and their caches are modelled field
by field.

**Two defaults for `Sizing`.**

- The inherent `Sizing::default()` is `Fit` on both axes (`SizingDefault`).
  `ComponentBuilder` in `src/component_v3.rs` and `Image::from_*` use it.
- The derived `Default` for `Sizing` takes `Dimension::default()` for each
  field, which is `Fill` (`SizingTraitDefault`). The builders that derive
  `Default` get it: both `ColumnBuilder`s, `DockBuilder` and the
  `ButtonBuilder` of `src/controls/button.rs`.

**One resolver.** `src/layouts/mod.rs` and `src/controls/button.rs` call
`calculate_available_size` and `calculate_final_size`. No source file of the
repository defines these functions. The model uses the resolver of
`src/component.rs` for them, which is the one the other components call.

**Column stacking.** `Column::arrange` advances `y` by each child's cached
`final_size`, not by the rect the child returns (`src/layouts/column.rs:68-107`).
`ColumnLayout.Placement` stacks the children by those cached heights.

**Dock slots and column children.**

- The dock keeps each slot's `Option<DockChild>` in two fields: a `const`
  component field, which no operation replaces, and a cached-size field,
  which `measure` rewrites.
- The column keeps its `Vec<ColumnChild>` as three sequences of equal
  length: the components, the cached sizes and the cached rects.

**Input events.** The four event kinds form one `Event` union. A component's
handlers are one preview function and one bubble function over that union.
Each dispatch returns whether the event was claimed and the list of steps
it invoked. This makes statements such as "the bubble handler did not run"
facts about the result.

**Font distance.** Font selection compares squared distances. The square
root is strictly increasing, so squared distances give the same nearest
font and the same tie-breaks. The style vector's components are whole
numbers, so they are kept as integers. `VectorizeAgreesWithFloatFormula`
relates them to the source's float expressions.

## Model

| member | source | states |
|---|---|---|
| Geometry.SizePlusMinusCancel | src/datatypes/sizing.rs:18-32 | `Size` addition and subtraction are componentwise inverses: `(a + b) - b == a`, `(a - b) + b == a`, and zero is neutral |
| Geometry.SizeTimesOverCancel | src/lib.rs:108-122 | componentwise product and quotient undo each other when the divisor has no zero component |
| Geometry.SizeNegAndScale | src/datatypes/sizing.rs:50-72 | negation flips both components and is an involution; scalar multiplication scales both components and scalar division by the same non-zero factor undoes it |
| Geometry.ZeroIsZero | src/datatypes/sizing.rs:74-82 | `zero()` is `(0, 0)`, and `is_zero` holds exactly for it, for `Size` and equally for `Point` (lines 175-183) |
| Geometry.RelativeToIsMinus | src/lib.rs:178-197 | `relative_to(o)` is `p - o`; adding `o` back restores `p`; a point relative to itself is the origin |
| Geometry.PointOffsetRoundTrip | src/datatypes/sizing.rs:141-155 | `Point + Size` shifts by (width, height), `- Size` undoes it in either order, and the shifted point relative to the original is the size |
| Geometry.PointScaleRoundTrip | src/lib.rs:199-213 | dividing a scaled point by the same non-zero factor gives the point back |
| Geometry.AlignCenter | src/lib.rs:279-283 | the result has exactly the requested size, and its centre is the rect's centre |
| Geometry.AlignCenterOwnSize | src/datatypes/sizing.rs:205-209 | centring a rect's own size in it returns the same rect |
| Geometry.ContainsCorners | src/lib.rs:285-290 | `contains` is closed: `pos`, `pos + size`, the other two corners and the centre are contained in a rect of non-negative size |
| Geometry.ContainsBounded | src/datatypes/sizing.rs:211-216 | a point beyond any of the four edges is not contained |
| Geometry.IntersectsSymmetric | src/lib.rs:292-297 | `intersects` is symmetric |
| Geometry.SharedEdgeDoesNotIntersect | src/lib.rs:285-297 | two rects side by side share an edge point that both contain, yet neither intersects the other, because `intersects` is strict |
| Geometry.IntersectsSelf | src/datatypes/sizing.rs:218-223 | a rect with positive width and height intersects itself |
| Geometry.DimensionFixed | src/lib.rs:392-394 | `Dimension::fixed(p)` is `Fixed(p)` with `min == max == p` |
| Geometry.DimensionConstructors | src/datatypes/sizing.rs:252-262 | `fit()` and `fill()` take the bounds `(f32::MIN, f32::MAX)`, and `fixed(p)` pins both bounds to `p` |
| Geometry.SizingFitMinMax | src/lib.rs:427-432 | `fit_min_max` is `Fit` on both axes, with the given per-axis minima and maxima |
| Geometry.SizingFixed | src/datatypes/sizing.rs:302-304 | `Sizing::fixed(sz)` applies `Dimension::fixed` to each component, so on each axis both bounds equal that component |
| Geometry.DefaultsDisagree | src/lib.rs:366-440 | `Length` defaults to `Fit` and `Dimension::default()` is `Fill`; the inherent `Sizing::default()` is `Fit` on both axes, while the derived `Default` for `Sizing` is `Fill` on both, so the two differ |
| Input.AccessorsReturnArguments | src/input_handling/mod.rs:32-94 | each event accessor returns the argument its constructor was given |
| Input.DefaultHandlers | src/input_handling/mod.rs:96-130 | every default preview handler and every default bubble handler returns false, for every event |
| Input.Then | src/input_handling/mod.rs:132-145 | `a \|\| b` claims iff either claims; when `a` claims, the result is `a`'s and `b` does not run |
| Input.ThenAllStopsAtFirstClaim | src/input_handling/mod.rs:132-145 | a short-circuit chain whose first claiming step is `k` is claimed, and exactly steps 0..k have run, in order |
| Input.ThenAllNoClaim | src/input_handling/mod.rs:132-145 | a chain where no step claims is not claimed, and every step has run, in order |
| Input.DefaultDispatch | src/input_handling/mod.rs:132-145 | `dispatch_X` claims iff `preview_X \|\| X`; the preview runs first; the bubble handler runs iff the preview declined; cursor moves get no position gate |
| Input.DefaultsClaimNothing | src/input_handling/mod.rs:96-145 | with only the default handlers, every dispatch runs preview and then bubble and claims nothing, for all four event kinds |
| Components.Clamp | src/component.rs:69-71 | `v.max(lo).min(hi)` never exceeds `hi`; it is at least `lo` when `lo <= hi`; it is `v` inside the bounds, `lo` below them, and `hi` above them or when the bounds cross |
| Components.CalcAvailableSize | src/component.rs:66-82 | no contract of its own: each component is `AvailableAxis` of that axis, so its meaning is `AvailableAxis`'s contract |
| Components.CalcFinalSize | src/component.rs:84-104 | no contract of its own: each component is `FinalAxis` of that axis, so its meaning is `FinalAxis`'s contract |
| Components.AvailableAxis | src/component.rs:66-82 | one axis of `calc_available_size`: `Fixed(p)` gives `p`; `Fit` and `Fill` give `Clamp(available, min, max)`, a value within ordered bounds, equal to the available value when it lies inside them, and equal to `max` when the bounds cross |
| Components.FinalAxis | src/component.rs:85-104 | one axis of `calc_final_size`: `Fixed(p)` gives `p`, `Fit` clamps the required value, `Fill` clamps the available value, and the result lies within ordered bounds |
| Components.FixedIsAuthoritative | src/component.rs:72-101 | on a `Fixed(p)` axis both resolver functions return `p`, whatever is available or required |
| Components.SizingFixedResolves | src/component.rs:66-104 | `Sizing::fixed(sz)` resolves to `sz` in both functions |
| Components.AvailableWithinBounds | src/component.rs:69-78 | on `Fit` and `Fill` axes with `min <= max`, the available size lies in `[min, max]` |
| Components.CrossedBoundsGiveMax | src/component.rs:69-100 | on `Fit` and `Fill` axes with `min > max`, both functions return `max` |
| Components.FitIgnoresAvailable | src/component.rs:88-96 | on a `Fit` axis `calc_final_size` is the clamped required value and does not depend on the available value |
| Components.FillIgnoresRequired | src/component.rs:89-100 | on a `Fill` axis `calc_final_size` is the clamped available value and does not depend on the required value |
| Components.AxesIndependent | src/component.rs:66-104 | each axis of both functions reads only that axis's dimension and that axis's components of the inputs |
| Components.AvailableIdempotent | src/component.rs:66-82 | applying `calc_available_size` to its own result changes nothing, even with crossed bounds |
| Components.FinalOfAvailableFill | src/component.rs:66-104 | on `Fill` axes, resolving the final size against the already clamped space gives the same result as against the raw space |
| ColumnLayout.MaxWidth | src/layouts/column.rs:123-131 | the `f32::max` fold from 0 is non-negative, at least every child width, and either 0 or one of the widths |
| ColumnLayout.GreedySizes | src/layouts/column.rs:122-129 | the greedy measurement yields one size per child |
| ColumnLayout.GreedySizesAt | src/layouts/column.rs:122-129 | child `i` is measured against the clamped available width and the clamped available height minus the heights of children 0..i-1 |
| ColumnLayout.RequiredAsWritten | src/layouts/column.rs:131 | the required width is non-negative, and the required height is the children's total height plus how much clamping took off the available height |
| ColumnLayout.Placement | src/layouts/column.rs:68-107 | no contract of its own: the rect child `i` is handed; `PlacementAligned` and `PlacementStacks` state its alignment and its stacking |
| ColumnLayout.PlacementAligned | src/layouts/column.rs:68-107 | each child's rect has its cached size; Left puts its left edge at `pos.x`, Right puts its right edge at the frame's right edge, and Center puts its centre on the frame's vertical centre line |
| ColumnLayout.PlacementStacks | src/layouts/column.rs:68-107 | the first child starts at `pos.y`, and each next child starts where the previous child's cached height ends |
| ColumnLayout.ThreeChildOffsets | src/layouts/column.rs:68-107 | three children of heights h1, h2, h3 sit at y offsets 0, h1 and h1 + h2 |
| ColumnLayout.FitHeightIsSum | src/layouts/column.rs:121-133 | when the available height is not clamped, a `Fit` column whose children's total fits its bounds reports exactly that total height |
| ColumnLayout.RequiredIntended | src/layouts/column.rs:122-131 | the corrected requirement: the widest child, and the height the children consumed |
| ColumnLayout.RequiredAgreesUnclamped | src/layouts/column.rs:122-132 | the as-written and the corrected requirements are equal exactly when clamping left the available height unchanged |
| ColumnLayout.IntendedFitReportsContent | src/layouts/column.rs:121-133 | with the corrected requirement, a `Fit` column whose children's total fits its bounds reports that total, whatever height is available |
| ColumnLayout.AsWrittenFitColumnReportsMax | src/layouts/column.rs:122-132 | as written, a `Fit` column with maximum height 100 that is offered (300, 200) and holds one child 10 high reports height 100, not 10 |
| ColumnLayout.AnyLayoutDirty | src/layouts/column.rs:111-113 | true iff some child is layout-dirty |
| ColumnLayout.AnyVisuallyDirty | src/layouts/column.rs:115-119 | true iff some child is visually dirty |
| ColumnLayout.NewColumnBuilder | src/layouts/column.rs:63-66 | `Column::build()` has no children, no alignment, and the derived `Sizing` default, which is `Fill` on both axes |
| ColumnLayout.WithChildren | src/layouts/column.rs:13-16 | it sets the children and leaves sizing and alignment unchanged |
| ColumnLayout.WithWidth | src/layouts/column.rs:18-21 | it replaces only the desired width; both width bounds, the height and the rest stay as they were |
| ColumnLayout.WithHeight | src/layouts/column.rs:23-26 | it replaces only the desired height; both height bounds, the width and the rest stay as they were |
| ColumnLayout.WithHorizontalAlignment | src/layouts/column.rs:28-31 | it sets the alignment and leaves the rest unchanged |
| ColumnLayout.BuiltAlignment | src/layouts/column.rs:46 | `build` uses the alignment that was set, or `Left` when none was set |
| ColumnLayout.Column.Build | src/layouts/column.rs:33-48 | the column holds the builder's children, or none, and each child starts with a default size and rect; sizing and alignment come from the builder |
| ColumnLayout.Column.IsLayoutDirty | src/layouts/column.rs:111-113 | true iff some child is layout-dirty, so false for an empty column |
| ColumnLayout.Column.IsVisuallyDirty | src/layouts/column.rs:115-119 | true iff some child is visually dirty, so false for an empty column |
| ColumnLayout.Column.Measure | src/layouts/column.rs:121-133 | the cached sizes are the greedy top-to-bottom measurement against the clamped space, and the result resolves (widest child, `available.height - remaining.height`) against the unclamped `available` |
| ColumnLayout.Column.ArrangeAligned | src/layouts/column.rs:68-107 | each child is arranged in its stacked, aligned rect of cached size; the rect the child returns is what is cached; the column's own rect is returned unchanged |
| ColumnLayout.Column.Arrange | src/layouts/column.rs:135-141 | the loop for the column's alignment runs; the result is the frame, and every child's cached rect is what it returned for its placement |
| StaleColumn.NewColumnBuilder | src/layouts/mod.rs:4-8 | the derived default has no children and is `Fill` on both axes |
| StaleColumn.WithChildren | src/layouts/mod.rs:11-14 | it sets the children and keeps the sizing |
| StaleColumn.WithWidth | src/layouts/mod.rs:16-19 | it replaces only the desired width, and both bounds stay |
| StaleColumn.WithHeight | src/layouts/mod.rs:21-24 | it replaces only the desired height, and both bounds stay |
| StaleColumn.Build | src/layouts/mod.rs:26-31 | the column holds the given children, or an empty list when none were given |
| StaleColumn.Measure | src/layouts/mod.rs:54-69 | the loop measures children greedily against the clamped space, and the result resolves (widest child, `available.height - remaining.height`) against the unclamped space |
| StaleColumn.Arrange | src/layouts/mod.rs:71-73 | the rect is returned unchanged and no child is arranged |
| StaleColumn.EmptyColumnRequirement | src/layouts/mod.rs:54-68 | with no children, the requirement is zero wide, and exactly as tall as clamping took off the available height |
| DockLayout.SlotSize | src/layouts/dock.rs:120-174 | an absent slot contributes `Size::zero()`; a present slot contributes what it measures |
| DockLayout.MeasureSlots | src/layouts/dock.rs:117-174 | slots are measured in the order top, bottom, left, right, center; top and bottom consume height, left and right consume width, and center gets what is left |
| DockLayout.MeasureSlotsInOrder | src/layouts/dock.rs:117-174 | the step-by-step measurement of `measure` gives the closed form `MeasureSlots` |
| DockLayout.Max3IsMax | src/layouts/dock.rs:176-188 | the `reduce(f32::max)` over three values is at least each of them and equal to one of them |
| DockLayout.Required | src/layouts/dock.rs:176-188 | no contract of its own: the size a dock requires from its slots' sizes; `RequiredIsTightBound` states that it is the least size covering every band |
| DockLayout.RequiredIsTightBound | src/layouts/dock.rs:176-188 | the required width is the least that covers top, bottom and the left + center + right band; the required height is the least that covers left, right and the top + center + bottom stack |
| DockLayout.AbsentTopGivesBottomAll | src/layouts/dock.rs:120-140 | with no top slot, top is zero and bottom is offered the whole available space |
| DockLayout.CenterAlone | src/layouts/dock.rs:117-188 | a dock with only a center slot offers it the whole space and, for a non-negative size, requires exactly what the center reports |
| DockLayout.TopAndBottomSpan | src/layouts/dock.rs:222-245 | top sits at `pos` with size (W, t.h); bottom spans the width at its cached height, and its bottom edge is the frame's bottom edge |
| DockLayout.MiddleBandTiles | src/layouts/dock.rs:247-284 | left, center and right share the band from `y + t.h` down to the bottom slot, and they tile it from the frame's left edge to its right edge |
| DockLayout.Placements | src/layouts/dock.rs:222-284 | no contract of its own: the rect each slot is handed; `TopAndBottomSpan`, `MiddleBandTiles`, `PlacementsInsideFrame` and `RemovingRightWidensCenter` state how they lie |
| DockLayout.PlacementsInsideFrame | src/layouts/dock.rs:222-284 | when top + bottom fit the frame's height and left + right fit its width, every slot rect lies inside the frame |
| DockLayout.RemovingRightWidensCenter | src/layouts/dock.rs:222-284 | with the other cached sizes unchanged, removing the right slot leaves top, bottom and left unchanged and widens center by exactly `r.w` |
| DockLayout.SlotDispatch | src/layouts/dock.rs:306-330 | an absent slot's `map_or(false, …)` runs nothing and does not claim; a present slot runs once and returns its own answer |
| DockLayout.DispatchChain | src/layouts/dock.rs:306-330 | no contract of its own: the preview, center, top, left, right, bottom and bubble steps in that order; `ClaimedIffSomeSlotClaims`, `CenterClaimStopsChain` and `NoClaimRunsAllPresent` state what running it does |
| DockLayout.DockDispatch | src/layouts/dock.rs:381-408 | a cursor move outside `final_rect` runs no handler and is not claimed |
| DockLayout.ThenAllClaimed | src/layouts/dock.rs:306-408 | a `\|\|` chain claims iff one of its steps claims |
| DockLayout.ClaimedIffSomeSlotClaims | src/layouts/dock.rs:306-408 | with the dock's default handlers, an event that passes the gate is claimed iff some present slot claims it |
| DockLayout.CenterClaimStopsChain | src/layouts/dock.rs:306-330 | when center claims, only the dock's preview and center have run; top, left, right, bottom and the bubble handler have not |
| DockLayout.NoClaimRunsAllPresent | src/layouts/dock.rs:306-330 | when no slot claims, the run order is preview, center, top, left, right, bottom, bubble, and the event is not claimed |
| DockLayout.NewDockBuilder | src/layouts/dock.rs:26-33 | the derived default is `Fill` on both axes and has no slots |
| DockLayout.WithSizing | src/layouts/dock.rs:36-39 | it replaces the sizing and leaves every slot unchanged |
| DockLayout.WithCenter | src/layouts/dock.rs:41-44 | it fills the center slot and changes nothing else |
| DockLayout.WithTop | src/layouts/dock.rs:46-49 | it fills the top slot and changes nothing else |
| DockLayout.WithBottom | src/layouts/dock.rs:51-54 | it fills the bottom slot and changes nothing else |
| DockLayout.WithLeft | src/layouts/dock.rs:56-59 | it fills the left slot and changes nothing else |
| DockLayout.WithRight | src/layouts/dock.rs:61-64 | it fills the right slot and changes nothing else |
| DockLayout.Dock.Build | src/layouts/dock.rs:67-86 | the dock holds the builder's sizing and slots, with every cached size zero and a default `final_rect` |
| DockLayout.Dock.Measure | src/layouts/dock.rs:117-192 | the cached slot sizes are the in-order measurement against the clamped space; the result is `calc_final_size(clamped, required)` of the required size, and it is cached in `final_size` |
| DockLayout.Dock.Arrange | src/layouts/dock.rs:195-288 | the slots are handed the closed-form placement of their cached sizes; the frame is cached in `final_rect` and returned unchanged, and the rects the slots return are ignored |
| DockLayout.Dock.Dispatch | src/layouts/dock.rs:306-408 | a cursor move outside `final_rect` runs nothing and is not claimed; any other event is claimed iff some present slot claims it |
| DockLayout.ClaimedIffSomeSlotClaimsGate | src/layouts/dock.rs:306-408 | for a built dock, an event that passes the cursor gate is claimed iff some present slot claims it |
| NodeTree.NewComponentBuilder | src/component_v3.rs:18-23 | the default builder has the inherent `Sizing::default()`, fit on both axes, and no children |
| NodeTree.WithSizing | src/component_v3.rs:25-28 | it replaces only the sizing |
| NodeTree.WithChildren | src/component_v3.rs:30-33 | it replaces only the children |
| NodeTree.NewButtonBuilder | src/component_v3.rs:179-183 | a button builder wraps the default component builder |
| NodeTree.ButtonWithSizing | src/component_v3.rs:163-166 | it replaces only the inner builder's sizing |
| NodeTree.ButtonWithContent | src/component_v3.rs:168-171 | the content becomes the one and only child, and the sizing is kept |
| NodeTree.Component.Build | src/component_v3.rs:36-51 | a fresh node has the given controller, sizing and children, a zero `final_size` and a default `final_rect` |
| NodeTree.BuildButton | src/component_v3.rs:156-161 | `build_component` gives a fresh node with the `Button` controller, the builder's sizing and children, and empty caches |
| NodeTree.Component.Measure | src/component_v3.rs:83-89 | the result is `calc_final_size(s, A, controller.measure(A))` with `A = calc_available_size(s, a)`; it is cached in `final_size`; only the nodes of its forwarding chain (`Chain`) may change, and no `final_rect` changes |
| NodeTree.Component.ControllerMeasure | src/component_v3.rs:121-126 | a controller's measure is its layout's; a forwarding controller measures the one child with the space unchanged and leaves that child's cache set; only the chain below this node may change, so no node off it has a new `final_size`, and no `final_rect` changes |
| NodeTree.Component.Arrange | src/component_v3.rs:91-95 | the result is exactly the rect the controller returns; it is cached in `final_rect`; only the nodes of its forwarding chain may change, and no `final_size` changes |
| NodeTree.Component.ControllerArrange | src/component_v3.rs:128-133 | a forwarding controller arranges the one child in the rect unchanged, leaves the rect cached down the chain, and returns the child's result; only the chain below this node may change, so no node off it has a new `final_rect`, and no `final_size` changes |
| NodeTree.ForwardingControllersAgree | src/component_v3.rs:187-195 | `Button` and `MyButton` measure and arrange exactly as `ContentLayout` does (`MyButton` line 229-237) |
| NodeTree.ForwardingNodeWrapsContent | src/component_v3.rs:121-133 | a forwarding node reports its child's size against the space its own sizing offers, resolved again by that sizing, and is placed exactly where the child is placed |
| NodeTree.ChainPlacedByInnermost | src/component_v3.rs:121-237 | down a chain of forwarding nodes the rect passes through unchanged, so the whole chain is placed where the innermost leaf controller places it |
| NodeTree.FixedButtonIgnoresContent | src/component_v3.rs:83-89 | a node with `Sizing::fixed(sz)` reports `sz`, whatever its content measures |
| Scenes.RootFrame | src/scene.rs:80-81 | the root is arranged in a rect of exactly its measured size, centred on the canvas |
| Scenes.RootFrameOnCanvas | src/scene.rs:80-81 | a root that asks for no more than the canvas is placed wholly on it |
| Scenes.FillingRootAtOrigin | src/scene.rs:80-81 | a root whose measured size is the canvas is placed at the origin with the canvas size |
| Scenes.Scene.New | src/scene.rs:55-64 | a new scene has no root, a white background, and `layout_dirty` set |
| Scenes.Scene.SwapRoot | src/scene.rs:66-71 | it returns the previous root, installs the new one, and changes nothing else |
| Scenes.Scene.SetBackgroundColor | src/scene.rs:73-75 | the background colour becomes the given colour, and nothing else changes |
| Scenes.Scene.UpdateLayout | src/scene.rs:77-85 | with a root, the root is arranged in its measured size centred on the canvas; without one, nothing is arranged; either way `layout_dirty` is cleared, without first looking at it |
| Scenes.Scene.OnCanvasSizeChanged | src/scene.rs:95-97 | it sets `layout_dirty`, and nothing else changes |
| Scenes.Scene.OnInput | src/scene.rs:106-134 | without a root no event is claimed; with one, every event is claimed iff the root's dispatch claims it |
| Scenes.SwapSequence | src/scene.rs:55-71 | swapping in `a`, then `b`, then nothing returns None, `a` and `b` in turn, and leaves the dirty flag and the colour as `new` set them |
| Scenes.Scene.GetBackgroundColor | src/scene.rs:92-94 | no contract of its own: the stored colour; `BackgroundRoundTrip` states that it is the colour last set |
| Scenes.BackgroundRoundTrip | src/scene.rs:73-94 | the colour set is the colour that is read back |
| Scenes.EmptySceneLayout | src/scene.rs:77-134 | a scene without a root claims nothing, and laying it out still clears the flag |
| Scenes.RootedSceneForwards | src/scene.rs:66-134 | once a root is installed, each event is claimed exactly when the root claims it |
| Images.FromFile | src/controls/image.rs:93-98 | the builder holds the path and the inherent default, fit on both axes |
| Images.FromBytes | src/controls/image.rs:100-105 | the builder holds the bytes and the inherent default, fit on both axes |
| Images.WithSizing | src/controls/image.rs:57-60 | it replaces only the sizing |
| Images.ImageSizeIsOffered | src/controls/image.rs:109-115 | `calc_final_size(s, A, A)` with `A = calc_available_size(s, given)` is `A` itself, and the texture's pixel size plays no part |
| Images.Image.Build | src/controls/image.rs:64-76 | a built image has the builder's sizing, no visual and a zero cached size |
| Images.Image.Measure | src/controls/image.rs:109-115 | it returns the space the sizing offers and caches it in `final_size` |
| Images.Image.Arrange | src/controls/image.rs:117-121 | it returns a rect of the cached size centred in the given rect, and it stores that rect as the visual |
| Images.Image.Draw | src/controls/image.rs:125-127 | drawing fails iff there is no visual yet; otherwise it draws the visual |
| Images.Image.Dispatch | src/controls/image.rs:130-134 | an image keeps the default handlers, so it never claims an event |
| Images.DrawOnlyAfterArrange | src/controls/image.rs:64-127 | drawing a freshly built image fails, and after measure and arrange it draws the centred rect of the offered size |
| Buttons.NewButtonBuilder | src/controls/button.rs:5-9 | the derived default is `Fill` on both axes with the default colour |
| Buttons.WithLabel | src/controls/button.rs:11-14 | the builder is unchanged |
| Buttons.WithAction | src/controls/button.rs:16-18 | the builder is unchanged |
| Buttons.WithBackground | src/controls/button.rs:20-23 | it sets the background colour and keeps the sizing |
| Buttons.WithWidth | src/controls/button.rs:25-28 | it replaces only the desired width; both bounds, the height and the colour stay |
| Buttons.WithHeight | src/controls/button.rs:30-33 | it replaces only the desired height; both bounds, the width and the colour stay |
| Buttons.FixedButtonFromDefaults | src/controls/button.rs:11-33 | labelling and then fixing width and height gives `Fixed` axes that keep the `f32::MIN` and `f32::MAX` bounds of the default |
| Buttons.Button.Build | src/controls/button.rs:35-41 | the button gets the builder's sizing and background colour |
| Buttons.ButtonMeasureSettles | src/controls/button.rs:75-77 | `measure` reports the offered space: within ordered bounds on fit and fill axes, the pixels on fixed axes; measuring again with that size gives the same size |
| Buttons.Button.Arrange | src/controls/button.rs:79-82 | it returns the frame unchanged, and the background rectangle moves to the frame |
| Buttons.DefaultButtonFills | src/controls/button.rs:35-77 | a button built from the defaults reports the available size clamped to the f32 range |
| Fonts.Pt | src/font/mod.rs:69-73 | `pt(p).as_pt() == p` |
| Fonts.Em | src/font/mod.rs:79-81 | `em(e).as_em() == e` |
| Fonts.CalculateFontScale | src/font/mod.rs:49-51 | the scale times the render size of 8 em is the requested size in em |
| Fonts.SizeConversions | src/font/mod.rs:44-93 | 12 pt is 1 em; converting pt to em and back is exact; the render size needs scale 1, and twice the render size needs scale 2 |
| Fonts.AlignSize | src/font/mod.rs:219-225 | for `a > 0`, the result is a multiple of `a`, at least `s` and less than `s + a`, and it equals `s` when `s` is already aligned |
| Fonts.AlignSizeIdempotent | src/font/mod.rs:219-225 | aligning an aligned size changes nothing |
| Fonts.WeightFromClass | src/font/mod.rs:546-561 | the mapping is total: classes up to 149 give Thin, classes from 850 give Black, any other class lands within -50..+49 of its weight's value, and `ExtraBlack` is never produced |
| Fonts.WeightFromClassMonotone | src/font/mod.rs:546-561 | a heavier class never maps to a lighter weight |
| Fonts.WeightRoundTrip | src/font/mod.rs:527-561 | every weight except `ExtraBlack` maps back from its own discriminant |
| Fonts.WidthFromClass | src/font/mod.rs:583-597 | the result's discriminant is the class clamped to 1..9 |
| Fonts.WidthRoundTrip | src/font/mod.rs:565-597 | every width maps back from its own discriminant |
| Fonts.Vectorize | src/font/mod.rs:330-336 | no contract of its own: a style's position for nearest-font search; `VectorizeAgreesWithFloatFormula`, `VectorizeInjective` and `DefaultStyleIsOrigin` state it |
| Fonts.VectorizeAgreesWithFloatFormula | src/font/mod.rs:330-336 | the vector is `((width - 5) * 11, type * 7, (weight - 400) / 100 * 5)`, computed exactly |
| Fonts.DefaultStyleIsOrigin | src/font/mod.rs:330-336 | the default style (normal weight, width and type) maps to the zero vector |
| Fonts.SquaredDistance | src/font/mod.rs:477-500 | a squared distance is never negative |
| Fonts.SquaredDistanceZero | src/font/mod.rs:477-500 | two vectors are at distance zero iff they are equal |
| Fonts.VectorizeInjective | src/font/mod.rs:330-336 | distinct styles have distinct vectors |
| Fonts.DistanceZeroIffSameStyle | src/font/mod.rs:330-500 | a font is at distance zero from the query iff it has the queried style |
| Fonts.BestMatchUnique | src/font/mod.rs:477-500 | at most one index is the best match, so the family's order decides ties |
| Fonts.ExactStyleWins | src/font/mod.rs:477-500 | when the family has the queried style, the best match has that style and comes no later than the first such font |
| Fonts.FindBestMatch | src/font/mod.rs:477-500 | it fails iff the family is empty; otherwise it returns a font of least distance to the query, and every earlier font is strictly farther, because replacement needs a strict `<` |
| Fonts.BestOfTwo | src/font/mod.rs:477-500 | in a family of two, the first font is the best match unless the second is strictly nearer |
| Fonts.FirstOfTwoChosen | src/font/mod.rs:477-500 | in a family of two where the first font is not farther, any best match is the first font |
| Fonts.MediumPrefersRegularOverBold | src/font/mod.rs:477-500 | a Medium query over [Regular, Bold] returns Regular |
| Fonts.TieGoesToFirstListed | src/font/mod.rs:477-500 | a Normal query over [Medium, Light] is a tie, and Medium, the first listed, wins |
| Fonts.LowercaseIdempotent | src/font/mod.rs:195 | lowercasing keeps the length, and lowercasing twice is lowercasing once |
| Fonts.FamilyFor | src/font/mod.rs:194-197 | no contract of its own: the cache lookup under the lowercased name; `FamilyForIgnoresCase` states it |
| Fonts.FamilyForIgnoresCase | src/font/mod.rs:194-197 | names that lowercase alike find the same family; a cached key finds its own family; a family is found iff some key matches the lowercased name |
| Fonts.FindBestFont | src/font/mod.rs:189-217 | for a `FamilyName` query, it succeeds iff the lowercased name is cached and the family is non-empty, and it then returns that family's best match |
| Drawing.Popped | src/drawing/mod.rs:75-77 | the pop succeeds iff the stack holds at least two rects; the new stack is non-empty, and putting the removed top back gives the old stack |
| Drawing.PushThenPop | src/drawing/mod.rs:65-84 | popping after a push gives back the stack that was pushed onto |
| Drawing.DrawingContext.New | src/drawing/mod.rs:50-55 | the stack is exactly `[initial]` |
| Drawing.DrawingContext.PushScissor | src/drawing/mod.rs:65-73 | the rect is appended to the stack and becomes the render pass's scissor |
| Drawing.DrawingContext.PopScissor | src/drawing/mod.rs:75-84 | it succeeds iff the stack held at least two rects; then the top is removed, the stack stays non-empty, and the new top becomes the scissor; otherwise the unwrap fails |
| Drawing.PushPopRestores | src/drawing/mod.rs:65-84 | a push followed by a pop restores the stack, leaves it non-empty, and makes the old top the active scissor |
| Drawing.FreshContextCannotPop | src/drawing/mod.rs:50-84 | popping a freshly made context fails |
| Observable.ObservableVec.New | src/observable/mod.rs:6-8 | a new vector is empty |
| Observable.ObservableVec.Push | src/observable/mod.rs:10-12 | the item is appended at the end, and the earlier items are unchanged |
| Observable.ObservableVec.Remove | src/observable/mod.rs:14-16 | it returns the old item `i` and leaves the other items, in order |
| Observable.Removed | src/observable/mod.rs:14-16 | the result is one shorter; items before `i` stay in place, and later items move down one place |
| Observable.RemoveLastUndoesPush | src/observable/mod.rs:10-16 | removing the item just pushed gives back the earlier list |
| Observable.RemovedThenReinserted | src/observable/mod.rs:14-16 | putting the removed item back at `i` restores the list |
| Observable.PushPushRemove | src/observable/mod.rs:6-16 | pushing `a` and `b` and then removing index 0 returns `a` and leaves `[b]` |

## Left out

- **Windowing, GPU and I/O.** This covers the winit event loop, the wgpu
  setup, shader compilation and the threads `initialize` spawns. It also
  covers GPU buffers and `model_projection`, the draw calls of every
  control, and the texture helpers of `src/controls/image.rs`. These are
  foreign calls with no layout logic.
- **Image decoding.** Turning an `ImageSource` into pixels is not modelled,
  and neither are the panics that decoding can raise in `ImageBuilder::build`.
- **Font loading and rasterisation.** FreeType, the filesystem walk of
  `cache_fonts` and `create_font_cache`, the `Glyph` type and `Font::new`,
  `load`, `unload` and `get_glyph` are not modelled. The font cache is a map
  given as a parameter.
- **Unfinished code.** `FontSize::px`, `as_px`, and the `FontType` and
  `FamilyWithFallback` queries of `find_best_font` are `todo!()` in the
  source. So are `is_layout_dirty` and `is_visually_dirty` of the older
  `Column`, and `Row`.
- **Colour conversion.** `Color::new_bytes` and the HSV/HSL conversions are
  float numerics outside the layout logic. The `Color` constructors are
  modelled as plain values.
- **Shared ownership.** `StringProperty` and the binding module are `Rc` and
  `Arc` wrappers with no behaviour of their own.
- **Floating point.** IEEE-754 rounding, NaN, and `f32::max` skipping NaN
  are not modelled.
- Scenes.Scene.New: the scene controller's `on_init` hook is not called. Neither are
  `on_active` and `on_inactive`, which only forward to the controller. The
  controller is application code.
- Scenes.Scene.UpdateLayout: the root is a `DynComponent` value, so what
  its `measure` and `arrange` record is not modelled. The contract states
  which rect the root is handed, not what the root then records.
- **Child state across calls.** A child's `measure`, `arrange` and
  `dispatch` answers are modelled as independent of its earlier `measure`
  and `arrange` calls. This affects `Column`, `Dock` and `Scene`. A parent
  holding a `Dock` gets cursor-move answers gated by the rect of the
  dock's last `arrange` (`src/layouts/dock.rs:285,381-382`). An `Image`
  child is placed by the size of its last `measure`
  (`src/controls/image.rs:113,118`). Inside `DockLayout` and `Images` both
  dependencies are modelled, through their own caches.
- **Handler state.** The `on_*_preview` and `on_*` handlers are pure
  functions of the event (`Input.Handlers`). In the source they take
  `&mut self`, so a preview handler can change what the bubble handler
  later does. The model does not capture that.
- ColumnLayout.Column.Measure: each child's `final_size` and the component
  are kept in parallel sequences rather than in one `Vec<ColumnChild>`, and
  the children are values rather than mutable objects.
- **Arranging a child.** In `ColumnLayout.Column.ArrangeAligned` and
  `DockLayout.Dock.Arrange`, arranging a child is a call to a pure function
  of the rect. The child's own state changes are not observed.
  `DockLayout.Dock.Arrange` does not call the slots at all; it reports the
  rects it would hand them.
- Fonts.FindBestMatch: it compares squared distances instead of Euclidean
  distances. This is the same order, but the model does not compute the
  square root itself.
- Fonts.FamilyForIgnoresCase: lowercasing is ASCII-only. Rust's
  `to_lowercase` is full Unicode lowercasing.
- Fonts.AlignSize: an `alignment` of 0 makes `size % alignment` panic with
  a division by zero; the model makes `alignment > 0` a precondition
  instead of modelling the panic. `usize` overflow of `s / a * a + a` near the top of the
  range is not modelled, because sizes are unbounded naturals.
- Drawing.DrawingContext.PopScissor: the render pass is reduced to the
  rect it last received. The `as u32` casts of `set_scissor_rect` are not
  modelled. After the unwrap fails, the model keeps the emptied stack,
  whereas the source panics.
- NodeTree.Component.Measure: `ContentLayout`'s `debug_assert` that the node
  has exactly one child is a precondition (`Measurable`) instead of a panic.
  The parent pointer and the parent data of a node are left out, because
  nothing in the draft reads them.
- NodeTree.Controller.Leaf: an application controller sees only its
  argument. In the source `Layout::measure` and `arrange` also receive the
  node (`src/component_v3.rs:104-107`), so a controller other than
  `ContentLayout` can measure and arrange the node's children. The model
  cannot express such a controller. `ChainPlacedByInnermost` and
  `FixedButtonIgnoresContent` cover only controllers that leave the
  children alone.
- Observable.ObservableVec.Remove: removing past the end panics in
  `Vec::remove`, so it is a precondition.

## Findings

| source | as written | input that shows it | evidently intended | confidence | as-written member | corrected member |
|---|---|---|---|---|---|---|
| src/layouts/column.rs:122,131-132 | the required height is `available_size.height - remaining_size.height`, where `remaining_size` started from the clamped space, so whatever clamping removed is counted as consumed by the children | a column with `Sizing::fit_min_max((0,0), (500,100))`, offered (300, 200), holding one child 10 high: it reports height 100 | the height the children consumed, `offered.height - remaining.height`, so this column reports 10 | not executed | ColumnLayout.AsWrittenFitColumnReportsMax | ColumnLayout.IntendedFitReportsContent |

The same formula appears in `src/layouts/mod.rs:64-68`.

- `ColumnLayout.RequiredAsWritten` is the code's formula. `Column.Measure`
  and `StaleColumn.Measure` use it, so that they keep stating what the code
  does.
- `ColumnLayout.RequiredIntended` is the corrected formula.
  `ColumnLayout.RequiredAgreesUnclamped` proves that the two formulas agree
  exactly when the offered height was not clamped.
