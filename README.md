# jgui docking layout, modelled in Dafny

This project models the resolution-independent docking layout engine of the
jgui library (package `org.jnightride.jgui`). A GUI child is given a
`DockStyle`: one of nine anchors, an offset, a preferred size and a
lock-scaling flag. Its `DockControl` turns the style into a concrete size and
a local translation. The inputs are the two scale factors of the root pane
(`Scalable`) and the extent of the parent control, or the viewport (`AppSize`)
when there is no parent. A `DynamicLayout` registers the children of one
container by node identity. It drives the recompute cascade (`restart`,
`reshape`) and the attach/detach lifecycle.

Files and modules:

- `wrappers.dfy` (`Wrappers`): `Option` and `Result`.
- `geometry.dfy` (`Geometry`): vectors as values, the nine docks with their
  column and row, the nine-way anchor switch of `calculatePosition`, and what
  an anchor means for a rectangle.
- `app_size.dfy` (`Viewport`): the `AppSize` class, its minimum resolution,
  setters, `equals` and `hashCode` with Java's 32-bit int arithmetic.
- `scalable.dfy` (`Scaling`): the scale factors of the `Scalable` contract,
  over a class whose fields stand for the abstract getters.
- `dock_style.dfy` (`Styles`): the constraint list scanned by the `DockStyle`
  constructor, and the class with its setters and `clone`.
- `docking.dfy` (`Docking`): the host scene, `DockControl` and
  `DynamicLayout`.

The host scene is one `Scene` object. A node is an integer handle. Its
GuiControl state, local translation, cull hint, scene parent, attached
DockControl and registered layout (for a Container with a DynamicLayout) are
held in maps. The nodes that have a GuiControl are fixed.

What updateGui reads of a control — the root pane, the style, the node of the
parent and whether that parent locks scaling — is collected in a `Setup`
value. The size and translation it writes are the functions `MySize` and
`Translation` of that value.

The layouts' loops are proved against two predicates:

- `Settled`: only docked nodes changed, and only towards what updateGui gives
  them: a docked node has its old size or its updateGui size, and its old
  translation or one updateGui gives it.
- `Done`: the nodes already visited have the size updateGui computes and a
  translation updateGui gives them.

A translation updateGui gives a node (`Placed`) is `Translation` of its setup
with the parent's size either as it was when the loop started or, for a docked
parent, as updateGui sets it. Which of the two depends on whether the parent
was updated before the child, that is on the visiting order. For a node whose
parent is not docked the translation is exact (`PlacedExact`).

Both predicates hold whatever order the identity map is visited in.

`restart` recurses into the layouts of children that are Containers. A ghost
nesting level on each layout, decreasing from a layout to its children's
layouts, bounds that recursion. `Reach` collects the nodes the recursion
visits: the children and, through each nested layout, its own reach. Restart
leaves every one of them done.

Where the code's behaviour is unexpected, the model follows the code:

- `calculatePreferredSize` yields (1, 1, 0) when the layout's own node has no
  DockControl, and the style's size otherwise.
- `addChild` on an attached layout always gives a reused control a new
  style. `DockStyle` does not override `equals`, so the check before
  `setDockStyle` compares identities and never finds the new style equal.
- A layout's `detach` removes the children from the scene but does not run
  their controls' `detach`, so the controls keep their parent links.
- With a root pane, updateGui first sets the depth to the offset's z. It then
  moves by calculatePosition, whose z is that z again, so the final depth is
  twice the depth offset. `Translation` states exactly that.
- Without a parent, updateGui measures the frame from the viewport's
  bottom-left corner with y growing upwards. With a parent it measures from
  the parent's top-left corner.

## Model

| member | source | states |
|---|---|---|
| Geometry.Position | lib/src/main/java/org/jnightride/jgui/core/DockControl.java:204-301 | the anchor switch of calculatePosition for a root that exists; the depth of the result is the raw depth offset |
| Geometry.ColumnAndRowDecide | lib/src/main/java/org/jnightride/jgui/core/DockControl.java:216-297 | docks in the same column give the same x, docks in the same row the same y |
| Geometry.MirrorSymmetry | lib/src/main/java/org/jnightride/jgui/core/DockControl.java:216-297 | a left-column x is minus the right-column x, a bottom-row y is minus the top-row y |
| Geometry.MiddleIgnoresExtents | lib/src/main/java/org/jnightride/jgui/core/DockControl.java:216-297 | in the middle column or row only the scaled offset remains, whatever the parent's and the node's extents |
| Geometry.OffsetScaling | lib/src/main/java/org/jnightride/jgui/core/DockControl.java:205-297 | the x offset is scaled by the height factor exactly when the parent locks scaling and by the width factor otherwise; the y offset always by the height factor; z is passed through |
| Geometry.PlacementAnchorsColumn | lib/src/main/java/org/jnightride/jgui/core/DockControl.java:181-193 | the placement puts the left edge at the anchor its column names, moved inwards by the scaled offset |
| Geometry.PlacementAnchorsRow | lib/src/main/java/org/jnightride/jgui/core/DockControl.java:181-193 | the placement puts the top edge at the anchor its row names, moved inwards by the scaled offset; the depth is the start depth plus the depth offset |
| Viewport.Wrap32 | lib/src/main/java/org/jnightride/jgui/AppSize.java:122-127 | the result is in the 32-bit int range and congruent to the argument modulo 2^32 |
| Viewport.AppSize.Default | lib/src/main/java/org/jnightride/jgui/AppSize.java:36-55 | the default resolution is MIN_WIDTH x MIN_HEIGHT, 1024 x 576 |
| Viewport.AppSize.constructor | lib/src/main/java/org/jnightride/jgui/AppSize.java:64-67 | both dimensions are stored as given |
| Viewport.AppSize.Clone | lib/src/main/java/org/jnightride/jgui/AppSize.java:70-80 | a new object with the same fields, equal to the original both ways |
| Viewport.AppSize.SetWidth | lib/src/main/java/org/jnightride/jgui/AppSize.java:92-98 | the width becomes the int argument and the height is kept; the guard never rejects |
| Viewport.AppSize.SetHeight | lib/src/main/java/org/jnightride/jgui/AppSize.java:99-105 | the height becomes the int argument and the width is kept |
| Viewport.AppSize.HashCode | lib/src/main/java/org/jnightride/jgui/AppSize.java:122-127 | the hash, computed with wrap-around, is a 32-bit int |
| Viewport.AppSize.Equals | lib/src/main/java/org/jnightride/jgui/AppSize.java:130-145 | equals holds exactly for a non-null AppSize with the same width and height; the identity shortcut never changes the answer |
| Viewport.EqualsIsEquivalence | lib/src/main/java/org/jnightride/jgui/AppSize.java:130-145 | equals is reflexive, symmetric and transitive |
| Viewport.EqualsAgreesWithHashCode | lib/src/main/java/org/jnightride/jgui/AppSize.java:122-145 | equal objects have equal hash codes |
| Scaling.ScaleFactor | lib/src/main/java/org/jnightride/jgui/Scalable.java:39-52 | the factor times the designed extent is the target extent, and it is 1 when the two agree |
| Scaling.Scalable.ScaleFactorWidth | lib/src/main/java/org/jnightride/jgui/Scalable.java:39-41 | the width factor times the own width is the viewport width |
| Scaling.Scalable.ScaleFactorHeight | lib/src/main/java/org/jnightride/jgui/Scalable.java:50-52 | the height factor times the own height is the viewport height |
| Styles.FirstBooleanAppend | lib/src/main/java/org/jnightride/jgui/core/DockStyle.java:66-82 | the first Boolean of a concatenation is the first part's if it has one, and the second part's otherwise |
| Styles.FirstDockAppend | lib/src/main/java/org/jnightride/jgui/core/DockStyle.java:66-82 | the same for the first Dock |
| Styles.RestIsIrrelevant | lib/src/main/java/org/jnightride/jgui/core/DockStyle.java:79-81 | once a prefix holds a Boolean or a Dock, the rest of the list cannot change that result |
| Styles.ScanConstraints | lib/src/main/java/org/jnightride/jgui/core/DockStyle.java:67-82 | the loop with its null skip and early break finds the first Boolean and the first Dock of the whole list |
| Styles.DockStyle.constructor | lib/src/main/java/org/jnightride/jgui/core/DockStyle.java:52-89 | lock scaling is the first Boolean or false, the dock the first Dock or Center, the offset (0, 0, 1) and the size zero |
| Styles.DockStyle.Copy | lib/src/main/java/org/jnightride/jgui/core/DockStyle.java:96-108 | the copy has the source's four fields |
| Styles.DockStyle.Clone | lib/src/main/java/org/jnightride/jgui/core/DockStyle.java:96-108 | a new style with equal lock scaling, dock, offset and size |
| Styles.DockStyle.SetSize | lib/src/main/java/org/jnightride/jgui/core/DockStyle.java:119-121 | new width and height, the depth kept |
| Styles.DockStyle.SetSizeVector | lib/src/main/java/org/jnightride/jgui/core/DockStyle.java:128-134 | null zeroes the size, a vector is stored as given |
| Styles.DockStyle.SetLocation | lib/src/main/java/org/jnightride/jgui/core/DockStyle.java:141-143 | new x and y offset, the depth kept |
| Styles.DockStyle.SetLocationVector | lib/src/main/java/org/jnightride/jgui/core/DockStyle.java:150-156 | null zeroes the offset, a vector is stored as given |
| Styles.DockStyle.SetLockscaling | lib/src/main/java/org/jnightride/jgui/core/DockStyle.java:161-163 | only the lock-scaling flag changes, to the argument |
| Styles.DockStyle.SetDock | lib/src/main/java/org/jnightride/jgui/core/DockStyle.java:164-166 | only the dock changes, to the argument |
| Docking.ToggledHint | lib/src/main/java/org/jnightride/jgui/core/DockControl.java:66-83 | Always and Never swap so that the node is visible exactly when asked; every other hint is kept |
| Docking.VisibleAfterToggle | lib/src/main/java/org/jnightride/jgui/core/DockControl.java:66-83 | after setVisible(v) the node is visible exactly when v holds and its hint was Always or Never; showing a node on Dynamic leaves it invisible |
| Docking.Adopted | lib/src/main/java/org/jnightride/jgui/core/DynamicLayout.java:155-163 | after attaching a set of nodes under p, each of them has p as scene parent and every other node keeps its parent |
| Docking.MySize | lib/src/main/java/org/jnightride/jgui/core/DockControl.java:164-178 | with a root: x scales like the root's height to the viewport under lock scaling and like its width otherwise, y like its height, z not at all, and lock scaling keeps the aspect ratio; without a root: zero |
| Docking.ParentWidth | lib/src/main/java/org/jnightride/jgui/core/DockControl.java:144-149 | the parent's width, or without a parent the root's width scaled, which is the viewport width |
| Docking.ParentHeight | lib/src/main/java/org/jnightride/jgui/core/DockControl.java:151-157 | the parent's height, or without a parent the viewport height |
| Docking.CalculatePosition | lib/src/main/java/org/jnightride/jgui/core/DockControl.java:204-215 | zero without a root; otherwise its depth is the depth offset |
| Docking.ReferenceBox | lib/src/main/java/org/jnightride/jgui/core/DockControl.java:144-157 | the frame is the parent's rectangle from its top-left corner, or the viewport from its bottom-left corner |
| Docking.Translation | lib/src/main/java/org/jnightride/jgui/core/DockControl.java:181-193 | with a root, the final depth is twice the depth offset |
| Docking.StepsReachTranslation | lib/src/main/java/org/jnightride/jgui/core/DockControl.java:181-193 | the base point, moved by calculatePosition and then by (-w/2, +h/2, 0), is the translation |
| Docking.TranslationAnchoredColumn | lib/src/main/java/org/jnightride/jgui/core/DockControl.java:163-301 | the node's left edge sits at the anchor that its dock's column names in the frame, moved inwards by the scaled x offset |
| Docking.TranslationAnchoredRow | lib/src/main/java/org/jnightride/jgui/core/DockControl.java:163-301 | the node's top edge sits at the anchor that its dock's row names in the frame, moved inwards by the scaled y offset |
| Docking.RootViewAgrees | lib/src/main/java/org/jnightride/jgui/Scalable.java:39-52 | the view a control takes of its root pane is sized exactly when the pane is, and then has the pane's two scale factors |
| Docking.PlacedExact | lib/src/main/java/org/jnightride/jgui/core/DockControl.java:144-194 | for a node without a parent, or whose parent is not docked, the translation updateGui gave it is Translation with the parent's current size |
| Docking.UpdateProgress | lib/src/main/java/org/jnightride/jgui/core/DynamicLayout.java:78 | one updateGui on a docked node keeps the state settled and adds that node to the done ones, with its translation |
| Docking.ScreenPosition | lib/src/main/java/org/jnightride/jgui/core/DockControl.java:349-352 | the local translation shifted by half the viewport, so measured from its bottom-left corner |
| Docking.DockControl.constructor | lib/src/main/java/org/jnightride/jgui/core/DockControl.java:53-57 | root and style as given, no parent |
| Docking.DockControl.ParentSeen | lib/src/main/java/org/jnightride/jgui/core/DockControl.java:124-126 | the control has a parent exactly when what updateGui reads has one, and then that carries the parent's node and lock-scaling flag |
| Docking.DockControl.LockSeen | lib/src/main/java/org/jnightride/jgui/core/DockControl.java:307-309 | isLockScaling is the lock-scaling flag updateGui reads |
| Docking.DockControl.UpdateGui | lib/src/main/java/org/jnightride/jgui/core/DockControl.java:163-194 | only this node's size and translation change, to MySize and Translation of the current setup; the node ends at rest, and a node at rest is left as it was, so a second call changes nothing |
| Docking.DockControl.Place | lib/src/main/java/org/jnightride/jgui/core/DockControl.java:181-193 | the three translation writes of updateGui leave Translation of the setup |
| Docking.DockControl.Refresh | lib/src/main/java/org/jnightride/jgui/core/DockControl.java:163-194 | updateGui as seen by a loop: this node gets MySize of its setup and Translation of its setup with the parent's size before the call, and no other entry changes |
| Docking.DockControl.SetPosition | lib/src/main/java/org/jnightride/jgui/core/DockControl.java:316-319 | the x and y offset change with the depth kept, then the node is recomputed |
| Docking.DockControl.SetDepthPosition | lib/src/main/java/org/jnightride/jgui/core/DockControl.java:325-329 | only the depth offset changes, then the node is recomputed |
| Docking.DockControl.SetDock | lib/src/main/java/org/jnightride/jgui/core/DockControl.java:335-339 | the dock becomes the argument, or Center for null, then the node is recomputed |
| Docking.DockControl.SetDockStyle | lib/src/main/java/org/jnightride/jgui/core/DockControl.java:341-344 | the style is replaced, then the node is recomputed |
| Docking.DockControl.SetVisible | lib/src/main/java/org/jnightride/jgui/core/DockControl.java:66-83 | only this node's cull hint changes, by ToggledHint; afterwards isVisible holds exactly when asked for and the hint was Always or Never |
| Docking.DockControl.Attach | lib/src/main/java/org/jnightride/jgui/core/DockControl.java:367-376 | fails on a node without a GuiControl; otherwise the parent becomes the scene parent's DockControl when there is one and is kept otherwise |
| Docking.DockControl.Detach | lib/src/main/java/org/jnightride/jgui/core/DockControl.java:378-380 | afterwards there is no parent |
| Docking.DynamicLayout.constructor | lib/src/main/java/org/jnightride/jgui/core/DynamicLayout.java:57-59 | the given root pane, no children, not attached |
| Docking.DynamicLayout.GetChildren | lib/src/main/java/org/jnightride/jgui/core/DynamicLayout.java:176-178 | exactly the registered nodes |
| Docking.DynamicLayout.Clone | lib/src/main/java/org/jnightride/jgui/core/DynamicLayout.java:196-198 | a new layout on the same root pane, with no children and not attached |
| Docking.DynamicLayout.CalculatePreferredSize | lib/src/main/java/org/jnightride/jgui/core/DynamicLayout.java:62-70 | (1, 1, 0) when the layout's node has no DockControl, that control's style size otherwise |
| Docking.DynamicLayout.Restart | lib/src/main/java/org/jnightride/jgui/core/DynamicLayout.java:72-88 | only docked nodes change, each only towards what updateGui gives it; every node the cascade reaches, nested layouts' descendants included, ends with its updateGui size and a translation updateGui gives it, in any visiting order |
| Docking.DynamicLayout.ChildrenDone | lib/src/main/java/org/jnightride/jgui/core/DynamicLayout.java:72-88 | after restart every child has the size MySize computes from what its control reads, and a translation |
| Docking.DynamicLayout.RestartChild | lib/src/main/java/org/jnightride/jgui/core/DynamicLayout.java:73-87 | one step of restart: the child and everything its own layout reaches are done and the state stays settled |
| Docking.DynamicLayout.RefreshChild | lib/src/main/java/org/jnightride/jgui/core/DynamicLayout.java:73-78 | the child's updateGui, counted as one more done node |
| Docking.DynamicLayout.RefreshControl | lib/src/main/java/org/jnightride/jgui/core/DynamicLayout.java:78 | the child gets its updateGui size and translation, nothing else changes, and what restart needs of the scene is kept |
| Docking.DynamicLayout.RestartNested | lib/src/main/java/org/jnightride/jgui/core/DynamicLayout.java:80-85 | the restart of a child's own layout adds what that layout reaches to the done nodes |
| Docking.DynamicLayout.Reshape | lib/src/main/java/org/jnightride/jgui/core/DynamicLayout.java:91-102 | only docked nodes change, towards what updateGui gives them with the preferred sizes; every child ends with that size and a translation updateGui gives it; every child's style holds its preferred size when no two children share a style |
| Docking.DynamicLayout.ReshapeStep | lib/src/main/java/org/jnightride/jgui/core/DynamicLayout.java:92-101 | one step of reshape keeps the loop's progress with one more child done, size and translation |
| Docking.DynamicLayout.ReshapeChild | lib/src/main/java/org/jnightride/jgui/core/DynamicLayout.java:96-100 | the child's style takes its preferred size, then the child gets its updateGui size and Translation of its setup with the parent's size before the call, and nothing else changes |
| Docking.DynamicLayout.ResizeStyle | lib/src/main/java/org/jnightride/jgui/core/DynamicLayout.java:99 | the style's size becomes the preferred size, and nothing else updateGui reads changes |
| Docking.DynamicLayout.AddChild | lib/src/main/java/org/jnightride/jgui/core/DynamicLayout.java:105-142 | null is passed back and a node without a GuiControl refused, with nothing changed; otherwise the node is in the map once, with the control now attached to it (its own when it had one, else a new one on the root pane with a style from the constraints); on an attached layout the node goes under the layout's node, the control's attach runs and a reused control gets a new style and is recomputed |
| Docking.DynamicLayout.Enrol | lib/src/main/java/org/jnightride/jgui/core/DynamicLayout.java:112-126 | an old entry is removed, and the node is mapped to its existing control or to a new one with a new style built from the constraints and no parent |
| Docking.DynamicLayout.Hook | lib/src/main/java/org/jnightride/jgui/core/DynamicLayout.java:128-138 | the node goes under the layout's node, its control's attach runs, and a reused control gets a new style and is recomputed |
| Docking.DynamicLayout.RemoveChild | lib/src/main/java/org/jnightride/jgui/core/DynamicLayout.java:166-173 | nothing changes for a node that is not a child; otherwise only that entry goes and the node leaves its scene parent |
| Docking.DynamicLayout.ClearChildren | lib/src/main/java/org/jnightride/jgui/core/DynamicLayout.java:181-193 | every child leaves its scene parent and the map is empty |
| Docking.DynamicLayout.Detach | lib/src/main/java/org/jnightride/jgui/core/DynamicLayout.java:145-152 | the layout is not attached and every child leaves its scene parent, with every map entry kept |
| Docking.DynamicLayout.Attach | lib/src/main/java/org/jnightride/jgui/core/DynamicLayout.java:155-163 | every child goes under the layout's node and its control's parent is the one its attach settles on |
| Docking.DynamicLayout.AttachChild | lib/src/main/java/org/jnightride/jgui/core/DynamicLayout.java:158-161 | one step of attach: this child is placed and attached, no other control changes |

## Left out

- Floating point: floats are reals. Rounding, NaN and infinities, the int-to-float conversion in the AppSize setters and `Float.floatToIntBits` are not modelled. `equals` compares the real values. `hashCode` takes the bit encoding as a parameter.
- Division by a zero extent: the scale factors require non-zero own extents of the root pane.
- `getClass()` in `AppSize.equals`: there are no subclasses in the model.
- `AppSize.toString`, `write` and `read`: string formatting and jME serialisation.
- `DockControl.setFontSize`, `getGui`, `getRootPane`, `getParent`, `getDockStyle`, `getWidth`, `getHeight` and `getPosition`: a foreign Label check and plain accessors. The fields are read directly.
- The DockStyle getters: vectors are values, so the copies that `getSize` and `getLocation` return are implicit. Aliasing of a vector passed to `setSize(Vector3f)` or `setLocation(Vector3f)` is not modelled.
- `RootPane.java` is not part of this model. The root is any `Scalable`, whose getters are fields.
- Scene-graph internals: `attachChild`, `removeFromParent`, `addControl`, `invalidate()` and the GuiControl internals are reduced to the maps of `Scene`. The preferred size a GuiControl computes is part of that state.
- The set of nodes that have a GuiControl is fixed.
- Null entries in the children map are never created by `addChild`, so the null checks in the loops have no model.
- Concurrency and the visiting order of the identity map: each loop of the layout picks the next child nondeterministically.
- Docking.DockControl.UpdateGui: it requires a sized root pane, or no root and a parent. The source would throw or divide by zero otherwise.
- Docking.DynamicLayout.Restart: it requires that each control's parent sits on another node that has a GuiControl, and that nested layouts do not form a cycle.
- Docking.DynamicLayout.Restart: a node whose parent is docked is promised one of two translations, from the parent's size before or after the parent's own updateGui. Which one it gets depends on the visiting order of the identity map, which the model leaves open.
- Docking.DynamicLayout.Reshape: the same holds for the translations reshape gives.
- Docking.DynamicLayout.CalculatePreferredSize: it requires an attached layout. The source dereferences the layout's node and throws a NullPointerException on an unattached one.
- Docking.DockControl.SetVisible: `cull` holds the effective hint that `getCullHint` reports, which is never Inherit. Setting a hint also changes the effective hints of descendants that inherit it; that change is not modelled.
- Docking.DynamicLayout.AddChild: it requires that a node is not added to the layout attached to that same node. On an attached layout with a reused control, it requires that control to be ready for updateGui.
- Docking.DynamicLayout.Reshape: the style-size claim covers only children that do not share a style. When two children share one, that style holds one of their preferred sizes.
