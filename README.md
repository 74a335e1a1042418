# EasyGUI list container: scroll logic

This project models the scroll logic of the EasyGUI list-container widget
(`src/widget/gui_list_container.c`) in Dafny and proves properties of it.

The widget hosts child widgets and lets the user drag them within its viewport.
It has two pieces of logic:

- **Scroll-limit calculator** (`calculate_limits`). It scans the children for
  their farthest right and bottom edges (the running maxima `cmx` and `cmy`,
  which start at 0). It subtracts the inner width and height, giving the
  non-negative limits `maxscrollx` and `maxscrolly`. It then lowers any scroll
  offset that lies above its limit. The draw callback runs it on every pass.
- **Drag-to-scroll translator** (the `GUI_WC_TouchMove` case). For each axis
  that the mode enables, it adds `old - new` of the first touch point to the
  scroll offset and floors the result at 0. It then runs the calculator, which
  enforces the upper bound.

Around these sit the mode parameter (`GUI_WC_SetParam` with `CFG_MODE`, and
`gui_listcontainer_setmode`) and the background-colour rule of
`gui_listcontainer_setcolor`: a stored background colour links the widget's
invalidation to its parent's exactly when the colour is transparent.

Everything is in one module, `GuiListContainer` (`gui_list_container.dfy`):

- A specification layer of datatypes and functions: `Rect`, `FarExtent`,
  `MaxScroll`, `LowerTo` and `DragAxis`. A value view `Scroll` holds the
  offsets and limits. `Recalculated` and `AfterTouchMove` are the two state
  transforms. `Run` folds a sequence of draw and drag events in arrival order.
- The class `ListContainer`. Its fields are the ones the source updates in
  place: `mode`, the scroll offsets, the limits, the invalidate-with-parent
  flag and the colours set so far. `CalculateLimits` keeps the source's loop
  over the children, with an invariant that ties the accumulators to
  `FarExtent` of the prefix already scanned. Each state-changing method states
  its new `View()` as a function of the old one and says which fields stay
  unchanged.

The framework's collaborators are passed in as parameters:

- the child list, as a sequence of relative rectangles;
- the inner width and height of the container;
- the first touch point's old and new relative positions;
- the outcome of the framework's colour store.

`calculate_limits` only lowers offsets (lines 98-103). A negative offset, such
as one set through the framework's scroll setter, therefore stays negative, and
the bounds lemmas assume that the offsets start non-negative. The widget's own
transitions keep them so: `TouchMove` floors the offset of each axis the mode
enables at 0, and the calculator never lowers a non-negative offset below 0.

## Model

| member | source | states |
|---|---|---|
| `GuiListContainer.FarEdge` | src/widget/gui_list_container.c:78-83 | the definition of a child's far edge: `x + width` on X (line 78), `y + height` on Y (line 81); its meaning is stated by `FarExtent` and `FarExtentUnique` |
| `GuiListContainer.FarExtent` | src/widget/gui_list_container.c:67-84 | the running maximum of the children's far edges, starting at 0, is non-negative, bounds every child's `x + width` (or `y + height`), and is 0 or equal to some child's far edge |
| `GuiListContainer.FarExtentUnique` | src/widget/gui_list_container.c:67-84 | any least non-negative bound of the far edges equals the running maximum |
| `GuiListContainer.FarExtentMonotone` | src/widget/gui_list_container.c:78-83 | a child list whose members all occur in another list reaches no farther than that list |
| `GuiListContainer.FarExtentPermutation` | src/widget/gui_list_container.c:70-84 | the far extent does not depend on the order in which the children are listed |
| `GuiListContainer.MaxScroll` | src/widget/gui_list_container.c:89-96 | the limit is the least non-negative offset at which the viewport reaches the far extent (0 when the content fits) |
| `GuiListContainer.MaxScrollMonotone` | src/widget/gui_list_container.c:89-96 | a farther extent never gives a smaller limit |
| `GuiListContainer.LowerTo` | src/widget/gui_list_container.c:98-103 | the offset ends at or below the limit and at or below its old value; it is either unchanged or exactly the limit |
| `GuiListContainer.DragAxis` | src/widget/gui_list_container.c:168-179 | an enabled axis ends at `offset + delta` or at 0, whichever is larger; a disabled axis keeps its offset |
| `GuiListContainer.Recalculated` | src/widget/gui_list_container.c:64-104 | after a pass both limits are non-negative and each offset is at most its limit; an offset within its limit is unchanged and one above it is set exactly to the limit |
| `GuiListContainer.RecalculatedLimits` | src/widget/gui_list_container.c:86-96 | `maxscrollx == max(0, FarExtent(X) - innerwidth)`, and the same for y |
| `GuiListContainer.RecalculatedInBounds` | src/widget/gui_list_container.c:89-103 | from non-negative offsets, a pass leaves `0 <= scroll <= maxscroll` on both axes |
| `GuiListContainer.RecalculatedIdempotent` | src/widget/gui_list_container.c:64-104 | a second pass with the same children and viewport changes neither the limits nor the offsets |
| `GuiListContainer.NoChildrenNoScroll` | src/widget/gui_list_container.c:67-103 | with no children and a non-negative viewport, both limits are 0 and non-negative offsets return to 0 |
| `GuiListContainer.AddChildNeverLowersLimits` | src/widget/gui_list_container.c:78-96 | inserting a child at any position never lowers either limit |
| `GuiListContainer.ScrollsVertically` | src/widget/gui_list_container.c:168 | the definition of the vertical mode test (vertical or vertical-horizontal); its meaning is stated by `TouchMoveEnabledAxes`, `DisabledAxisIgnoresDelta` and `HorizontalModeKeepsY` |
| `GuiListContainer.ScrollsHorizontally` | src/widget/gui_list_container.c:174 | the definition of the horizontal mode test (horizontal or vertical-horizontal); its meaning is stated by `TouchMoveEnabledAxes`, `DisabledAxisIgnoresDelta` and `VerticalModeKeepsX` |
| `GuiListContainer.AfterTouchMove` | src/widget/gui_list_container.c:168-180 | after a drag sample the limits are re-derived from the current children and viewport (`MaxScroll` of `FarExtent`); from non-negative offsets both offsets end between 0 and those limits |
| `GuiListContainer.TouchMoveEnabledAxes` | src/widget/gui_list_container.c:168-180 | in a mode enabling y, `scrolly` becomes `max(0, scrolly + (y_rel_old - y_rel))` lowered to the new limit; the same for x with the x deltas |
| `GuiListContainer.DisabledAxisIgnoresDelta` | src/widget/gui_list_container.c:168-180 | an axis the mode does not enable gets the same offset whatever the sample: its old offset lowered to the new limit |
| `GuiListContainer.NoScrollTouchMoveIsRecalculation` | src/widget/gui_list_container.c:168-180 | in a mode enabling neither axis, a drag sample does exactly what a limit pass does |
| `GuiListContainer.Step` | src/widget/gui_list_container.c:136-183 | a draw event and a drag event both re-derive the limits from the children current at that event; from non-negative offsets either leaves the state within bounds |
| `GuiListContainer.RunInBounds` | src/widget/gui_list_container.c:136-183 | from non-negative offsets, any non-empty sequence of draw and drag events ends with both offsets between 0 and their limits |
| `GuiListContainer.VerticalModeKeepsX` | src/widget/gui_list_container.c:168-180 | in vertical mode a horizontal offset of 0 stays 0 through any events, whatever the horizontal deltas |
| `GuiListContainer.HorizontalModeKeepsY` | src/widget/gui_list_container.c:168-180 | in horizontal mode a vertical offset of 0 stays 0 through any events |
| `GuiListContainer.NoScrollNeverRaises` | src/widget/gui_list_container.c:136-183 | in a mode enabling neither axis, no sequence of events raises either offset |
| `GuiListContainer.ScenarioWideChild` | src/widget/gui_list_container.c:64-183 | viewport 100x100 with one child (0,0,150,60): limits (50,0); a drag of (20,5) from the origin in both-axes mode ends at (20,0) |
| `GuiListContainer.ScenarioFittingChild` | src/widget/gui_list_container.c:64-183 | a child that fits the viewport gives zero limits, and any drag in any mode leaves the view at the origin |
| `GuiListContainer.ScenarioChildRemoved` | src/widget/gui_list_container.c:64-104 | after the only wide child is removed, a horizontal offset of 40 is re-anchored to 0 |
| `GuiListContainer.ListContainer.constructor` | src/widget/gui_list_container.c:205-208 | a new container has zero offsets and limits and no colours of its own, so it is `Valid()` and in bounds; the mode and the link flag are given |
| `GuiListContainer.ListContainer.CalculateLimits` | src/widget/gui_list_container.c:64-104 | the loop's accumulators equal `FarExtent` of the scanned prefix; the new offsets and limits are `Recalculated` of the old ones; from a `Valid()` state it stays `Valid()` and ends in bounds; mode, flag and colours are unchanged |
| `GuiListContainer.ListContainer.SetParam` | src/widget/gui_list_container.c:122-132 | the mode parameter stores the given mode verbatim, any other parameter leaves it alone; the result is always 1 |
| `GuiListContainer.ListContainer.Draw` | src/widget/gui_list_container.c:136-149 | a draw pass runs the limit calculator and reports the command processed; from a `Valid()` state it stays `Valid()` and ends in bounds |
| `GuiListContainer.ListContainer.TouchStart` | src/widget/gui_list_container.c:151-154 | a touch start is always reported handled and processed |
| `GuiListContainer.ListContainer.TouchMove` | src/widget/gui_list_container.c:155-183 | the touch is always reported handled; the new offsets and limits are `AfterTouchMove` of the old ones under the current mode; from a `Valid()` state it stays `Valid()` and ends in bounds |
| `GuiListContainer.ListContainer.SetColor` | src/widget/gui_list_container.c:218-232 | returns the colour store's outcome; a stored colour is kept under the index cast to 8 bits; a stored background colour sets the invalidate-with-parent flag to `color == transparent`; any other index or a failed store leaves the flag alone |
| `GuiListContainer.ListContainer.SetMode` | src/widget/gui_list_container.c:241-245 | the mode becomes the given mode and the result is 1 |

## Left out

- The framework headers are not part of this model. The model makes these choices for what they define:
  - `gui_dim_t` is an unbounded integer, so overflow of `x + width` or of `scroll + delta` is not modelled.
  - The mode enumeration is a four-valued datatype. `NoScroll` stands for every value other than the three that the drag handler tests.
  - `GUI_COLOR_TRANS` is a fixed constant. Only equality with it matters to the model.
  - The touch-result enumeration is reduced to `Handled` and `NotHandled`.
- GuiListContainer.ListContainer.TouchMove, GuiListContainer.ListContainer.CalculateLimits, GuiListContainer.ListContainer.Draw: treat `gui_widget_getscrollx`/`getscrolly` as plain reads of the offsets, `gui_widget_incscrollx`/`incscrolly` as plain addition and `gui_widget_setscrollx`/`setscrolly` as plain assignment. Any clamping or redraw those framework accessors do is not modelled.
- GuiListContainer.ListContainer.SetMode: treats `guii_widget_setparam` as a call into `SetParam` that returns its result. The invalidation that the framework setter requests is not modelled.
- GuiListContainer.ListContainer.SetColor: the framework's colour store (`gui_widget_setcolor`) is a parameter, `stored`. It decides success, and its own conditions are not modelled.
- GuiListContainer.ListContainer.constructor: the widget is created with `gui_listcontainer_create`, which takes float coordinates and allocates framework memory. That is not modelled. The constructor takes the initial mode and link flag as given.
- Drawing the background rectangle in the draw callback, and the absolute-position queries it uses (lines 142-147), are rendering. Only the limit pass at line 140 is modelled.
- The `PreInit` case sets a padding of 3 (line 119). The padding is what the framework subtracts to give the inner size, so it feeds the `innerWidth` and `innerHeight` parameters; the padding itself is not modelled.
- The `ChildWidgetCreated` case and the default "not processed" case of the callback touch none of the modelled state.
- The `widget` descriptor and the default `colors` table are framework configuration.
- The handle checks (`__GUI_ASSERTPARAMS`) are calling conventions, not behaviour. The model's methods hold a valid handle by construction.
- The `__GUI_ENTER`/`__GUI_LEAVE` critical section and the `protect` arguments are the framework's locking. Everything is single-threaded here.
- The child list iteration (`gui_linkedlist_widgetgetnext`) and the inner-size queries are framework accessors. They become the `children`, `innerWidth` and `innerHeight` parameters.
- Handing a drag to the parent at the scroll limits is only a TODO in the source and has no behaviour. The model always claims the touch, as the code does.
- Only the first touch point (index 0) is read, as the source does. Touch support is modelled as compiled in (`GUI_CFG_USE_TOUCH`).
