# ExpandLayout: a verified model of the expand/collapse bookkeeping

`ExpandLayout` (package `com.liuzq.uikit`) is an Android `LinearLayout`.
It holds a vertical list of items and shows only the first
`defaultItemCount` of them (2 unless configured). Below the items sits a
footer ("bottom view") with a label and an arrow. A click on the footer
toggles between collapsed and expanded. Expanded shows the remaining
items, collapsed hides them again.

The model is `expand_layout.dfy`, module `Uikit`. The Android child list
becomes `children: seq<Child>`. Each `Child` records its node (an item
with an id, or the footer `Bottom`), a visibility flag, and the click
handler it carries. The class `Uikit.ExpandLayout` has the source's
fields:

- `isExpand`, `defaultItemCount`, `addedBottom`;
- the label texts, font size, colour and arrow resource id;
- `footer`: the built bottom view, recording the text, size and colour of
  its label and the image of its arrow;
- `orientation`;
- a flag saying whether a state listener is registered.

Each method of the class states its whole new state. The loops of
`expand`, `hide` and `setOnItemClickListener` are kept as loops, and each
is proved against a recursive specification function (`WithVisibility`,
`WithClickPositions`). The lemmas work on those functions:

- toggling twice restores the state and the label;
- after a batch of `addItem` calls and `justToAddBottom`, the whole
  collapsed state comes back after two toggles;
- item-click positions match indices;
- calling `justToAddBottom` twice appends a second footer.

Two client methods, `ScenarioBatch` and `ScenarioToggle`, exercise the
contracts on a concrete sequence, checked by the verifier: four items, the footer, two toggles,
and a refused horizontal orientation.

Three behaviours of the code are worth knowing:

- `build` with a custom layout that lacks `iv_arrow` or `tv_tip` does not
  report a named error. It fails later with a null dereference. That
  path is not modelled.
- `justToAddBottom` is not idempotent (see Findings).
- The footer is not always the last child. An `addItem` after
  `justToAddBottom` appends the item after the footer, while `addedBottom`
  stays true. `EndIndex` then leaves out that last item instead of the
  footer. The model keeps this behaviour.

## Model

| member | source | states |
|---|---|---|
| `Uikit.ExpandLayout.constructor` | uikit/src/main/java/com/liuzq/uikit/ExpandLayout.java:25-66 | Starts collapsed, with no footer added, no children and no footer built. `defaultItemCount` falls back to 2, the colour to #666666 and `useDefaultBottom` to true when the attribute is absent. The orientation is set to vertical. |
| `Uikit.ExpandLayout.SetExpandText` | uikit/src/main/java/com/liuzq/uikit/ExpandLayout.java:68-71 | Stores the expand label and returns the same layout for chaining. Nothing else changes. |
| `Uikit.ExpandLayout.SetHintText` | uikit/src/main/java/com/liuzq/uikit/ExpandLayout.java:73-76 | Stores the hide label and returns the same layout. Nothing else changes. |
| `Uikit.ExpandLayout.SetFontSize` | uikit/src/main/java/com/liuzq/uikit/ExpandLayout.java:78-81 | Stores the label size and returns the same layout. Nothing else changes. |
| `Uikit.ExpandLayout.SetTextColor` | uikit/src/main/java/com/liuzq/uikit/ExpandLayout.java:83-86 | Stores the label colour and returns the same layout. Nothing else changes. |
| `Uikit.ExpandLayout.SetArrowResId` | uikit/src/main/java/com/liuzq/uikit/ExpandLayout.java:88-91 | Stores the arrow image id and returns the same layout. Nothing else changes. |
| `Uikit.ExpandLayout.SetUseDefaultBottom` | uikit/src/main/java/com/liuzq/uikit/ExpandLayout.java:93-95 | Stores the default-footer flag. Returns nothing. |
| `Uikit.ExpandLayout.FinishInflate` | uikit/src/main/java/com/liuzq/uikit/ExpandLayout.java:113-118 | Builds the default footer exactly when `useDefaultBottom` is set. Otherwise the footer is unchanged. |
| `Uikit.ExpandLayout.Build` | uikit/src/main/java/com/liuzq/uikit/ExpandLayout.java:124-150 | Replaces the footer. Its label shows `expandText` when collapsed and `hideText` when expanded. It takes the current size, colour and arrow image. Children and the state are unchanged. |
| `Uikit.ExpandLayout.AddItem` | uikit/src/main/java/com/liuzq/uikit/ExpandLayout.java:157-165 | Appends exactly one child at the end and leaves every earlier child unchanged. The new child is hidden iff the new count exceeds `defaultItemCount`. Otherwise it keeps its own visibility. |
| `Uikit.ExpandLayout.RefreshUI` | uikit/src/main/java/com/liuzq/uikit/ExpandLayout.java:172-174 | Hides the child at the given index and changes nothing else. |
| `Uikit.ExpandLayout.JustToAddBottom` | uikit/src/main/java/com/liuzq/uikit/ExpandLayout.java:180-189 | Sets `addedBottom` to whether the count (footer included) exceeds `defaultItemCount`. If it does, the footer becomes the new last child. With no footer built, the call fails with a null-child error after the flag is already set. Otherwise the list is unchanged. |
| `Uikit.ExpandLayout.SetOrientation` | uikit/src/main/java/com/liuzq/uikit/ExpandLayout.java:192-197 | Horizontal fails with an orientation error and leaves the orientation unchanged. Any other value is stored. |
| `Uikit.ExpandLayout.Expand` | uikit/src/main/java/com/liuzq/uikit/ExpandLayout.java:202-209 | Makes every child in `[defaultItemCount, endIndex)` visible and leaves all others unchanged. `endIndex` leaves out the last child when the footer was added, so that child is untouched. |
| `Uikit.ExpandLayout.Hide` | uikit/src/main/java/com/liuzq/uikit/ExpandLayout.java:214-221 | Hides every child in `[defaultItemCount, endIndex)` and leaves all others unchanged, the last child included when the footer was added. |
| `Uikit.ExpandLayout.Toggle` | uikit/src/main/java/com/liuzq/uikit/ExpandLayout.java:239-256 | From collapsed it expands and sets the label to `hideText`. From expanded it hides and sets the label to `expandText`. `isExpand` is negated. The requested rotation is chosen from the old state. A registered listener receives the new `isExpand`. Nothing else on the footer changes. |
| `Uikit.ExpandLayout.SetOnStateChangeListener` | uikit/src/main/java/com/liuzq/uikit/ExpandLayout.java:267-269 | Single-slot listener: the last registration wins. |
| `Uikit.ExpandLayout.SetOnItemClickListener` | uikit/src/main/java/com/liuzq/uikit/ExpandLayout.java:271-283 | Child `i` for every `i` in `[0, endIndex)` gets a handler that reports `i`. Children from `endIndex` on are unchanged, so the last child keeps its handler when the footer was added. |
| `Uikit.EndIndex` | uikit/src/main/java/com/liuzq/uikit/ExpandLayout.java:203 | Without the footer added, the loops run to the child count. With it, they stop one short, leaving out the last child. The same rule is used at lines 215 and 272. |
| `Uikit.TipText` | uikit/src/main/java/com/liuzq/uikit/ExpandLayout.java:138-142 | The label `build` sets is one of the two texts. When the texts differ, it is `hideText` exactly when the layout is expanded. |
| `Uikit.WithItem` | uikit/src/main/java/com/liuzq/uikit/ExpandLayout.java:158-163 | One child is appended and the earlier ones are kept. It has the view's node and handler, and is visible iff the view was visible and the new count does not exceed the threshold. |
| `Uikit.BottomAdded` | uikit/src/main/java/com/liuzq/uikit/ExpandLayout.java:181-188 | At or below the threshold the list is unchanged. Above it, the footer is appended as the new last child. The footer counts toward the threshold, which is where a second call appends a second footer. |
| `Uikit.ArrowAnim` | uikit/src/main/java/com/liuzq/uikit/ExpandLayout.java:224-232 | The animation starts at the resting angle of the state before the toggle (0 collapsed, 180 expanded, modulo 360) and ends at the resting angle of the state after it. It always turns by +180 degrees. |
| `Uikit.WithVisibility` | uikit/src/main/java/com/liuzq/uikit/ExpandLayout.java:204-208 | Length is preserved. Every index in `[lo, hi)` gets visibility `v`. Nodes and handlers are kept, and every index outside the range is unchanged. |
| `Uikit.WithClickPositions` | uikit/src/main/java/com/liuzq/uikit/ExpandLayout.java:273-282 | Length is preserved. Index `i < end` reports position `i`. Nodes and visibility are kept, and indices from `end` on are unchanged. |
| `Uikit.AddItems` | uikit/src/main/java/com/liuzq/uikit/ExpandLayout.java:157-174 | `addItem` is applied to each view in turn on a fresh layout. Item `i` keeps its own visibility when `i < defaultItemCount` and is hidden otherwise. |
| `Uikit.Toggled` | uikit/src/main/java/com/liuzq/uikit/ExpandLayout.java:239-250 | The state is negated. The label is the text `build` would show for the new state. The tail range takes the new state's visibility. Every child keeps its node and handler, and everything outside the tail is unchanged. |
| `Uikit.WithVisibilityTwice` | uikit/src/main/java/com/liuzq/uikit/ExpandLayout.java:202-221 | A `hide` after an `expand` over the same range, or the reverse: the second call fully decides the result. |
| `Uikit.WithVisibilityUnchanged` | uikit/src/main/java/com/liuzq/uikit/ExpandLayout.java:202-221 | Setting a range to the visibility it already has is the identity. |
| `Uikit.ToggleTwice` | uikit/src/main/java/com/liuzq/uikit/ExpandLayout.java:239-256 | Two toggles restore `isExpand` and the label. The tail ends with the original state's visibility, all hidden when starting collapsed. |
| `Uikit.ToggleTwiceRestores` | uikit/src/main/java/com/liuzq/uikit/ExpandLayout.java:239-256 | If the tail and the label already match the state, two toggles give back exactly the starting state. |
| `Uikit.BatchShape` | uikit/src/main/java/com/liuzq/uikit/ExpandLayout.java:157-189 | Take a fresh layout, add the items, then call `justToAddBottom`. The head keeps its own visibility and every tail item is hidden. When the count exceeded the threshold, the footer is the last child and the length grew by one. Otherwise the list is exactly the items. |
| `Uikit.ToggleTwiceAfterBatch` | uikit/src/main/java/com/liuzq/uikit/ExpandLayout.java:157-256 | After such a batch, two toggles give back exactly the children, state and label the batch produced. |
| `Uikit.ItemClicksAfterBatch` | uikit/src/main/java/com/liuzq/uikit/ExpandLayout.java:271-283 | After such a batch, every item reports its own index. The added footer keeps its toggle handler. |
| `Uikit.BottomAddedTwice` | uikit/src/main/java/com/liuzq/uikit/ExpandLayout.java:180-189 | On a list longer than the threshold, a second `justToAddBottom` appends a second footer. |
| `Uikit.BottomPlaced` | uikit/src/main/java/com/liuzq/uikit/ExpandLayout.java:180-189 | Corrected placement. A list that already holds a footer is returned unchanged. Otherwise the result is the input, or the input with exactly the footer appended. It holds a footer iff the input did or the item count exceeds the threshold. |
| `Uikit.BottomPlacedIdempotent` | uikit/src/main/java/com/liuzq/uikit/ExpandLayout.java:180-189 | The corrected placement is idempotent. |
| `Uikit.BottomPlacedFirstCall` | uikit/src/main/java/com/liuzq/uikit/ExpandLayout.java:180-189 | On a list without a footer, the corrected placement does the same as the source's `justToAddBottom`. |
| `Uikit.ScenarioBatch` | uikit/src/main/java/com/liuzq/uikit/ExpandLayout.java:157-189 | Four items with the default threshold and a built default footer: the footer ends up as the fifth child, the first two items are visible, the third and fourth are hidden, and the layout stays collapsed. |

## Left out

- Styled-attribute parsing, resource lookup and `UIUtils.sp2px` are not modelled. The configured values are a constructor argument. The scaled default text size and the default arrow drawable id are plain parameters.
- An unset `expandText`/`hideText` attribute is `null` in the source. The model takes a `string`.
- A negative `defaultItemCount` attribute is not modelled (the field is a `nat`). With a negative value, the source's loops would call `getChildAt` on a negative index.
- `View.inflate`, `findViewById` and the `instanceof` dispatch in `build` are not modelled. The argument is a tagged `FooterSource`. A custom layout that lacks `iv_arrow` or `tv_tip` (a null dereference in the source) is not modelled.
- The bottom view is a single object in the source. The model appends the value `FooterChild` (visible, toggling on click) instead. Aliasing between two appended copies, and the old footer entry staying attached after a second `build`, are not modelled.
- The host's own checks on `addView` are not modelled, apart from rejecting a null child. In particular, Android's refusal to add a view that already has a parent is not modelled.
- Floating-point font sizes are modelled as `real`. The text size, colour and arrow image are only recorded on the footer.
- `ObjectAnimator` playback is not modelled. Only the requested angle pair is returned by `Toggle`.
- Listener callbacks are not invoked. `Toggle` returns the value the state listener would receive. Item handlers record the captured position, and listener identity is not tracked.
- `onClick` is `Toggle` itself. `Log.e`, drawing, layout and the framework's own constructor chain (including an orientation given in XML) are not modelled.
- `Uikit.ExpandLayout.Toggle`: requires a built footer. `onClick` is public and calls `toggle` directly. With no footer built, the source first runs `expand` or `hide`, which changes the children's visibility. It then throws a NullPointerException at `tvTip.setText`, before `isExpand` flips and before any listener is told. That crash path, including the visibility change made before it, is not modelled.
- Java `int` overflow of the child count is not modelled.

## Findings

| source | as written | input that shows it | evidently intended | confidence | as-written member | corrected member |
|---|---|---|---|---|---|---|
| uikit/src/main/java/com/liuzq/uikit/ExpandLayout.java:180-189 | `justToAddBottom` counts every child, the footer included, and appends the footer whenever the count exceeds the threshold | `defaultItemCount` 2, three items, `justToAddBottom` called twice: the list becomes three items followed by two footer entries | a second call finds the footer already placed and leaves the list unchanged | not executed; the duplicate append is proved on the model, where the host tree is a plain list. Android would instead reject re-adding an attached view with an exception | `Uikit.BottomAddedTwice` (on `Uikit.BottomAdded`, used by `Uikit.ExpandLayout.JustToAddBottom`) | `Uikit.BottomPlaced`, proved idempotent by `Uikit.BottomPlacedIdempotent` and equal to the source's behaviour on a first call by `Uikit.BottomPlacedFirstCall` |
