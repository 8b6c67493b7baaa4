# Text layer of a PDF page, modelled in Dafny

The text layer of a rendered PDF page lays one absolutely positioned span over
the page for every text item the page's text extraction returns, so that the
text can be selected. This project models its two parts:

- **Fragment placement** (`fragment_position.dfy`, module `FragmentPosition`):
  the closure that turns the viewport's view box `[xMin, yMin, xMax, yMax]`, the
  viewport rotation reduced with JavaScript's `% 360`, and one item's
  `[fontHeightPx, fontWidthPx, width, height, x, y]` transform into
  `{top, left, height}`. Four tests are tried top-down (`>= 270`, `>= 180`,
  `>= 90`, otherwise); in the first and third the rendered height is the item's
  width. Arithmetic is exact (`real`); the rotation is an `int`, and its
  remainder is JavaScript's, truncated toward zero, so a negative rotation keeps
  a negative remainder and takes the last branch.
- **Lifecycle and rendering** (`text_layer.dfy`, module `TextLayerComponent`,
  class `TextLayer`): `state.textItems` as a tagged `LoadState`
  (`NotLoaded` for `null`, `Failed` for `false`, `Loaded(items)` for an array,
  empty arrays included), the `runningTask` field, the page identity, and the
  calls made to `onGetTextSuccess` and `onGetTextError`. The events are mount,
  update with new props, unmount, and the resolution or rejection of a task,
  each task named by the order in which it was started. `renderTextItems` is a
  function of the state: nothing unless loaded, otherwise one fragment per item,
  in order, each carrying the item's string and its placement times the scale.
  The `rotate` getter gives the container's counter-rotation.
- **Scenarios** (`scenarios.dfy`, module `TextLayerScenarios`): clients that
  drive a `TextLayer` through event sequences and state, from the method
  contracts alone, what state and observer calls result.

`wrappers.dfy` holds the `Option` type used for a page that may be absent.

The model follows the code where one might expect a superseded load to be cancelled and discarded:

- An update to a different page starts a new load but does not cancel the
  previous one; it only overwrites `runningTask`. A superseded task that
  settles later still stores its items (or the failed state) and still calls the
  observers (`TextLayerScenarios.SupersededTaskStillWrites`).
- Unmounting cancels only the task held in `runningTask`. A superseded task that
  rejects after unmounting still calls `onGetTextError`; its state update is
  dropped because the component is gone (`TextLayerScenarios.LateErrorAfterUnmount`).

How the framework's behaviour is read: every mount and update renders before
its `componentDidMount` or `componentDidUpdate` runs, and that render reads the
page's viewport and rotation, so with no page it throws first; a state update
on an unmounted component does nothing and its callback never runs; a
cancelled task never settles; each task settles at most once.

## Model

| member | source | states |
|---|---|---|
| FragmentPosition.ReduceRotation | src/Page/TextLayer.jsx:94 | JavaScript's `rotation % 360`: in [0, 360) for a non-negative rotation, in (-360, 0] for a negative one, and differing from the rotation by a multiple of 360 |
| FragmentPosition.FragmentRect | src/Page/TextLayer.jsx:97-126 | the placement closure on an already reduced rotation: four tests tried top-down (>= 270, >= 180, >= 90, otherwise), reading only width, height, x and y; its meaning is stated by the lemmas below |
| FragmentPosition.ItemRect | src/Page/TextLayer.jsx:93-126 | the view box and rotation read from the viewport, the rotation reduced once with JavaScript's remainder, then the closure applied to an item's transform |
| FragmentPosition.ItemRectByQuarter | src/Page/TextLayer.jsx:93-126 | the cascade of tests selects exactly the table row of the quarter turn the reduced rotation lies in: [270, 360) gives top = xMax - x - width, left = yMax - y, height = width; [180, 270) gives top = yMin + y, left = xMax - x, height = height; [90, 180) gives top = xMin + x, left = yMin + y, height = width; anything else, negative remainders included, gives top = yMax - y - height, left = x + xMin, height = height |
| FragmentPosition.FontComponentsIgnored | src/Page/TextLayer.jsx:97-99 | the first two transform components never affect the placement |
| FragmentPosition.SameQuarterSamePlacement | src/Page/TextLayer.jsx:94-120 | two rotations whose remainders fall in the same quarter turn place every item identically |
| FragmentPosition.RenderedHeightFollowsText | src/Page/TextLayer.jsx:100-125 | the rendered height is the item's width exactly in the quarters [90, 180) and [270, 360), and its height otherwise |
| FragmentPosition.FullTurnsIgnored | src/Page/TextLayer.jsx:94 | adding any number of whole turns to a non-negative rotation leaves every placement unchanged |
| FragmentPosition.NegativeRotationIsUnrotated | src/Page/TextLayer.jsx:94-125 | every negative rotation places items exactly as rotation 0 does |
| FragmentPosition.NegativeRotationIsNotPeriodic | src/Page/TextLayer.jsx:94 | rotation -90 and rotation 270 place the same item differently, so the remainder is not the floored one |
| FragmentPosition.MovingItemTurnsWithRotation | src/Page/TextLayer.jsx:100-125 | moving an item by (dx, dy) moves its fragment's (top, left) by (dx, dy) turned through a number of quarter turns that grows by one with each quarter of rotation, and leaves the rendered height alone |
| FragmentPosition.HalfTurnMirrors | src/Page/TextLayer.jsx:100-125 | placements half a turn apart mirror each other through the view box centre: equal heights; for the quarters 0 and 2 the lefts sum to xMin + xMax and the tops to yMin + yMax less the height; for 1 and 3 the lefts sum to yMin + yMax and the tops to xMin + xMax less the height |
| FragmentPosition.WorkedExamples | src/Page/TextLayer.jsx:93-126 | the four placements of an item at (20, 30), 10 wide and 5 high, in a 100 by 200 view box |
| TextLayerComponent.ScaledFragment | src/Page/TextLayer.jsx:135-144 | the span for one item: its string, and its placement's rendered height, top and left multiplied by the scale, the height becoming the font size |
| TextLayerComponent.FragmentOfItem | src/Page/TextLayer.jsx:96-144 | fragment i of a rendering carries item i's string, and its font size, top and left are item i's rendered height, top and left times the scale |
| TextLayerComponent.Fragments | src/Page/TextLayer.jsx:96-147 | one fragment per item, in the items' order, fragment i being the span of item i |
| TextLayerComponent.TextLayer.RenderTextItems | src/Page/TextLayer.jsx:86-96 | nothing is rendered in the not-loaded and failed states; in the loaded state, empty lists included, the fragments of the stored items under the current scale and viewport |
| TextLayerComponent.TextLayer.Rotate | src/Page/TextLayer.jsx:81-84 | the container's rotation added to the page's own rotation is the rotation asked for |
| TextLayerComponent.TextLayer.constructor | src/Page/TextLayer.jsx:15-17 | a new component has not loaded, has no task and has called no observer |
| TextLayerComponent.TextLayer.Mount | src/Page/TextLayer.jsx:19-27 | mounting throws exactly when there is no page, changing nothing (the first render already throws reading the missing page's viewport at line 74, before the check at line 22 is reached); otherwise exactly one load starts, on that page, and becomes the running task |
| TextLayerComponent.TextLayer.Update | src/Page/TextLayer.jsx:29-35 | an update to no page throws (in the render before the handler, reading the page's viewport at line 74) and changes nothing, props included; otherwise the props are replaced and a load starts only when the previous page was present and the new page differs, the same page changing nothing else; no task is cancelled and no pending task is dropped |
| TextLayerComponent.TextLayer.Unmount | src/Page/TextLayer.jsx:37-39 | the task recorded in runningTask, if any, is cancelled and can deliver nothing afterwards; nothing else changes |
| TextLayerComponent.TextLayer.LoadTextItems | src/Page/TextLayer.jsx:41-52 | a load on the current page is started, left pending and recorded as the running task, overwriting the previous one without cancelling it; state and observers are untouched until it settles |
| TextLayerComponent.TextLayer.Resolve | src/Page/TextLayer.jsx:47-48 | a pending task's items are stored and the success observer, if provided, receives exactly them; a cancelled or settled task, or an unmounted component, changes no state and calls nothing |
| TextLayerComponent.TextLayer.Reject | src/Page/TextLayer.jsx:47-50 | a pending task's rejection sets the failed state while mounted and calls the error observer, if provided, once with the error, mounted or not; other tasks deliver nothing |
| TextLayerComponent.TextLayer.OnLoadSuccess | src/Page/TextLayer.jsx:54-59 | the success observer, if provided, is called once with the items in the state |
| TextLayerComponent.TextLayer.OnLoadError | src/Page/TextLayer.jsx:61-69 | the state becomes failed (while mounted) and the error observer, if provided, is called once with the error |
| TextLayerScenarios.MountWithoutPage | src/Page/TextLayer.jsx:22-24 | mounting without a page throws and starts no load |
| TextLayerScenarios.SamePageUpdate | src/Page/TextLayer.jsx:32-34 | updating with the same page, even with a new scale and rotation, starts no second load |
| TextLayerScenarios.SupersededTaskStillWrites | src/Page/TextLayer.jsx:32-48 | after switching from page A to page B, A's late items overwrite B's and both reach the success observer |
| TextLayerScenarios.UnmountBeforeSettling | src/Page/TextLayer.jsx:37-39 | unmounting before the only load settles leaves the state unloaded and calls no observer |
| TextLayerScenarios.LateErrorAfterUnmount | src/Page/TextLayer.jsx:38-68 | a superseded task rejecting after unmount still calls the error observer once, while the state stays unloaded |
| TextLayerScenarios.RejectedLoad | src/Page/TextLayer.jsx:61-69 | a rejected load yields the failed state, renders nothing, and calls the error observer exactly once |
| TextLayerScenarios.EmptyLoad | src/Page/TextLayer.jsx:89-96 | a load resolving with no items renders an empty list rather than nothing |
| TextLayerScenarios.PageRemovedThrows | src/Page/TextLayer.jsx:71-84 | an update to no page throws while reading the missing page's viewport; no load starts, the state stays unloaded, the page stays the old one and no observer is called |

## Left out

- The JSX output, CSS strings, the span `ref` capture and the container's size (src/Page/TextLayer.jsx:128-147, 150-171): presentation; fragments are abstract records.
- The `TextLayer` wrapper that merges the page context into the props (src/Page/TextLayer.jsx:182-188): framework plumbing.
- `makeCancellable`, `page.getTextContent()`, `page.getViewport()`, `cancelRunningTask` and `errorOnDev` are not part of this model: the viewport is a given record, a page's own rotation is a parameter of `Rotate`, extraction results and errors arrive as `Resolve` and `Reject` events, and the diagnostic log is not recorded.
- What the framework does after a render throws (tearing the component down, or an error boundary's recovery) is not modelled: a throwing `Mount` or `Update` simply leaves the component as it was.
- A synchronous throw from `page.getTextContent()` on a present page, which the `catch` at src/Page/TextLayer.jsx:49-51 would turn into a failed load at once, is not modelled; failures arrive only as `Reject` events.
- Asynchronous scheduling: completions are explicit events tagged with a task number, applied atomically, so a state update and its callback never interleave with other events.
- Floating point: JavaScript numbers are modelled as exact reals, and the rotation as an integer.
- Changes of the observer props between a load's start and its completion are seen by the completion, as in the code, but the observers themselves are modelled only by the record of their arguments.
- The `propTypes` validators (src/Page/TextLayer.jsx:174-180, test/shared/propTypes.js): runtime type checks with no logic to model.
