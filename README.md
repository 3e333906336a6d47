# Floating slider: placement and visibility model

A Dafny model of `useFloatingSlider`, a React Native hook that overlays a value
slider on the screen, anchored to one of four edges (`left`, `top`, `right`,
`bottom`), shown on demand and dismissed by a tap outside it or by the hardware
back button while the screen is focused.

The model has two parts.

- **Placement** (`placement.dfy`): the switch on `position` that builds the
  positioned wrapper's props. These are four nullable offsets and, for the side
  edges, a transform list (`rotate: -90deg`, `translateX`, `translateY`).
  JavaScript numbers become `real`. The source only adds, subtracts and halves,
  so the results are exact. `ScreenGeometry` (`screen_geometry.dfy`) is an
  independent reference for what those props mean. It computes the box the
  wrapper covers on screen under absolute positioning and the transform list.
  Its lemmas prove what the design is for: every edge placement keeps the slider
  exactly `offset` from its edge (for the top edge, measured below the status
  bar), centres it along that edge, and mirrors left onto right.
- **Visibility and the back-button effect**: the hook's state setters, its two
  layout callbacks, focus changes, the hardware-back listener and the
  post-render effect that subscribes and unsubscribes it.
  - `Visibility` (`visibility.dfy`) states these as a value-level state machine
    (`HookState`, `Event`, `Step`), with `Reconcile` standing in for React running
    the effect after a render. It proves the invariant "a subscription is held
    exactly when the effect last ran visible and focused, and every other one was
    removed exactly once" over every event sequence.
  - `FloatingSliderHook` (`floating_slider.dfy`) holds the same state in a class
    whose methods update fields in place. The platform back-button registry is a
    second class, `BackHandler`, with an add/remove pair and call counters.
    Each event method is proved to move the object's state exactly as `Step`
    does. The constructor lands on `Mount`, `Unmount` moves as
    `Visibility.Unmount`, and `RenderSlider` is `Render` of the object's state.

`Constants.statusBarHeight` is a parameter of the placement and a constant of
the `FloatingSlider` object. The screen's focus (`useIsFocused`) is a field that
`SetFocused` changes.

`top` and `bottom` set three offsets (their own edge, left and right); `left`
and `right` set two (left and right).

## Model

| member | source | states |
|---|---|---|
| Placement.WrapperPlacement | src/floating-slider.js:70-119 | left and right offsets are set (and equal) exactly for the four known positions; top only for `top`, bottom only for `bottom`; a transform exists iff the position is left or right, and its rotation is always -90deg |
| Placement.TopPlacement | src/floating-slider.js:107-111 | top: topOffset = statusBarHeight + offset, left = right = 10, bottom null, no transform |
| Placement.BottomPlacement | src/floating-slider.js:112-116 | bottom: bottomOffset = offset, left = right = 10, top null, no transform |
| Placement.SidePlacementsMirror | src/floating-slider.js:81-105 | left and right share offsets (rootWidth - rootHeight)/2 + statusBarHeight + 10, rotation and translateX = wrapperHeight/2 - rootHeight/2; right translateY is the negation of left's; top and bottom stay null |
| Placement.UnknownPositionUnplaced | src/floating-slider.js:70-119 | any position outside `POSITION` leaves all four offsets null and no transform |
| Placement.MeasurementIndependence | src/floating-slider.js:80-116 | top and bottom placements do not depend on any measurement; no side offset depends on the wrapper's height |
| Placement.PositioningOracles | src/floating-slider.test.js:231-305 | with root 1000x200, wrapper 100, status bar 50, offset 50: left 460/460 with translate (-50, -400), right 460/460 with (-50, 400), top 10/10/100, bottom 10/10/50 |
| ScreenGeometry.LaidOut | src/floating-slider.js:17-22 | absolute positioning by the emitted rules: each set offset is the box's gap to that edge (bottom only when top is unset); with no horizontal rule the box sits at the left with its natural width, with no vertical rule at the top; the height is the measured one |
| ScreenGeometry.QuarterTurned | src/floating-slider.js:86-92 | the -90deg turn about the centre swaps width and height; translateX moves the centre up, translateY moves it right |
| ScreenGeometry.PlacedAtOffset | src/floating-slider.js:80-116 | for every known edge the on-screen box is exactly `offset` from that edge (the top edge measured below the status bar), and its thickness across the edge is the measured wrapper height |
| ScreenGeometry.PlacedCentred | src/floating-slider.js:80-116 | top and bottom boxes sit 10 px from both sides; left and right boxes sit statusBarHeight + 10 from both the top and the bottom |
| ScreenGeometry.SidesReflect | src/floating-slider.js:81-105 | the right box is the left box reflected across the root's vertical midline |
| ScreenGeometry.UnknownAtOrigin | src/floating-slider.js:17-22 | with no offset rule emitted the wrapper sits untransformed at the root's top-left corner |
| Visibility.WithDefaults | src/floating-slider.js:36-43 | undefined arguments default to minimumValue 0, maximumValue 1, position top, offset 50; given ones are kept |
| Visibility.Mount | src/floating-slider.js:56-60 | a mounted hook starts hidden with all measurements 0, nothing subscribed, no add or remove call made |
| Visibility.RunEffect | src/floating-slider.js:140-154 | the effect re-runs only when visibility or focus changed; it removes the subscription it held once, subscribes iff visible and focused, never adds while hidden or unfocused, and keeps the invariant |
| Visibility.Step | src/floating-slider.js:62-147 | show, hide, the outside tap, the layout callbacks, focus and the back listener each change only their own fields; only the effect touches the subscription, the call counts and the effect's dependencies |
| Visibility.Render | src/floating-slider.js:121-138 | renderSlider yields nothing exactly when hidden, otherwise the wrapper placed for the current measurements |
| Visibility.StepVisibility | src/floating-slider.js:62-147 | show makes the slider visible; hide and the outside tap hide it; a back press hides it iff it was consumed; no other event changes visibility |
| Visibility.StepPreservesInv | src/floating-slider.js:56-154 | every event keeps the subscription bookkeeping consistent |
| Visibility.StepIdempotent | src/floating-slider.js:56-154 | delivering an event twice in a row is the same as delivering it once |
| Visibility.RunPreservesInv | src/floating-slider.js:140-154 | the invariant holds after any event sequence |
| Visibility.AtMostOneSubscription | src/floating-slider.js:140-154 | from mounting, at most one subscription is outstanding and none is removed twice; after the effect runs a subscription exists iff visible and focused |
| Visibility.UnfocusedNeverSubscribes | src/floating-slider.js:141-147 | while the screen never gains focus, no subscription is ever made |
| Visibility.HiddenNeverSubscribes | src/floating-slider.js:121-147 | while the slider is never shown, nothing is subscribed and nothing renders |
| Visibility.MeasureThenPosition | src/floating-slider.js:65-77 | once both layout callbacks report, a visible slider renders the placement of the reported sizes, whatever was measured before |
| Visibility.Unmount | src/floating-slider.js:149-154 | unmount removes the held subscription, leaving adds equal to removes |
| Visibility.BackHandlerOracles | src/floating-slider.test.js:57-197 | not subscribed or rendered before show; show subscribes once and renders; back is consumed, hides, and the next effect removes once; unfocused show subscribes nothing; outside tap hides |
| FloatingSliderHook.BackHandler.constructor | src/floating-slider.js:141-149 | the registry starts with no listener and no calls |
| FloatingSliderHook.BackHandler.AddEventListener | src/floating-slider.js:141-147 | adds one listener under a handle no live listener has, counting the call |
| FloatingSliderHook.BackHandler.Remove | src/floating-slider.js:149 | removes exactly that handle's listener, counting the call |
| FloatingSliderHook.FloatingSlider.constructor | src/floating-slider.js:56-60 | on a registry with no listener left (it may have served earlier hooks), the object's state is `Mount(isFocused)`, its counts taken from this point on |
| FloatingSliderHook.FloatingSlider.ShowSlider | src/floating-slider.js:62 | state moves as `Step(_, Show)` |
| FloatingSliderHook.FloatingSlider.HideSlider | src/floating-slider.js:63 | state moves as `Step(_, Hide)` |
| FloatingSliderHook.FloatingSlider.PressOutside | src/floating-slider.js:123 | the dismiss layer's press hides the slider, as `Step(_, PressOutside)` |
| FloatingSliderHook.FloatingSlider.HandleRootLayout | src/floating-slider.js:65-68 | records the root's width and height |
| FloatingSliderHook.FloatingSlider.HandleWrapperLayout | src/floating-slider.js:75-77 | records the wrapper's height |
| FloatingSliderHook.FloatingSlider.SetFocused | src/floating-slider.js:60 | records the screen's focus |
| FloatingSliderHook.FloatingSlider.HardwareBackPress | src/floating-slider.js:141-147 | the subscribed listener hides the slider and reports the press handled; with no subscription nothing changes and it is not handled |
| FloatingSliderHook.FloatingSlider.Reconcile | src/floating-slider.js:140-154 | runs the effect in place on object and registry, as `Step(_, Reconcile)`; afterwards the registry holds one hardwareBackPress listener iff visible and focused |
| FloatingSliderHook.FloatingSlider.Unmount | src/floating-slider.js:149-154 | the cleanup leaves the registry empty, as `Visibility.Unmount` |
| FloatingSliderHook.FloatingSlider.RenderSlider | src/floating-slider.js:121-138 | `Render` of the object's state: nothing while hidden; the wrapper placed for the object's measurements and status bar while visible |
| FloatingSliderHook.BackPressScenario | src/floating-slider.test.js:145-172 | on the objects: nothing subscribed before show; show subscribes once and renders; the back press is handled, then nothing renders, the subscription was removed once and no listener is left |

## Left out

- JSX rendering is not modelled (`Portal`, `TouchableWithoutFeedback`, `Root`, the platform `Slider`) because it is UI and foreign library calls. `Render` keeps only the wrapper's props from the rendered tree.
- The styled-components CSS of `Root` and `SliderWrapper` is not modelled. A `None` offset stands for the `null` that omits that CSS rule. Padding, border and colours are folded into the measured wrapper height or left out.
- Theme colours and the `value`, `onValueChange`, `minimumValue` and `maximumValue` pass-through to the platform `Slider` are left out. They are opaque values for a library not modelled here. This includes the promise that `onValueChange` is called once per change with the new value. `Config` keeps only the defaults of the two bounds.
- React scheduling is not modelled (re-renders, effect timing, `useCallback` identity, batching). Effects run only at explicit `Reconcile` steps. `hideSlider` keeps one identity, so the effect's dependencies reduce to visibility and focus.
- `react-magnetic-di` injection is left out. The object takes its collaborators as constructor arguments.
- The `BackHandler` and `expo-constants` platform APIs are abstracted. `BackHandler` is an add/remove pair with counters. While a hook is mounted it is assumed to be the registry's only client; hooks mounted one after another may share it. The status bar height is a parameter.
- IEEE-754 arithmetic is not modelled. `real` is exact, and the source only adds, subtracts and halves.
- Only string positions are modelled. A non-string value such as `null` also misses every case and gives the unpositioned props, as an unknown string does.
- ScreenGeometry: the transform semantics are an assumption about the platform: transforms apply about the view's centre, in list order, with translations along the rotated axes. So are the layout semantics: an absolute child with neither top nor bottom sits at the top. Only the -90deg rotation that the placement produces is interpreted.
- FloatingSliderHook.FloatingSlider.Unmount: it does not stop later method calls on the object. After unmount the modelled effect counts as having last run hidden and unfocused.
