/** The hook's state as a value: visibility, the three measurements, the screen's
    focus, and the hardware-back effect (the dependencies it last ran with, whether it
    holds a subscription, and how often it subscribed and unsubscribed). Every state
    change of the hook is one `Event`; `Reconcile` is the post-render effect. */
module Visibility {
  import opened Wrappers
  import opened Placement

  /** The hook's arguments that this model keeps. */
  datatype Config = Config(minimumValue: real, maximumValue: real, position: string, offset: real)

  const DEFAULT_MINIMUM_VALUE: real := 0.0
  const DEFAULT_MAXIMUM_VALUE: real := 1.0
  const DEFAULT_POSITION: string := TOP
  const DEFAULT_OFFSET: real := 50.0

  /** The arguments after defaulting; `None` is an argument left `undefined`. */
  function WithDefaults(minimumValue: Option<real>, maximumValue: Option<real>,
                        position: Option<string>, offset: Option<real>): (c: Config)
    ensures minimumValue.None? ==> c.minimumValue == 0.0
    ensures maximumValue.None? ==> c.maximumValue == 1.0
    ensures position.None? ==> c.position == "top"
    ensures offset.None? ==> c.offset == 50.0
    ensures minimumValue.Some? ==> c.minimumValue == minimumValue.value
    ensures maximumValue.Some? ==> c.maximumValue == maximumValue.value
    ensures position.Some? ==> c.position == position.value
    ensures offset.Some? ==> c.offset == offset.value
  {
    Config(minimumValue.GetOr(DEFAULT_MINIMUM_VALUE), maximumValue.GetOr(DEFAULT_MAXIMUM_VALUE),
           position.GetOr(DEFAULT_POSITION), offset.GetOr(DEFAULT_OFFSET))
  }

  datatype HookState = HookState(
    isVisible: bool,
    isFocused: bool,
    rootWidth: real,
    rootHeight: real,
    wrapperHeight: real,
    effectVisible: bool,   // isVisible as the back-handler effect last ran
    effectFocused: bool,   // isFocused as the back-handler effect last ran
    subscribed: bool,      // the effect holds a hardware-back subscription
    addCalls: nat,         // subscriptions made so far
    removeCalls: nat)      // subscriptions removed so far

  /** The effect's bookkeeping is consistent: it holds a subscription exactly when it
      last ran visible and focused, and every subscription but the one it holds has
      been removed, exactly once. */
  ghost predicate Inv(s: HookState) {
    && s.subscribed == (s.effectVisible && s.effectFocused)
    && s.addCalls == s.removeCalls + (if s.subscribed then 1 else 0)
  }

  /** The effect has run for the current visibility and focus. */
  predicate Settled(s: HookState) {
    s.effectVisible == s.isVisible && s.effectFocused == s.isFocused
  }

  /** The state right after mounting, once the mount effect has run: hidden, nothing
      measured, no subscription made. */
  function Mount(isFocused: bool): (s: HookState)
    ensures !s.isVisible && s.isFocused == isFocused
    ensures s.rootWidth == 0.0 && s.rootHeight == 0.0 && s.wrapperHeight == 0.0
    ensures !s.subscribed && s.addCalls == 0 && s.removeCalls == 0
    ensures Inv(s) && Settled(s)
  {
    HookState(false, isFocused, 0.0, 0.0, 0.0, false, isFocused, false, 0, 0)
  }

  datatype Event =
    | Show                                 // showSlider
    | Hide                                 // hideSlider
    | PressOutside                         // tap on the dismiss layer
    | RootLayout(width: real, height: real) // layout callback of the overlay root
    | WrapperLayout(height: real)          // layout callback of the positioned wrapper
    | FocusChange(focused: bool)           // the screen gains or loses focus
    | BackPress                            // the platform dispatches a hardware back press
    | Reconcile                            // the post-render effect

  /** The back press is consumed exactly when the effect holds a subscription. */
  predicate BackPressConsumed(s: HookState) {
    s.subscribed
  }

  /** The effect, re-run when visibility or focus changed since it last ran: the old
      subscription (if any) is removed, then a new one is made iff visible and focused. */
  function RunEffect(s: HookState): (r: HookState)
    ensures Settled(r)
    ensures r.isVisible == s.isVisible && r.isFocused == s.isFocused
    ensures r.rootWidth == s.rootWidth && r.rootHeight == s.rootHeight && r.wrapperHeight == s.wrapperHeight
    ensures Inv(s) ==> Inv(r) && (r.subscribed <==> s.isVisible && s.isFocused)
    ensures Settled(s) ==> r == s
    ensures Inv(s) && !Settled(s) ==>
              r.removeCalls == s.removeCalls + (if s.subscribed then 1 else 0)
    ensures r.addCalls == s.addCalls + (if r.subscribed && !(Settled(s) && s.subscribed) then 1 else 0)
    ensures !(s.isVisible && s.isFocused) ==> r.addCalls == s.addCalls
  {
    if Settled(s) then s
    else
      var cleaned := if s.subscribed then s.(subscribed := false, removeCalls := s.removeCalls + 1) else s;
      var subscribe := s.isVisible && s.isFocused;
      cleaned.(effectVisible := s.isVisible, effectFocused := s.isFocused,
               subscribed := subscribe,
               addCalls := if subscribe then cleaned.addCalls + 1 else cleaned.addCalls)
  }

  /** One event. Only the effect touches the subscription, the call counts and the
      dependencies the effect last ran with; each setter changes only its own fields. */
  function Step(s: HookState, e: Event): (r: HookState)
    ensures !e.Reconcile? ==>
              && r.subscribed == s.subscribed && r.addCalls == s.addCalls && r.removeCalls == s.removeCalls
              && r.effectVisible == s.effectVisible && r.effectFocused == s.effectFocused
    ensures !e.FocusChange? ==> r.isFocused == s.isFocused
    ensures !e.RootLayout? ==> r.rootWidth == s.rootWidth && r.rootHeight == s.rootHeight
    ensures !e.WrapperLayout? ==> r.wrapperHeight == s.wrapperHeight
    ensures e.RootLayout? ==> r.rootWidth == e.width && r.rootHeight == e.height
    ensures e.WrapperLayout? ==> r.wrapperHeight == e.height
    ensures e.FocusChange? ==> r.isFocused == e.focused
  {
    match e
    case Show => s.(isVisible := true)
    case Hide => s.(isVisible := false)
    case PressOutside => s.(isVisible := false)
    case RootLayout(width, height) => s.(rootWidth := width, rootHeight := height)
    case WrapperLayout(height) => s.(wrapperHeight := height)
    case FocusChange(focused) => s.(isFocused := focused)
    case BackPress => if BackPressConsumed(s) then s.(isVisible := false) else s
    case Reconcile => RunEffect(s)
  }

  /** The state after a sequence of events. */
  function Run(s: HookState, es: seq<Event>): HookState
    decreases |es|
  {
    if es == [] then s else Run(Step(s, es[0]), es[1..])
  }

  /** What `renderSlider` yields: nothing while hidden, otherwise the overlay, of which
      the model keeps the positioned wrapper's props. */
  function Render(s: HookState, config: Config, statusBarHeight: real): (r: Option<WrapperProps>)
    ensures r.None? <==> !s.isVisible
    ensures r.Some? ==> r.value == WrapperPlacement(config.position, config.offset, s.rootWidth,
                                                    s.rootHeight, s.wrapperHeight, statusBarHeight)
  {
    if s.isVisible
    then Some(WrapperPlacement(config.position, config.offset, s.rootWidth, s.rootHeight,
                               s.wrapperHeight, statusBarHeight))
    else None
  }

  /** Show makes the slider render; hiding, the outside tap and a consumed back press
      make it render nothing; the other events leave visibility alone. */
  lemma StepVisibility(s: HookState, e: Event)
    ensures e == Show ==> Step(s, e).isVisible
    ensures e == Hide || e == PressOutside ==> !Step(s, e).isVisible
    ensures e == BackPress ==> Step(s, e).isVisible == (s.isVisible && !BackPressConsumed(s))
    ensures !e.Show? && !e.Hide? && !e.PressOutside? && !e.BackPress? ==> Step(s, e).isVisible == s.isVisible
  {
  }

  /** Every event keeps the effect's bookkeeping consistent. */
  lemma StepPreservesInv(s: HookState, e: Event)
    requires Inv(s)
    ensures Inv(Step(s, e))
  {
  }

  /** Delivering the same event twice in a row has the effect of delivering it once. */
  lemma StepIdempotent(s: HookState, e: Event)
    ensures Step(Step(s, e), e) == Step(s, e)
  {
  }

  lemma {:induction false} RunPreservesInv(s: HookState, es: seq<Event>)
    requires Inv(s)
    ensures Inv(Run(s, es))
    decreases |es|
  {
    if es != [] {
      StepPreservesInv(s, es[0]);
      RunPreservesInv(Step(s, es[0]), es[1..]);
    }
  }

  lemma {:induction false} RunAppend(s: HookState, es: seq<Event>, e: Event)
    ensures Run(s, es + [e]) == Step(Run(s, es), e)
    decreases |es|
  {
    if es != [] {
      assert (es + [e])[1..] == es[1..] + [e];
      RunAppend(Step(s, es[0]), es[1..], e);
    }
  }

  /** From mounting, whatever happens: at most one subscription is outstanding, none is
      removed twice, and after the effect has run there is a subscription exactly when
      the slider is visible and the screen focused. */
  lemma AtMostOneSubscription(isFocused: bool, es: seq<Event>)
    ensures var s := Run(Mount(isFocused), es);
            && s.removeCalls <= s.addCalls <= s.removeCalls + 1
            && (s.subscribed <==> s.addCalls == s.removeCalls + 1)
    ensures var s := Run(Mount(isFocused), es + [Reconcile]);
            s.subscribed <==> s.isVisible && s.isFocused
  {
    RunPreservesInv(Mount(isFocused), es);
    RunAppend(Mount(isFocused), es, Reconcile);
  }

  /** While the screen never gains focus, nothing is ever subscribed. */
  lemma {:induction false} UnfocusedNeverSubscribes(s: HookState, es: seq<Event>)
    requires !s.isFocused && !s.subscribed
    requires forall i :: 0 <= i < |es| ==> es[i] != FocusChange(true)
    ensures Run(s, es).addCalls == s.addCalls && !Run(s, es).subscribed
    decreases |es|
  {
    if es != [] {
      UnfocusedNeverSubscribes(Step(s, es[0]), es[1..]);
    }
  }

  /** While the slider is never shown, nothing is subscribed and nothing renders. */
  lemma {:induction false} HiddenNeverSubscribes(s: HookState, es: seq<Event>, config: Config, statusBarHeight: real)
    requires !s.isVisible && !s.subscribed
    requires forall i :: 0 <= i < |es| ==> es[i] != Show
    ensures Run(s, es).addCalls == s.addCalls && !Run(s, es).subscribed
    ensures Render(Run(s, es), config, statusBarHeight).None?
    decreases |es|
  {
    if es != [] {
      HiddenNeverSubscribes(Step(s, es[0]), es[1..], config, statusBarHeight);
    }
  }

  /** The two layout callbacks fix the placement: whatever was measured before, once
      both have reported, a visible slider renders the placement of those sizes. */
  lemma MeasureThenPosition(s: HookState, width: real, height: real, wrapperHeight: real,
                            config: Config, statusBarHeight: real)
    requires s.isVisible
    ensures Render(Run(s, [RootLayout(width, height), WrapperLayout(wrapperHeight)]), config, statusBarHeight)
         == Some(WrapperPlacement(config.position, config.offset, width, height, wrapperHeight, statusBarHeight))
  {
    var s1 := Step(s, RootLayout(width, height));
    var s2 := Step(s1, WrapperLayout(wrapperHeight));
    assert Run(s, [RootLayout(width, height), WrapperLayout(wrapperHeight)]) == Run(s1, [WrapperLayout(wrapperHeight)]);
    assert Run(s1, [WrapperLayout(wrapperHeight)]) == Run(s2, []);
  }

  /** Unmounting runs the effect's cleanup: the subscription it holds is removed and
      no effect is left (recorded as one that last ran hidden and unfocused). */
  function Unmount(s: HookState): (r: HookState)
    ensures !r.subscribed && r.addCalls == s.addCalls
    ensures r.removeCalls == s.removeCalls + (if s.subscribed then 1 else 0)
    ensures Inv(s) ==> Inv(r) && r.removeCalls == r.addCalls
  {
    var cleaned := if s.subscribed then s.(subscribed := false, removeCalls := s.removeCalls + 1) else s;
    cleaned.(effectVisible := false, effectFocused := false)
  }

  /** The back-handler and visibility oracles: shown and focused, the slider subscribes
      once and renders; a back press is consumed, hides it, and the next effect removes
      that subscription once. Unfocused, showing subscribes nothing. */
  lemma BackHandlerOracles(config: Config, statusBarHeight: real)
    ensures Mount(true).addCalls == 0 && Render(Mount(true), config, statusBarHeight).None?
    ensures var s1 := Run(Mount(true), [Show, Reconcile]);
            && s1.addCalls == 1 && s1.removeCalls == 0
            && Render(s1, config, statusBarHeight).Some? && BackPressConsumed(s1)
            && var s2 := Run(s1, [BackPress, Reconcile]);
               Render(s2, config, statusBarHeight).None? && s2.removeCalls == 1 && s2.addCalls == 1
    ensures Run(Mount(false), [Show, Reconcile]).addCalls == 0
    ensures Render(Run(Mount(true), [Show, Reconcile, PressOutside]), config, statusBarHeight).None?
  {
  }
}
