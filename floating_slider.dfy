/** The hook as an object: its state setters, layout callbacks and back-handler
    effect change fields in place. Each event method is proved to move the object's
    state exactly as `Visibility.Step` says; the constructor lands on
    `Visibility.Mount`, `Unmount` moves as `Visibility.Unmount`, and `RenderSlider`
    is `Visibility.Render` of the object's state. */
module FloatingSliderHook {
  import opened Wrappers
  import opened Placement
  import opened Visibility

  /** The event name the effect subscribes to. */
  const HARDWARE_BACK_PRESS: string := "hardwareBackPress"

  /** The platform's hardware-back registry, reduced to a register/remove pair: the live
      subscriptions by handle with their event name, and how often each call was made. */
  class BackHandler {
    var listeners: map<nat, string>
    var nextHandle: nat
    var addCalls: nat
    var removeCalls: nat

    ghost predicate Valid()
      reads this
    {
      forall h :: h in listeners ==> h < nextHandle
    }

    constructor ()
      ensures Valid()
      ensures listeners == map[] && addCalls == 0 && removeCalls == 0
    {
      listeners, nextHandle, addCalls, removeCalls := map[], 0, 0, 0;
    }

    /** Subscribes to `eventName` and returns a handle no live subscription has. */
    method AddEventListener(eventName: string) returns (handle: nat)
      requires Valid()
      modifies this
      ensures Valid()
      ensures handle !in old(listeners)
      ensures listeners == old(listeners)[handle := eventName]
      ensures addCalls == old(addCalls) + 1 && removeCalls == old(removeCalls)
    {
      handle := nextHandle;
      listeners := listeners[handle := eventName];
      nextHandle := nextHandle + 1;
      addCalls := addCalls + 1;
    }

    /** The subscription's `remove()`. */
    method Remove(handle: nat)
      requires Valid()
      modifies this
      ensures Valid()
      ensures listeners == old(listeners) - {handle}
      ensures removeCalls == old(removeCalls) + 1 && addCalls == old(addCalls)
    {
      listeners := listeners - {handle};
      removeCalls := removeCalls + 1;
    }
  }

  /** The live subscriptions the registry holds when the hook holds `handler`. */
  function Subscriptions(handler: Option<nat>): (m: map<nat, string>)
    ensures |m| <= 1
    ensures handler.None? <==> m == map[]
    ensures handler.Some? ==> handler.value in m && m[handler.value] == HARDWARE_BACK_PRESS
  {
    if handler.Some? then map[handler.value := HARDWARE_BACK_PRESS] else map[]
  }

  class FloatingSlider {
    var isVisible: bool
    var isFocused: bool
    var rootWidth: real
    var rootHeight: real
    var wrapperHeight: real
    var effectVisible: bool
    var effectFocused: bool
    /** The subscription the current effect made, if any. */
    var handler: Option<nat>
    const backHandler: BackHandler
    /** The platform's status bar height. */
    const statusBarHeight: real
    /** The registry's call counts when this hook was mounted. */
    const baseAddCalls: nat
    const baseRemoveCalls: nat

    /** The hook's state as a value; the call counts are those made on the registry
        since this hook was mounted. */
    function State(): HookState
      reads this, backHandler
      requires baseAddCalls <= backHandler.addCalls && baseRemoveCalls <= backHandler.removeCalls
    {
      HookState(isVisible, isFocused, rootWidth, rootHeight, wrapperHeight,
                effectVisible, effectFocused, handler.Some?,
                backHandler.addCalls - baseAddCalls, backHandler.removeCalls - baseRemoveCalls)
    }

    /** The registry holds this hook's subscription and nothing else. */
    ghost predicate Valid()
      reads this, backHandler
    {
      && backHandler.Valid()
      && backHandler.listeners == Subscriptions(handler)
      && baseAddCalls <= backHandler.addCalls && baseRemoveCalls <= backHandler.removeCalls
      && Inv(State())
    }

    /** Mounting, with the mount effect run: hidden, so nothing is subscribed. The
        registry may have served earlier hooks, as long as none of their listeners is left. */
    constructor (backHandler: BackHandler, isFocused: bool, statusBarHeight: real)
      requires backHandler.Valid()
      requires backHandler.listeners == map[]
      ensures Valid()
      ensures this.backHandler == backHandler && this.statusBarHeight == statusBarHeight
      ensures baseAddCalls == backHandler.addCalls && baseRemoveCalls == backHandler.removeCalls
      ensures State() == Mount(isFocused)
    {
      this.baseAddCalls := backHandler.addCalls;
      this.baseRemoveCalls := backHandler.removeCalls;
      this.isVisible := false;
      this.isFocused := isFocused;
      this.rootWidth, this.rootHeight, this.wrapperHeight := 0.0, 0.0, 0.0;
      this.effectVisible, this.effectFocused := false, isFocused;
      this.handler := None;
      this.backHandler := backHandler;
      this.statusBarHeight := statusBarHeight;
    }

    method ShowSlider()
      requires Valid()
      modifies this
      ensures Valid() && State() == Step(old(State()), Show)
    {
      isVisible := true;
    }

    method HideSlider()
      requires Valid()
      modifies this
      ensures Valid() && State() == Step(old(State()), Hide)
    {
      isVisible := false;
    }

    /** A tap on the dismiss layer around the wrapper. */
    method PressOutside()
      requires Valid()
      modifies this
      ensures Valid() && State() == Step(old(State()), Event.PressOutside)
    {
      HideSlider();
    }

    method HandleRootLayout(width: real, height: real)
      requires Valid()
      modifies this
      ensures Valid() && State() == Step(old(State()), RootLayout(width, height))
    {
      rootWidth := width;
      rootHeight := height;
    }

    method HandleWrapperLayout(height: real)
      requires Valid()
      modifies this
      ensures Valid() && State() == Step(old(State()), WrapperLayout(height))
    {
      wrapperHeight := height;
    }

    /** The navigation focus the hook reads changes. */
    method SetFocused(focused: bool)
      requires Valid()
      modifies this
      ensures Valid() && State() == Step(old(State()), FocusChange(focused))
    {
      isFocused := focused;
    }

    /** The platform dispatches a hardware back press: the subscribed listener, if any,
      hides the slider and reports the press as handled. */
    method HardwareBackPress() returns (handled: bool)
      requires Valid()
      modifies this
      ensures Valid() && State() == Step(old(State()), BackPress)
      ensures handled == old(handler).Some?
    {
      if handler.Some? {
        HideSlider();
        handled := true;
      } else {
        handled := false;
      }
    }

    /** The back-handler effect after a render: it re-runs only when visibility or focus
      changed since it last ran; its cleanup removes the old subscription and it then
      subscribes only when visible and focused. */
    method Reconcile()
      requires Valid()
      modifies this, backHandler
      ensures Valid() && State() == Step(old(State()), Event.Reconcile)
      ensures handler.Some? <==> isVisible && isFocused
    {
      if effectVisible == isVisible && effectFocused == isFocused {
        return;
      }
      if handler.Some? {
        backHandler.Remove(handler.value);
        handler := None;
      }
      if isVisible && isFocused {
        var h := backHandler.AddEventListener(HARDWARE_BACK_PRESS);
        handler := Some(h);
      }
      effectVisible, effectFocused := isVisible, isFocused;
    }

    /** Unmounting runs the last effect's cleanup. */
    method Unmount()
      requires Valid()
      modifies this, backHandler
      ensures Valid() && State() == Visibility.Unmount(old(State()))
      ensures backHandler.listeners == map[]
    {
      if handler.Some? {
        backHandler.Remove(handler.value);
        handler := None;
      }
      effectVisible, effectFocused := false, false;
    }

    /** `renderSlider`: nothing while hidden, the placed wrapper while visible. */
    function RenderSlider(config: Config): (r: Option<WrapperProps>)
      reads this, backHandler
      requires Valid()
      ensures r.None? <==> !isVisible
      ensures r.Some? ==> r.value == WrapperPlacement(config.position, config.offset, rootWidth,
                                                      rootHeight, wrapperHeight, statusBarHeight)
    {
      Render(State(), config, statusBarHeight)
    }
  }

  /** The back-handler scenario played against the objects, on a focused screen: before
      showing nothing is subscribed; show subscribes once and renders; the back press is
      handled, and after the next effect nothing renders and that subscription was removed
      once, leaving no listener. */
  method BackPressScenario(config: Config, statusBarHeight: real)
    returns (addsBeforeShow: nat, addsAfterShow: nat, removesAfterShow: nat, renderedAfterShow: bool,
             handled: bool, renderedAfterBack: bool, removesAfterBack: nat, listenersLeft: nat)
    ensures addsBeforeShow == 0 && addsAfterShow == 1 && removesAfterShow == 0 && renderedAfterShow
    ensures handled && !renderedAfterBack && removesAfterBack == 1 && listenersLeft == 0
  {
    var registry := new BackHandler();
    var slider := new FloatingSlider(registry, true, statusBarHeight);
    addsBeforeShow := registry.addCalls;
    slider.ShowSlider();
    slider.Reconcile();
    addsAfterShow, removesAfterShow := registry.addCalls, registry.removeCalls;
    renderedAfterShow := slider.RenderSlider(config).Some?;
    handled := slider.HardwareBackPress();
    slider.Reconcile();
    renderedAfterBack := slider.RenderSlider(config).Some?;
    removesAfterBack, listenersLeft := registry.removeCalls, |registry.listeners|;
  }
}
