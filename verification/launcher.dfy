/**
 Launch of a saved window that is not open: derive the open configuration
 and the initial placement from the descriptor, await the opener (whose
 on-open callback shows the window's container), then hide the container's
 embedded placeholder. Nothing catches a failure here.
 */
module Launcher {
  import opened WindowModel
  import opened Effects

  /** Name, url and size of the window to open. */
  function LaunchConfig(d: Descriptor): WindowConfig {
    WindowConfig(d.name, d.url, d.bounds.width, d.bounds.height)
  }

  /** Initial position handed to the opener. */
  function LaunchPlacement(d: Descriptor): PositionOverride {
    PositionOverride(d.bounds.left, d.bounds.top)
  }

  /** The rectangle a configuration and placement describe together. */
  function PlacedBounds(c: WindowConfig, p: PositionOverride): Bounds {
    Bounds(p.defaultLeft, p.defaultTop, c.width, c.height)
  }

  /** The launched window is opened with the descriptor's name and url and
      exactly the saved rectangle: the size from the configuration, the
      position from the initial placement handed to the opener. */
  lemma LaunchPlacementRoundTrip(d: Descriptor)
    ensures LaunchConfig(d).name == d.name && LaunchConfig(d).url == d.url
    ensures PlacedBounds(LaunchConfig(d), LaunchPlacement(d)) == d.bounds
  {
  }

  /** The awaited steps of a launch: open (registering the show callback),
      then the hide dispatch for the embedded placeholder. */
  function LaunchSteps(d: Descriptor): (steps: seq<Step>)
    ensures |steps| == 2
    ensures steps[0].Open? && steps[0].onOpen == Visibility(d.name, true)
    ensures steps[1] == Dispatch(Visibility(d.name, false))
  {
    [Open(LaunchConfig(d), LaunchPlacement(d), Visibility(d.name, true)),
     Dispatch(Visibility(d.name, false))]
  }

  /** Launches one missing window under the platform behaviour `fault`. */
  function Launch(d: Descriptor, fault: Fault): (s: Settled<Step>)
    ensures s.issued <= LaunchSteps(d)
    ensures !s.outcome.Resolves() <==> fault.FailsAt? && fault.step < 2
  {
    Settle(LaunchSteps(d), fault)
  }

  /** Ordering of the two visibility updates. The show update is never
      dispatched by the launch itself: it is only registered as the
      opener's on-open callback. The hide update is issued only after the
      open step, and only once that step has fulfilled. */
  lemma LaunchDispatchOrder(d: Descriptor, fault: Fault)
    ensures var s := Launch(d, fault);
      && |s.issued| >= 1
      && s.issued[0] == Open(LaunchConfig(d), LaunchPlacement(d), Visibility(d.name, true))
      && (forall st :: st in s.issued && st.Dispatch? ==> !st.update.display)
      && (Dispatch(Visibility(d.name, false)) in s.issued <==> !(fault.FailsAt? && fault.step == 0))
  {
  }

  /** A rejecting open rejects the launch and leaves the placeholder
      visible: no hide update is issued. */
  lemma OpenFailureRejectsLaunch(d: Descriptor)
    ensures Launch(d, FailsAt(0)).outcome == Rejected(0)
    ensures Launch(d, FailsAt(0)).issued == [LaunchSteps(d)[0]]
  {
  }
}
