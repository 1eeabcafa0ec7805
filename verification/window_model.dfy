/**
 The data the restore engine reads and the vocabulary of effects it issues:
 window descriptors of a saved workspace, live window identities, platform
 window calls, launch configurations and layout-store visibility updates.

 It also gives the window calls an abstract meaning (`WindowView`, `Apply`),
 so that what a reconciliation achieves can be stated independently of the
 order in which it issues its calls.
 */
module WindowModel {

  /** Screen rectangle of a window, as stored in a snapshot. */
  datatype Bounds = Bounds(left: int, top: int, width: int, height: int)

  /** Window state as the host reports it. Any string other than the three
      the code compares against is kept verbatim in `Other`. */
  datatype WinState = Normal | Minimized | Maximized | Other(raw: string)

  /** The state strings the adapter recognises. */
  predicate Recognised(raw: string) {
    raw == "normal" || raw == "minimized" || raw == "maximized"
  }

  /** A state value that could have come from parsing a string. */
  predicate WellFormedState(s: WinState) {
    s.Other? ==> !Recognised(s.raw)
  }

  /** The string the host uses for a state. */
  function StateName(s: WinState): string {
    match s
    case Normal => "normal"
    case Minimized => "minimized"
    case Maximized => "maximized"
    case Other(raw) => raw
  }

  /** Reads a state string by comparing against the three literals, in the
      order the adapter compares them. */
  function StateOf(raw: string): (s: WinState)
    ensures WellFormedState(s)
    ensures StateName(s) == raw
    ensures s.Other? <==> !Recognised(raw)
  {
    if raw == "normal" then Normal
    else if raw == "minimized" then Minimized
    else if raw == "maximized" then Maximized
    else Other(raw)
  }

  /** Naming a well-formed state and reading the name back gives the state. */
  lemma StateNameRoundTrip(s: WinState)
    requires WellFormedState(s)
    ensures StateOf(StateName(s)) == s
  {
  }

  /** One entry of a saved workspace. `state` is the raw string from the
      snapshot; `name` is the join key with the live windows. */
  datatype Descriptor = Descriptor(
    name: string,
    url: string,
    bounds: Bounds,
    state: string,
    isShowing: bool,
    isTabbed: bool)

  /** A saved workspace: an opaque application identity and the child
      windows, in snapshot order. */
  datatype Workspace = Workspace(app: string, childWindows: seq<Descriptor>)

  /** Identity of a child window that is currently open. */
  datatype Identity = Identity(uuid: string, name: string)

  /** Calls issued on a live window handle. */
  datatype Action =
    | SetBounds(b: Bounds)
    | Show
    | Hide
    | LeaveGroup
    | Restore
    | Minimize
    | Maximize
    | BringToFront

  /** Configuration handed to the window opener for a missing window. */
  datatype WindowConfig = WindowConfig(name: string, url: string, width: int, height: int)

  /** Initial placement handed to the window opener. */
  datatype PositionOverride = PositionOverride(defaultLeft: int, defaultTop: int)

  /** A layout-store update marking a container shown or hidden. */
  datatype Visibility = Visibility(name: string, display: bool)

  /** One awaited step of a per-window pipeline. `Wrap` obtains a handle
      from the whole saved descriptor, which serves as the window's
      identity. `Open` carries the visibility update its on-open callback
      dispatches; the callback is registered with the opener, not issued by
      the pipeline itself. */
  datatype Step =
    | Wrap(window: Descriptor)
    | Call(action: Action)
    | Open(config: WindowConfig, placement: PositionOverride, onOpen: Visibility)
    | Dispatch(update: Visibility)

  /** The window calls as pipeline steps, in order. */
  function Calls(acts: seq<Action>): (steps: seq<Step>)
    ensures |steps| == |acts|
    ensures forall i :: 0 <= i < |acts| ==> steps[i] == Call(acts[i])
  {
    seq(|acts|, i requires 0 <= i < |acts| => Call(acts[i]))
  }

  /** What the platform calls are taken to change about a window: its
      bounds, whether it belongs to a window group, whether it is shown,
      and its lifecycle state. */
  datatype WindowView = WindowView(bounds: Bounds, grouped: bool, visible: bool, state: WinState)

  function Apply(v: WindowView, a: Action): WindowView {
    match a
    case SetBounds(b) => v.(bounds := b)
    case Show => v.(visible := true)
    case Hide => v.(visible := false)
    case LeaveGroup => v.(grouped := false)
    case Restore => v.(state := Normal)
    case Minimize => v.(state := Minimized)
    case Maximize => v.(state := Maximized)
    case BringToFront => v
  }

  /** The view after the calls complete one after another. */
  function ApplyAll(v: WindowView, acts: seq<Action>): WindowView
    decreases |acts|
  {
    if |acts| == 0 then v else ApplyAll(Apply(v, acts[0]), acts[1..])
  }

  /** Running two call sequences one after the other is running their
      concatenation. */
  lemma {:induction false} ApplyAllAppend(v: WindowView, xs: seq<Action>, ys: seq<Action>)
    ensures ApplyAll(v, xs + ys) == ApplyAll(ApplyAll(v, xs), ys)
    decreases |xs|
  {
    if |xs| == 0 {
      assert xs + ys == ys;
    } else {
      assert (xs + ys)[0] == xs[0];
      assert (xs + ys)[1..] == xs[1..] + ys;
      ApplyAllAppend(Apply(v, xs[0]), xs[1..], ys);
    }
  }
}
