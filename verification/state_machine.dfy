/**
 The two pure decisions of the adapter: the ordered platform calls that
 bring an existing window in line with its saved descriptor, and what the
 window-chrome maximize button does given the window's live state.
 */
module StateMachine {
  import opened WindowModel
  import opened Effects

  /** The calls issued after `leaveGroup` for a window that is not tabbed.
      Hiding takes precedence over the saved state; a showing window with an
      unrecognised state gets no further call. */
  function AfterUngroup(isShowing: bool, s: WinState): seq<Action> {
    if !isShowing then [Hide]
    else
      match s
      case Normal => [Restore, Show]
      case Minimized => [Minimize]
      case Maximized => [Maximize]
      case Other(_) => []
  }

  /** The ordered calls that reposition a live window to match `d`. */
  function RepositionPlan(d: Descriptor): (plan: seq<Action>)
    ensures 2 <= |plan| <= 4
    ensures plan[0] == SetBounds(d.bounds)
    ensures plan[1] == if d.isTabbed then Show else LeaveGroup
  {
    [SetBounds(d.bounds)]
    + if d.isTabbed then [Show]
      else [LeaveGroup] + AfterUngroup(d.isShowing, StateOf(d.state))
  }

  /** A tabbed window is only moved and shown: its group governs the rest. */
  lemma TabbedPlan(d: Descriptor)
    requires d.isTabbed
    ensures RepositionPlan(d) == [SetBounds(d.bounds), Show]
    ensures forall a :: a in RepositionPlan(d) ==> a.SetBounds? || a == Show
  {
  }

  /** A window that is neither tabbed nor showing is moved, ungrouped and
      hidden whatever its saved state, and its state is never touched. */
  lemma HiddenPlan(d: Descriptor)
    requires !d.isTabbed && !d.isShowing
    ensures RepositionPlan(d) == [SetBounds(d.bounds), LeaveGroup, Hide]
    ensures Restore !in RepositionPlan(d)
    ensures Minimize !in RepositionPlan(d) && Maximize !in RepositionPlan(d)
  {
  }

  /** A showing, untabbed window gets the call sequence its saved state names. */
  lemma ShowingPlan(d: Descriptor)
    requires !d.isTabbed && d.isShowing
    ensures RepositionPlan(d)[..2] == [SetBounds(d.bounds), LeaveGroup]
    ensures d.state == "normal" ==> RepositionPlan(d)[2..] == [Restore, Show]
    ensures d.state == "minimized" ==> RepositionPlan(d)[2..] == [Minimize]
    ensures d.state == "maximized" ==> RepositionPlan(d)[2..] == [Maximize]
    ensures !Recognised(d.state) ==> RepositionPlan(d) == [SetBounds(d.bounds), LeaveGroup]
  {
  }

  /** Which calls occur in a plan, in both directions: each call names
      exactly the class of descriptors that produce it. */
  lemma PlanMembership(d: Descriptor)
    ensures SetBounds(d.bounds) in RepositionPlan(d)
    ensures LeaveGroup in RepositionPlan(d) <==> !d.isTabbed
    ensures Show in RepositionPlan(d) <==> d.isTabbed || (d.isShowing && d.state == "normal")
    ensures Hide in RepositionPlan(d) <==> !d.isTabbed && !d.isShowing
    ensures Restore in RepositionPlan(d) <==> !d.isTabbed && d.isShowing && d.state == "normal"
    ensures Minimize in RepositionPlan(d) <==> !d.isTabbed && d.isShowing && d.state == "minimized"
    ensures Maximize in RepositionPlan(d) <==> !d.isTabbed && d.isShowing && d.state == "maximized"
    ensures BringToFront !in RepositionPlan(d)
  {
  }

  /** The window a reconciliation is meant to leave behind, stated directly
      from the descriptor and the window's prior view. */
  function Reconciled(w: WindowView, d: Descriptor): WindowView {
    if d.isTabbed then w.(bounds := d.bounds, visible := true)
    else
      var ungrouped := w.(bounds := d.bounds, grouped := false);
      if !d.isShowing then ungrouped.(visible := false)
      else
        match StateOf(d.state)
        case Normal => ungrouped.(state := Normal, visible := true)
        case Minimized => ungrouped.(state := Minimized)
        case Maximized => ungrouped.(state := Maximized)
        case Other(_) => ungrouped
  }

  /** Executing the whole plan produces exactly the reconciled window. */
  lemma PlanReachesReconciled(w: WindowView, d: Descriptor)
    ensures ApplyAll(w, RepositionPlan(d)) == Reconciled(w, d)
  {
    var plan := RepositionPlan(d);
    var w1 := Apply(w, plan[0]);
    assert plan == [plan[0]] + plan[1..];
    ApplyAllAppend(w, [plan[0]], plan[1..]);
    if d.isTabbed {
      assert plan[1..] == [Show];
    } else {
      var rest := AfterUngroup(d.isShowing, StateOf(d.state));
      assert plan[1..] == [LeaveGroup] + rest;
      ApplyAllAppend(w1, [LeaveGroup], rest);
      var w2 := Apply(w1, LeaveGroup);
      if !d.isShowing {
        assert rest == [Hide];
      } else {
        match StateOf(d.state)
        case Normal =>
          assert rest == [Restore] + [Show];
          ApplyAllAppend(w2, [Restore], [Show]);
        case Minimized =>
        case Maximized =>
        case Other(_) =>
      }
    }
  }

  /** What the plan achieves: the window carries the saved bounds; a tabbed
      window is shown and keeps its group and state; any other window leaves
      its group, is hidden when not showing, and takes the saved state when
      showing with a recognised state. */
  lemma ReconcileConforms(w: WindowView, d: Descriptor)
    ensures ApplyAll(w, RepositionPlan(d)).bounds == d.bounds
    ensures d.isTabbed ==> ApplyAll(w, RepositionPlan(d)) == w.(bounds := d.bounds, visible := true)
    ensures !d.isTabbed ==> !ApplyAll(w, RepositionPlan(d)).grouped
    ensures !d.isTabbed && !d.isShowing ==>
      ApplyAll(w, RepositionPlan(d)).visible == false && ApplyAll(w, RepositionPlan(d)).state == w.state
    ensures !d.isTabbed && d.isShowing && Recognised(d.state) ==>
      ApplyAll(w, RepositionPlan(d)).state == StateOf(d.state)
    ensures !d.isTabbed && d.isShowing && d.state == "normal" ==> ApplyAll(w, RepositionPlan(d)).visible
  {
    PlanReachesReconciled(w, d);
  }

  /** A window that already matches `d`, stated from the descriptor's
      fields alone: the saved bounds; shown when tabbed; otherwise out of any
      group, hidden when not showing, in the saved state when showing with a
      recognised state, and shown when showing normal. */
  predicate Conforms(w: WindowView, d: Descriptor) {
    && w.bounds == d.bounds
    && (d.isTabbed ==> w.visible)
    && (!d.isTabbed ==>
          && !w.grouped
          && (!d.isShowing ==> !w.visible)
          && (d.isShowing && Recognised(d.state) ==> w.state == StateOf(d.state))
          && (d.isShowing && d.state == "normal" ==> w.visible))
  }

  /** Reconciliation changes a window exactly when it does not already
      match its descriptor: an already-correct window sees no change, and
      every plan run leaves a window that matches. */
  lemma ReconcileFixedPoint(w: WindowView, d: Descriptor)
    ensures ApplyAll(w, RepositionPlan(d)) == w <==> Conforms(w, d)
    ensures Conforms(ApplyAll(w, RepositionPlan(d)), d)
  {
    PlanReachesReconciled(w, d);
  }

  /** What the maximize button does, given the live state string. */
  function ToggleMaximize(live: string): (acts: seq<Action>)
    ensures acts == [Maximize] || acts == [Restore, BringToFront]
  {
    match StateOf(live)
    case Maximized => [Restore, BringToFront]
    case Minimized => [Restore, BringToFront]
    case Normal => [Maximize]
    case Other(_) => [Maximize]
  }

  /** The toggle depends only on the live state: a maximized or minimized
      window is restored then brought to front; a normal window, or one in
      an unrecognised state, is maximized. */
  lemma ToggleDecision(live: string)
    ensures ToggleMaximize(live) == [Restore, BringToFront] <==> live == "maximized" || live == "minimized"
    ensures ToggleMaximize(live) == [Maximize] <==> live != "maximized" && live != "minimized"
  {
  }

  /** The live-state query is one host call with a success callback only:
      when it fails, the callback never runs. */
  predicate QueryFails(query: Fault) {
    query.FailsAt? && query.step == 0
  }

  /** The calls one press issues. The host answers the state query as
      `query` and, when it succeeds, with the state string `live`; the
      toggle's calls then behave as `fault`. The code registers no error
      callback for the query or for `restore`: a failing query makes no call
      at all, and a failing `restore` silently skips `bringToFront`, which
      runs only in `restore`'s success callback. */
  function PressMaximize(query: Fault, live: string, fault: Fault): (issued: seq<Action>)
    ensures QueryFails(query) ==> issued == []
    ensures !QueryFails(query) ==> issued <= ToggleMaximize(live) && |issued| >= 1
    ensures BringToFront in issued <==>
      && !QueryFails(query)
      && (live == "maximized" || live == "minimized")
      && !(fault.FailsAt? && fault.step == 0)
  {
    if QueryFails(query) then []
    else
      var acts := ToggleMaximize(live);
      var s := Settle(acts, fault);
      assert s.issued ==
        if acts == [Maximize] then acts
        else if fault.FailsAt? && fault.step == 0 then [Restore]
        else acts;
      s.issued
  }

  /** The effect of one press: a maximized or minimized window ends normal,
      any other ends maximized; nothing but the state changes. */
  lemma ToggleEffect(w: WindowView)
    requires WellFormedState(w.state)
    ensures var after := ApplyAll(w, ToggleMaximize(StateName(w.state)));
      && after == w.(state := after.state)
      && after.state == if w.state == Maximized || w.state == Minimized then Normal else Maximized
  {
    var acts := ToggleMaximize(StateName(w.state));
    if acts == [Restore, BringToFront] {
      assert acts == [Restore] + [BringToFront];
      ApplyAllAppend(w, [Restore], [BringToFront]);
    }
  }

  /** Two presses from a normal or maximized window return it to its state. */
  lemma ToggleTwice(w: WindowView)
    requires w.state == Normal || w.state == Maximized
    ensures ApplyAll(ApplyAll(w, ToggleMaximize(StateName(w.state))),
                     ToggleMaximize(StateName(ApplyAll(w, ToggleMaximize(StateName(w.state))).state))) == w
  {
    var once := ApplyAll(w, ToggleMaximize(StateName(w.state)));
    ToggleEffect(w);
    ToggleEffect(once);
  }
}
