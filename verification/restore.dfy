/**
 The workspace restore handler. It reads the live child windows once, then
 for every saved descriptor starts one pipeline: a launch when no live
 window carries the descriptor's name, a reposition otherwise. It waits for
 all pipelines together and answers with the saved workspace itself.
 */
module Restore {
  import opened WindowModel
  import opened Effects
  import opened Reconciler
  import opened Launcher

  /** Some live window's identity carries `name`. */
  function IsLive(live: seq<Identity>, name: string): (b: bool)
    ensures b <==> exists i :: 0 <= i < |live| && live[i].name == name
    decreases |live|
  {
    if |live| == 0 then false
    else live[0].name == name || IsLive(live[1..], name)
  }

  /** Descriptors with no live counterpart, in snapshot order. */
  function Missing(ds: seq<Descriptor>, live: seq<Identity>): (r: seq<Descriptor>)
    ensures |r| <= |ds|
    ensures forall d :: d in r <==> d in ds && !IsLive(live, d.name)
    decreases |ds|
  {
    if |ds| == 0 then []
    else (if IsLive(live, ds[0].name) then [] else [ds[0]]) + Missing(ds[1..], live)
  }

  /** Descriptors with a live counterpart, in snapshot order. */
  function Present(ds: seq<Descriptor>, live: seq<Identity>): (r: seq<Descriptor>)
    ensures |r| <= |ds|
    ensures forall d :: d in r <==> d in ds && IsLive(live, d.name)
    decreases |ds|
  {
    if |ds| == 0 then []
    else (if IsLive(live, ds[0].name) then [ds[0]] else []) + Present(ds[1..], live)
  }

  /** The split loses and duplicates nothing: together the two parts hold
      every descriptor exactly as often as the snapshot does. */
  lemma {:induction false} PartitionIsPermutation(ds: seq<Descriptor>, live: seq<Identity>)
    ensures multiset(Missing(ds, live)) + multiset(Present(ds, live)) == multiset(ds)
    ensures |Missing(ds, live)| + |Present(ds, live)| == |ds|
    decreases |ds|
  {
    if |ds| > 0 {
      PartitionIsPermutation(ds[1..], live);
      assert ds == [ds[0]] + ds[1..];
      assert multiset(ds) == multiset{ds[0]} + multiset(ds[1..]);
    }
  }

  /** The platform behaviour for the `i`-th pipeline; windows past the end
      of `faults` see no failure. */
  function FaultAt(faults: seq<Fault>, i: nat): Fault {
    if i < |faults| then faults[i] else NoFault
  }

  /** The pipeline for one descriptor: launch if missing, reposition if live. */
  function Pipeline(d: Descriptor, live: seq<Identity>, fault: Fault): Settled<Step> {
    if !IsLive(live, d.name) then Launch(d, fault) else PositionWindow(d, fault)
  }

  /** One pipeline per descriptor, in snapshot order. */
  function RunAll(ds: seq<Descriptor>, live: seq<Identity>, faults: seq<Fault>): (ps: seq<Settled<Step>>)
    ensures |ps| == |ds|
    ensures forall i :: 0 <= i < |ds| ==> ps[i] == Pipeline(ds[i], live, FaultAt(faults, i))
    decreases |ds|
  {
    if |ds| == 0 then []
    else
      [Pipeline(ds[0], live, FaultAt(faults, 0))]
      + RunAll(ds[1..], live, if |faults| == 0 then [] else faults[1..])
  }

  /** How the restore handler's promise settles: resolved with a
      workspace, rejected while reading the live windows, or rejected by a
      launch. */
  datatype RestoreOutcome = ResolvedWith(workspace: Workspace) | RejectedByRead | RejectedByLaunch

  /** The pipelines started, one per saved window, and the joined outcome. */
  datatype Restoration = Restoration(pipelines: seq<Settled<Step>>, outcome: RestoreOutcome)

  /** Reading the live windows is two awaited host calls: step 0 gets the
      current application, step 1 its child windows. Either may reject. */
  predicate ReadFails(read: Fault) {
    read.FailsAt? && read.step < 2
  }

  /** A launch pipeline rejects: the only way the join can reject. */
  predicate SomeLaunchRejects(ws: Workspace, live: seq<Identity>, faults: seq<Fault>) {
    exists i :: 0 <= i < |ws.childWindows|
      && !IsLive(live, ws.childWindows[i].name)
      && FaultAt(faults, i).FailsAt? && FaultAt(faults, i).step < 2
  }

  /** The fan-out once the live windows `live` have been read: one pipeline
      per saved window, joined. The join resolves, with `ws` itself, when
      every pipeline fulfils; a rejecting launch rejects the join, since
      that branch has no catch. */
  function FanOut(ws: Workspace, live: seq<Identity>, faults: seq<Fault>): (r: Restoration)
    ensures |r.pipelines| == |ws.childWindows|
    ensures !r.outcome.RejectedByRead?
    ensures r.outcome.ResolvedWith? ==> r.outcome.workspace == ws
    ensures r.outcome.RejectedByLaunch? <==> SomeLaunchRejects(ws, live, faults)
  {
    var ps := RunAll(ws.childWindows, live, faults);
    var anyRejects := exists i :: 0 <= i < |ps| && !ps[i].outcome.Resolves();
    Restoration(ps, if anyRejects then RejectedByLaunch else ResolvedWith(ws))
  }

  /** Restores the saved workspace `ws`. The host's read of the live
      windows behaves as `read` and, when it succeeds, answers `live`. A
      failing read rejects the restore before any pipeline starts. */
  function AppRestore(ws: Workspace, read: Fault, live: seq<Identity>, faults: seq<Fault>): (r: Restoration)
    ensures r.outcome.ResolvedWith? ==> r.outcome.workspace == ws
    ensures r.outcome.RejectedByRead? <==> ReadFails(read)
    ensures r.outcome.RejectedByLaunch? <==> !ReadFails(read) && SomeLaunchRejects(ws, live, faults)
    ensures ReadFails(read) ==> r.pipelines == []
    ensures !ReadFails(read) ==> r == FanOut(ws, live, faults)
  {
    if ReadFails(read) then Restoration([], RejectedByRead) else FanOut(ws, live, faults)
  }

  /** One descriptor's pipeline begins with an open when the window is
      missing and with a wrap when it is live, and contains no step of the
      other branch. */
  lemma PipelineBranch(d: Descriptor, live: seq<Identity>, fault: Fault)
    ensures var p := Pipeline(d, live, fault);
      && |p.issued| >= 1
      && (p.issued[0].Open? <==> !IsLive(live, d.name))
      && (p.issued[0] == Wrap(d) <==> IsLive(live, d.name))
      && (IsLive(live, d.name) ==> forall st :: st in p.issued ==> !st.Open? && !st.Dispatch?)
      && (!IsLive(live, d.name) ==> forall st :: st in p.issued ==> !st.Wrap? && !st.Call?)
  {
  }

  /** Once the live windows are read, every saved window takes exactly one
      branch, the one its side of the missing/present split names. */
  lemma ExactlyOneBranch(ws: Workspace, live: seq<Identity>, faults: seq<Fault>, i: nat)
    requires i < |ws.childWindows|
    ensures var d := ws.childWindows[i];
      var p := FanOut(ws, live, faults).pipelines[i];
      && |p.issued| >= 1
      && (p.issued[0].Open? <==> d in Missing(ws.childWindows, live))
      && (p.issued[0] == Wrap(d) <==> d in Present(ws.childWindows, live))
      && p == Pipeline(d, live, FaultAt(faults, i))
  {
  }

  /** Number of pipelines that began by opening a window. */
  function CountLaunches(ps: seq<Settled<Step>>): nat
    decreases |ps|
  {
    if |ps| == 0 then 0
    else (if |ps[0].issued| > 0 && ps[0].issued[0].Open? then 1 else 0) + CountLaunches(ps[1..])
  }

  /** Exactly one launch per missing descriptor, whatever the faults. */
  lemma {:induction false} LaunchesMatchMissing(ds: seq<Descriptor>, live: seq<Identity>, faults: seq<Fault>)
    ensures CountLaunches(RunAll(ds, live, faults)) == |Missing(ds, live)|
    decreases |ds|
  {
    if |ds| > 0 {
      var rest := if |faults| == 0 then [] else faults[1..];
      LaunchesMatchMissing(ds[1..], live, rest);
      var ps := RunAll(ds, live, faults);
      assert ps[1..] == RunAll(ds[1..], live, rest);
    }
  }

  /** When every saved window is already live only repositions run, and
      those swallow their failures: once the read succeeds, the restore
      resolves with the saved workspace whatever the windows do. */
  lemma AllLiveAlwaysResolves(ws: Workspace, read: Fault, live: seq<Identity>, faults: seq<Fault>)
    requires forall d :: d in ws.childWindows ==> IsLive(live, d.name)
    ensures AppRestore(ws, read, live, faults).outcome ==
      if ReadFails(read) then RejectedByRead else ResolvedWith(ws)
  {
  }

  /** Without failures every pipeline issues all its steps and the restore
      resolves with the saved workspace. */
  lemma FaultFreeRestore(ws: Workspace, live: seq<Identity>)
    ensures AppRestore(ws, NoFault, live, []).outcome == ResolvedWith(ws)
    ensures forall i :: 0 <= i < |ws.childWindows| ==>
      AppRestore(ws, NoFault, live, []).pipelines[i].issued ==
        if IsLive(live, ws.childWindows[i].name) then PositionSteps(ws.childWindows[i])
        else LaunchSteps(ws.childWindows[i])
  {
  }

  /** A tabbed window "A" already live and a window "B" not live: "B" is
      launched, "A" is wrapped, moved and shown, and the restore resolves
      with the workspace. */
  lemma TwoWindowScenario(a: Descriptor, b: Descriptor, app: string)
    requires a.name == "A" && a.isTabbed && b.name == "B"
    ensures var ws := Workspace(app, [a, b]);
      var live := [Identity("uuid", "A")];
      var r := AppRestore(ws, NoFault, live, []);
      && r.outcome == ResolvedWith(ws)
      && r.pipelines[0].issued == [Wrap(a), Call(SetBounds(a.bounds)), Call(Show)]
      && r.pipelines[1].issued == LaunchSteps(b)
      && CountLaunches(r.pipelines) == 1
  {
    var ws := Workspace(app, [a, b]);
    var live := [Identity("uuid", "A")];
    assert IsLive(live, "A");
    assert !IsLive(live, "B");
    TabbedPositionSteps(a);
    FaultFreeRestore(ws, live);
    LaunchesMatchMissing(ws.childWindows, live, []);
    assert Missing([b], live) == [b];
    assert Missing(ws.childWindows, live) == [b];
  }
}
