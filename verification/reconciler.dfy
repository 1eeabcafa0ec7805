/**
 Repositioning of a window that is already open: wrap the saved descriptor
 into a handle, then issue the reposition plan call by call, all inside one
 try block whose catch logs and swallows any failure.
 */
module Reconciler {
  import opened WindowModel
  import opened Effects
  import opened StateMachine

  /** The awaited steps of one reposition: wrapping the whole descriptor
      into a handle, then each planned call. */
  function PositionSteps(d: Descriptor): (steps: seq<Step>)
    ensures |steps| == |RepositionPlan(d)| + 1
    ensures steps[0] == Wrap(d)
    ensures forall i :: 1 <= i < |steps| ==> steps[i] == Call(RepositionPlan(d)[i - 1])
  {
    [Wrap(d)] + Calls(RepositionPlan(d))
  }

  /** Repositions one live window under the platform behaviour `fault`. */
  function PositionWindow(d: Descriptor, fault: Fault): (s: Settled<Step>)
    ensures s.outcome.Resolves()
    ensures s.issued <= PositionSteps(d)
    ensures s.outcome.Fulfilled? <==> !(fault.FailsAt? && fault.step < |PositionSteps(d)|)
    ensures s.outcome.Fulfilled? ==> s.issued == PositionSteps(d)
  {
    Catch(Settle(PositionSteps(d), fault))
  }

  /** The driver for one window: runs the steps sequentially and swallows a
      failure, so it always resolves. */
  method PositionWindowDriver(d: Descriptor, fault: Fault) returns (s: Settled<Step>)
    ensures s == PositionWindow(d, fault)
  {
    var run := Drive(PositionSteps(d), fault);
    s := Catch(run);
  }

  /** If any step fails, wrapping included, the steps that completed are
      exactly those before it, a strict prefix of the plan, and the error
      is swallowed. */
  lemma PositionFailureIsPrefix(d: Descriptor, fault: Fault)
    requires fault.FailsAt? && fault.step < |PositionSteps(d)|
    ensures PositionWindow(d, fault).outcome == Recovered(fault.step)
    ensures Completed(PositionWindow(d, fault)) == PositionSteps(d)[..fault.step]
    ensures Completed(PositionWindow(d, fault)) < PositionSteps(d)
    ensures fault.step == 0 ==> Completed(PositionWindow(d, fault)) == []
    ensures fault.step > 0 ==>
      Completed(PositionWindow(d, fault)) == [Wrap(d)] + Calls(RepositionPlan(d)[..fault.step - 1])
  {
  }

  /** A tabbed window's reposition issues exactly wrap, setBounds and show. */
  lemma TabbedPositionSteps(d: Descriptor)
    requires d.isTabbed
    ensures PositionSteps(d) == [Wrap(d), Call(SetBounds(d.bounds)), Call(Show)]
  {
  }
}
