/**
 A per-window pipeline is a list of steps, each awaited before the next one
 is issued. The platform's behaviour is a `Fault`: either every step
 fulfils, or the step at one index rejects. A rejecting step has been
 issued; the steps after it never are.
 */
module Effects {

  /** Which awaited step, if any, rejects. */
  datatype Fault = NoFault | FailsAt(step: nat)

  /** How a pipeline settled: every step fulfilled; the step at `at`
      rejected and the rejection propagated; or the step at `at` rejected
      and an enclosing catch swallowed it, so the pipeline still fulfilled. */
  datatype Outcome = Fulfilled | Rejected(at: nat) | Recovered(at: nat) {
    /** The pipeline's promise resolves rather than rejects. */
    predicate Resolves() {
      !Rejected?
    }
  }

  /** The steps issued, in order, and how the pipeline settled. */
  datatype Settled<T> = Settled(issued: seq<T>, outcome: Outcome)

  /** Runs `steps` sequentially, stopping at the first rejection. */
  function Settle<T>(steps: seq<T>, fault: Fault): (s: Settled<T>)
    ensures s.issued <= steps
    ensures s.outcome.Rejected? <==> fault.FailsAt? && fault.step < |steps|
    ensures !s.outcome.Recovered?
    ensures s.outcome.Fulfilled? ==> s.issued == steps
    ensures s.outcome.Rejected? ==> s.outcome.at == fault.step && |s.issued| == fault.step + 1
  {
    match fault
    case NoFault => Settled(steps, Fulfilled)
    case FailsAt(k) =>
      if k < |steps| then Settled(steps[..k + 1], Rejected(k)) else Settled(steps, Fulfilled)
  }

  /** A `try { ... } catch { log }` around a pipeline: a rejection is
      swallowed and the pipeline resolves. */
  function Catch<T>(s: Settled<T>): (c: Settled<T>)
    ensures c.issued == s.issued
    ensures c.outcome.Resolves()
    ensures c.outcome.Fulfilled? <==> s.outcome.Fulfilled?
    ensures s.outcome.Rejected? ==> c.outcome == Recovered(s.outcome.at)
  {
    match s.outcome
    case Rejected(k) => Settled(s.issued, Recovered(k))
    case _ => s
  }

  /** The steps that completed successfully: all issued steps except a
      rejected last one. */
  function Completed<T>(s: Settled<T>): seq<T> {
    if s.outcome.Fulfilled? || |s.issued| == 0 then s.issued
    else s.issued[..|s.issued| - 1]
  }

  /** When a step rejects (whether or not a catch swallows it), the steps
      that completed are a strict prefix of the plan: exactly the steps
      before the failing one. */
  lemma FailureLeavesStrictPrefix<T>(steps: seq<T>, fault: Fault, caught: bool)
    requires fault.FailsAt? && fault.step < |steps|
    ensures var s := if caught then Catch(Settle(steps, fault)) else Settle(steps, fault);
      && !s.outcome.Fulfilled?
      && Completed(s) == steps[..fault.step]
      && Completed(s) < steps
      && |s.issued| == fault.step + 1
  {
  }

  /** The sequential driver: issues each step and awaits it before issuing
      the next; on a rejection it stops and reports the failing index. */
  method Drive<T>(steps: seq<T>, fault: Fault) returns (s: Settled<T>)
    ensures s == Settle(steps, fault)
  {
    var issued: seq<T> := [];
    var i := 0;
    while i < |steps|
      invariant 0 <= i <= |steps|
      invariant issued == steps[..i]
      invariant fault.FailsAt? ==> i <= fault.step
    {
      issued := issued + [steps[i]];
      if fault.FailsAt? && fault.step == i {
        assert issued == steps[..i + 1];
        return Settled(issued, Rejected(i));
      }
      i := i + 1;
    }
    assert issued == steps;
    s := Settled(issued, Fulfilled);
  }
}
