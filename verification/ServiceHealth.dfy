/** The health of one supervised service: which run of probe results asks for recovery. */
module ServiceHealth {

  const FAILURES_BEFORE_RECOVERY := 3

  datatype Probe = ProbeReady | ProbeFailed | ProbeCancelled

  datatype Status = NotChecked | Ready | Suspect | Unhealthy | Stopped | Exited

  datatype Health = Health(status: Status, failures: nat)

  function Recorded(h: Health, p: Probe): Health {
    match p
    case ProbeCancelled => h
    case ProbeReady => Health(Ready, 0)
    case ProbeFailed => Health(if h.failures + 1 >= FAILURES_BEFORE_RECOVERY then Unhealthy else Suspect, h.failures + 1)
  }

  /** The health of a service that gave these answers since it was started. */
  function After(answers: seq<Probe>): Health {
    if answers == [] then Health(NotChecked, 0)
    else Recorded(After(answers[..|answers| - 1]), answers[|answers| - 1])
  }

  /** The answers that count: a cancelled probe says nothing. */
  function Counted(answers: seq<Probe>): seq<Probe> {
    if answers == [] then []
    else
      var n := |answers| - 1;
      if answers[n].ProbeCancelled? then Counted(answers[..n]) else Counted(answers[..n]) + [answers[n]]
  }

  /** The last three answers that count are failures. */
  ghost predicate Persistent(answers: seq<Probe>) {
    var c := Counted(answers);
    |c| >= FAILURES_BEFORE_RECOVERY && forall i :: |c| - FAILURES_BEFORE_RECOVERY <= i < |c| ==> c[i].ProbeFailed?
  }

  ghost predicate TrailingFailures(c: seq<Probe>, n: nat) {
    && n <= |c|
    && (forall i :: |c| - n <= i < |c| ==> c[i].ProbeFailed?)
    && (n < |c| ==> !c[|c| - n - 1].ProbeFailed?)
  }

  lemma {:induction false} CountsTrailing(answers: seq<Probe>)
    ensures TrailingFailures(Counted(answers), After(answers).failures)
    ensures After(answers).status.Unhealthy? <==> After(answers).failures >= FAILURES_BEFORE_RECOVERY
    decreases |answers|
  {
    if answers != [] {
      CountsTrailing(answers[..|answers| - 1]);
    }
  }

  /** A service is unhealthy exactly when its last three counted answers failed. */
  lemma UnhealthyExactly(answers: seq<Probe>)
    ensures After(answers).status.Unhealthy? <==> Persistent(answers)
  {
    CountsTrailing(answers);
    var c, n := Counted(answers), After(answers).failures;
    if n < FAILURES_BEFORE_RECOVERY && |c| >= FAILURES_BEFORE_RECOVERY {
      assert !c[|c| - n - 1].ProbeFailed?;
    }
  }

  class HealthState {
    var status: Status
    var consecutiveFailures: nat
    /** The answers since the service was started. */
    ghost var answers: seq<Probe>

    constructor ()
      ensures Snapshot() == After([]) && answers == []
    {
      status, consecutiveFailures, answers := NotChecked, 0, [];
    }

    ghost function Snapshot(): Health
      reads this
    {
      Health(status, consecutiveFailures)
    }

    method Renew()
      modifies this
      ensures Snapshot() == After([]) && answers == []
    {
      status, consecutiveFailures, answers := NotChecked, 0, [];
    }

    /** Whether a persistent fault needs recovery. */
    method Record(p: Probe) returns (persistent: bool)
      requires Snapshot() == After(answers)
      modifies this
      ensures answers == old(answers) + [p] && Snapshot() == After(answers)
      ensures persistent <==> !p.ProbeCancelled? && Persistent(answers)
    {
      ghost var before := answers;
      answers := answers + [p];
      assert answers[..|answers| - 1] == before;
      if p.ProbeCancelled? {
        return false;
      }
      if p.ProbeReady? {
        consecutiveFailures := 0;
        status := Ready;
      } else {
        consecutiveFailures := consecutiveFailures + 1;
        status := if consecutiveFailures >= FAILURES_BEFORE_RECOVERY then Unhealthy else Suspect;
      }
      UnhealthyExactly(answers);
      persistent := status.Unhealthy?;
    }
  }
}
