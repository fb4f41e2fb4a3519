/** The launcher's supervisor: it starts the vision service and then the application, watches both and
    recovers them a bounded number of times. Whether a child dies, a port is free, a probe answers, the
    laptop sleeps or a stop is asked for is decided outside and may differ each time it is asked. */
module Supervisor {
  import opened ServiceHealth

  datatype Name = Vision | Api

  /** A child is known by its place in the order of all starts; `alive` says whether it still runs. */
  datatype Child = NoChild | Child(start: nat, alive: bool)

  datatype Service = Service(
    child: Child, restarts: nat, dependencyRestarts: nat, disabled: bool, health: Health,
    starts: nat, answers: seq<Probe>)

  const IDLE := Service(NoChild, 0, 0, false, Health(NotChecked, 0), 0, [])

  /** Why a recovery began: whether the child still ran, and its answers since it was started. */
  datatype Cause = Cause(name: Name, alive: bool, answers: seq<Probe>)

  /** What one look at a service found: it was disabled, its child answered like this without failing
      persistently, or the recovery with this number was begun. */
  datatype Look = SawDisabled(name: Name) | SawAnswers(name: Name, answers: seq<Probe>) | BeganRecovery(name: Name, number: nat)

  datatype Exit = StoppedByUser | StartFailed | NeedsRearm

  datatype Outcome = Continue | Leave(exit: Exit)

  datatype Finding = Goes | Fails | Ends(exit: Exit)

  predicate Lives(s: Service) {
    s.child.Child? && s.child.alive
  }

  /** Counts and health of one service; its starts are its first one and its restarts. */
  ghost predicate ServiceFits(s: Service, limit: nat, started: nat) {
    && s.restarts <= limit
    && s.starts <= 1 + s.restarts + s.dependencyRestarts
    && (s.child.Child? ==> s.child.start < started)
    && (Lives(s) ==> s.health == After(s.answers))
  }

  /** A child started at or after this point that answered its last probe. */
  predicate Answers(s: Service, since: nat) {
    s.child.Child? && s.child.start >= since && s.health.status.Ready?
  }

  function FinalRecovery(s: Service): nat {
    if s.disabled then 1 else 0
  }

  ghost predicate ServicesFit(v: Service, a: Service, limit: nat, started: nat) {
    && ServiceFits(v, limit, started) && ServiceFits(a, limit, started)
    && v.dependencyRestarts == 0 && !a.disabled
    && a.dependencyRestarts <= v.restarts + FinalRecovery(v)
    && started == v.starts + a.starts
    && (v.child.Child? && a.child.Child? ==> v.child.start < a.child.start)
  }

  /** A look that recovered nothing saw an answering child, and each recovery was begun by one look of its service. */
  ghost predicate LooksFit(looks: seq<Look>, causes: seq<Cause>) {
    && (forall i :: 0 <= i < |looks| && looks[i].SawAnswers? ==> looks[i].answers != [] && !Persistent(looks[i].answers))
    && (forall i :: 0 <= i < |looks| && looks[i].BeganRecovery? ==>
          looks[i].number < |causes| && causes[looks[i].number].name == looks[i].name)
    && (forall i, j :: 0 <= i < j < |looks| && looks[i].BeganRecovery? && looks[j].BeganRecovery? ==>
          looks[i].number < looks[j].number)
  }

  /** More was to be started since, and of the application alone if nothing else is said. */
  ghost predicate TriedSince(before: seq<Name>, now: seq<Name>, apiOnly: bool) {
    |before| <= |now| && now[..|before|] == before && (apiOnly ==> forall i :: |before| <= i < |now| ==> now[i].Api?)
  }

  /** The vision service and the application in turn. */
  ghost predicate InTurn(looks: seq<Look>) {
    forall i :: 0 <= i < |looks| ==> looks[i].name == if i % 2 == 0 then Vision else Api
  }

  class Supervisor {
    const limit: nat
    var vision: Service
    var api: Service
    var stopEvent: bool
    var stopped: bool
    var rearmRequired: bool
    var resumeDetected: bool
    var recoveryGeneration: nat
    /** The children started so far. */
    var started: nat
    /** What each recovery of the launch began with. */
    ghost var causes: seq<Cause>
    /** Every look at a service that the launch went on after. */
    ghost var looks: seq<Look>
    /** Every service that was to be started, in order, whether its start succeeded or not. */
    ghost var tries: seq<Name>

    /** Everything but the number of recoveries. */
    ghost predicate Fits()
      reads this
    {
      && ServicesFit(vision, api, limit, started)
      && (recoveryGeneration > 0 || resumeDetected ==> rearmRequired)
      && |causes| == recoveryGeneration
      && (forall i :: 0 <= i < |causes| && causes[i].alive ==> Persistent(causes[i].answers))
      && LooksFit(looks, causes)
    }

    /** While both children run, the application was started after the vision service that it consults. */
    ghost predicate ConsumerYounger()
      reads this
    {
      Lives(vision) && Lives(api) ==> vision.child.start < api.child.start
    }

    ghost predicate Valid()
      reads this
    {
      Fits() && recoveryGeneration <= vision.restarts + FinalRecovery(vision) + api.restarts
    }

    constructor (limit: nat)
      ensures Valid() && this.limit == limit && vision == IDLE && api == IDLE
      ensures !stopEvent && !stopped && !rearmRequired && !resumeDetected && recoveryGeneration == 0 && started == 0
      ensures looks == [] && tries == []
    {
      this.limit := limit;
      vision, api := IDLE, IDLE;
      stopEvent, stopped, rearmRequired, resumeDetected := false, false, false, false;
      recoveryGeneration, started, causes, looks, tries := 0, 0, [], [], [];
    }

    function Of(n: Name): Service
      reads this
    {
      if n.Vision? then vision else api
    }

    /** Writes one service back. */
    method Put(n: Name, s: Service)
      modifies this`vision, this`api
      ensures Of(n) == s
      ensures n.Vision? ==> api == old(api)
      ensures n.Api? ==> vision == old(vision)
    {
      if n.Vision? {
        vision := s;
      } else {
        api := s;
      }
    }

    /** Whether a stop was asked for; it is never taken back. */
    method StopAsked() returns (asked: bool)
      modifies this`stopEvent
      ensures asked == stopEvent && (old(stopEvent) ==> stopEvent)
    {
      var ask: bool := *;
      stopEvent := stopEvent || ask;
      asked := stopEvent;
    }

    /** Whether the laptop slept or its clock jumped at some time since the launch. */
    method Resumed() returns (detected: bool)
      modifies this`rearmRequired, this`resumeDetected
      ensures detected == resumeDetected && (old(resumeDetected) ==> resumeDetected)
      ensures resumeDetected && !old(resumeDetected) ==> rearmRequired
      ensures old(rearmRequired) ==> rearmRequired
    {
      var gap: bool := *;
      if gap {
        rearmRequired := true;
        resumeDetected := true;
      }
      detected := resumeDetected;
    }

    /** Whether the child still runs; one that has died stays dead. */
    method Poll(n: Name) returns (lives: bool)
      modifies this`vision, this`api
      ensures lives == Lives(Of(n))
      ensures Of(n) == old(Of(n)) || (old(Lives(Of(n))) && Of(n) == old(Of(n)).(child := Child(old(Of(n)).child.start, false)))
      ensures n.Vision? ==> api == old(api)
      ensures n.Api? ==> vision == old(vision)
    {
      var died: bool := *;
      if died && Lives(Of(n)) {
        Put(n, Of(n).(child := Child(Of(n).child.start, false)));
      }
      lives := Lives(Of(n));
    }

    method CheckHealth(n: Name) returns (answer: Probe)
      modifies this`vision, this`api
      ensures Of(n) == old(Of(n)).(health := Recorded(old(Of(n)).health, answer), answers := old(Of(n)).answers + [answer])
      ensures n.Vision? ==> api == old(api)
      ensures n.Api? ==> vision == old(vision)
    {
      answer := *;
      var s := Of(n);
      Put(n, s.(health := Recorded(s.health, answer), answers := s.answers + [answer]));
    }

    method StopService(n: Name)
      modifies this`vision, this`api
      ensures Of(n) == if old(Of(n)).child.NoChild? then old(Of(n))
                       else old(Of(n)).(child := NoChild, health := old(Of(n)).health.(status := Stopped))
      ensures n.Vision? ==> api == old(api)
      ensures n.Api? ==> vision == old(vision)
    {
      var s := Of(n);
      if s.child.Child? {
        Put(n, s.(child := NoChild, health := s.health.(status := Stopped)));
      }
    }

    /** Starts one child and waits until it answers; a child that does not is stopped again. */
    method Start(n: Name) returns (ok: bool)
      requires Fits() && Of(n).starts <= Of(n).restarts + Of(n).dependencyRestarts
      requires n.Vision? ==> api.child.NoChild?
      modifies this`vision, this`api, this`stopEvent, this`rearmRequired, this`resumeDetected, this`started,
               this`tries
      ensures ConsumerYounger()
      ensures tries == old(tries) + [n]
      ensures Fits() && SameService(old(Of(n)), Of(n))
      ensures n.Vision? ==> api == old(api)
      ensures n.Api? ==> vision == old(vision)
      ensures ok ==> Answers(Of(n), old(started)) && Of(n).starts == old(Of(n)).starts + 1
      ensures !ok && old(Of(n)).child.NoChild? ==> Of(n).child.NoChild?
      ensures started >= old(started)
      ensures (old(stopEvent) ==> stopEvent) && (old(rearmRequired) ==> rearmRequired)
    {
      hide After, Counted, Persistent, Recorded, LooksFit;
      tries := tries + [n];
      var asked := StopAsked();
      var lives := Poll(n);
      var free: bool := *;
      var spawned: bool := *;
      if stopped || asked || lives || !free || !spawned {
        return false;
      }
      var s := Of(n);
      Put(n, s.(child := Child(started, true), starts := s.starts + 1, health := Health(NotChecked, 0), answers := []));
      AfterNone();
      started := started + 1;
      ok := AwaitReady(n);
      if !ok {
        StopService(n);
      }
    }

    method AwaitReady(n: Name) returns (ready: bool)
      requires Fits() && Of(n).child.Child?
      modifies this`vision, this`api, this`stopEvent, this`rearmRequired, this`resumeDetected
      ensures Fits() && SameService(old(Of(n)), Of(n)) && Of(n).starts == old(Of(n)).starts
      ensures Of(n).child.Child? && Of(n).child.start == old(Of(n)).child.start
      ensures ready ==> Of(n).health.status.Ready?
      ensures n.Vision? ==> api == old(api)
      ensures n.Api? ==> vision == old(vision)
      ensures (old(stopEvent) ==> stopEvent) && (old(rearmRequired) ==> rearmRequired)
    {
      hide After, Counted, Persistent, Recorded, LooksFit;
      var polls: nat := *;
      while polls > 0
        invariant Fits() && SameService(old(Of(n)), Of(n)) && Of(n).starts == old(Of(n)).starts
        invariant Of(n).child.Child? && Of(n).child.start == old(Of(n)).child.start
        invariant n.Vision? ==> api == old(api)
        invariant n.Api? ==> vision == old(vision)
        invariant (old(stopEvent) ==> stopEvent) && (old(rearmRequired) ==> rearmRequired)
      {
        polls := polls - 1;
        var asked := StopAsked();
        var slept := Resumed();
        var lives := Poll(n);
        if asked || slept || !lives {
          return false;
        }
        ghost var answers, health := Of(n).answers, Of(n).health;
        var answer := CheckHealth(n);
        AfterOne(answers, answer);
        ReadyRecorded(health, answer);
        slept := Resumed();
        asked := StopAsked();
        if slept || asked {
          return false;
        }
        lives := Poll(n);
        if lives && answer.ProbeReady? {
          return true;
        }
      }
      return false;
    }

    /** One attempt to bring a stopped service back, if one is left. */
    method RestartFailed(n: Name) returns (ok: bool)
      requires Fits() && (n.Vision? ==> api.child.NoChild?)
      modifies this`vision, this`api, this`stopEvent, this`rearmRequired, this`resumeDetected, this`started,
               this`tries
      ensures ConsumerYounger()
      ensures Fits()
      ensures TriedSince(old(tries), tries, n.Api?)
      ensures ok ==> n in tries[|old(tries)|..]
      ensures Of(n).disabled == old(Of(n)).disabled && Of(n).dependencyRestarts == old(Of(n)).dependencyRestarts
      ensures n.Vision? ==> api == old(api)
      ensures n.Api? ==> vision == old(vision)
      ensures Of(n).restarts == old(Of(n)).restarts + 1
           || (Of(n).restarts == old(Of(n)).restarts && !ok && (stopEvent || stopped || Of(n).disabled || Of(n).restarts >= limit))
      ensures (old(stopEvent) ==> stopEvent) && (old(rearmRequired) ==> rearmRequired)
      ensures (ok ==> Answers(Of(n), old(started))) && started >= old(started)
      ensures !ok && old(Of(n)).child.NoChild? ==> Of(n).child.NoChild?
    {
      hide After, Counted, Persistent, Recorded, Answers, LooksFit;
      var asked := StopAsked();
      if stopped || asked || Of(n).disabled || Of(n).restarts >= limit {
        return false;
      }
      rearmRequired := true;
      StopService(n);
      Put(n, Of(n).(restarts := Of(n).restarts + 1));
      asked := StopAsked();
      if asked {
        return false;
      }
      var slept := Resumed();
      if slept {
        return false;
      }
      ok := Start(n);
    }

    /** Attempts until one succeeds, none is left, or a stop or a sleep ends the launch. */
    method Retry(n: Name) returns (recovered: bool)
      requires Fits() && !stopped && !Of(n).disabled && (n.Vision? ==> api.child.NoChild?)
      modifies this`vision, this`api, this`stopEvent, this`rearmRequired, this`resumeDetected, this`started,
               this`tries
      ensures Fits()
      ensures TriedSince(old(tries), tries, n.Api?)
      ensures !recovered ==> Of(n).restarts >= limit || stopEvent || resumeDetected
      ensures !Of(n).disabled && Of(n).dependencyRestarts == old(Of(n)).dependencyRestarts
      ensures n.Vision? ==> api == old(api)
      ensures n.Api? ==> vision == old(vision)
      ensures Of(n).restarts >= old(Of(n)).restarts && (recovered ==> Of(n).restarts > old(Of(n)).restarts)
      ensures (old(stopEvent) ==> stopEvent) && (old(rearmRequired) ==> rearmRequired)
      ensures (recovered ==> Answers(Of(n), old(started))) && started >= old(started)
      ensures !recovered && old(Of(n)).child.NoChild? ==> Of(n).child.NoChild?
    {
      hide ServicesFit, Persistent, Answers;
      recovered := false;
      var asked := StopAsked();
      while Of(n).restarts < limit && !asked && !recovered
        invariant Fits() && !Of(n).disabled && Of(n).dependencyRestarts == old(Of(n)).dependencyRestarts
        invariant n.Vision? ==> api == old(api)
        invariant n.Api? ==> vision == old(vision)
        invariant Of(n).restarts >= old(Of(n)).restarts && (recovered ==> Of(n).restarts > old(Of(n)).restarts)
        invariant (old(stopEvent) ==> stopEvent) && (old(rearmRequired) ==> rearmRequired)
        invariant asked ==> stopEvent
        invariant TriedSince(old(tries), tries, n.Api?)
        invariant (recovered ==> Answers(Of(n), old(started))) && started >= old(started)
        invariant !recovered && old(Of(n)).child.NoChild? ==> Of(n).child.NoChild?
        decreases limit - Of(n).restarts, !asked
      {
        ghost var before := started;
        recovered := RestartFailed(n);
        if recovered {
          AnswersSince(Of(n), before, old(started));
        } else {
          if resumeDetected {
            return;
          }
          asked := StopAsked();
        }
      }
    }

    /** Recovers the application alone; without it the launch is over. */
    method RecoverApi() returns (outcome: Outcome)
      requires Fits() && !stopped
      requires recoveryGeneration <= vision.restarts + FinalRecovery(vision) + api.restarts + 1
      modifies this`vision, this`api, this`stopEvent, this`rearmRequired, this`resumeDetected, this`started,
               this`tries
      ensures ConsumerYounger()
      ensures outcome.Leave? && !outcome.exit.StartFailed? ==> LeavesFor(outcome.exit)
      ensures Fits()
      ensures TriedSince(old(tries), tries, true)
      ensures outcome == Leave(StartFailed) ==> api.restarts >= limit
      ensures recoveryGeneration <= vision.restarts + FinalRecovery(vision) + api.restarts + 1
      ensures vision == old(vision) && (outcome.Continue? ==> Valid() && Answers(api, old(started)))
      ensures started >= old(started)
      ensures old(stopEvent) ==> stopEvent
    {
      hide ServiceFits, Persistent, Answers;
      StopApi();
      var recovered := Retry(Api);
      if !recovered && resumeDetected {
        return Leave(NeedsRearm);
      }
      var asked := StopAsked();
      if asked {
        return Leave(StoppedByUser);
      }
      return if recovered then Continue else Leave(StartFailed);
    }

    method StopApi()
      requires Fits()
      modifies this`api, this`vision
      ensures Fits() && api.child.NoChild? && SameService(old(api), api) && vision == old(vision)
    {
      hide Persistent;
      StopService(Api);
    }

    /** The vision service is stopped only behind the application that consults it. */
    method StopVision()
      requires Fits() && api.child.NoChild?
      modifies this`api, this`vision
      ensures Fits() && vision.child.NoChild? && SameService(old(vision), vision) && api == old(api)
    {
      hide Persistent;
      StopService(Vision);
    }

    /** Recovers the vision service, or disables it for the rest of the launch, and restarts its consumer. */
    method RecoverVision() returns (outcome: Outcome)
      requires Fits() && !stopped && !vision.disabled
      requires recoveryGeneration <= vision.restarts + api.restarts + 1
      modifies this`vision, this`api, this`stopEvent, this`rearmRequired, this`resumeDetected, this`started,
               this`tries
      ensures ConsumerYounger()
      ensures outcome.Leave? && !outcome.exit.StartFailed? ==> LeavesFor(outcome.exit)
      ensures Fits()
      ensures TriedSince(old(tries), tries, false)
      ensures outcome.Continue? && vision.disabled ==> vision.restarts >= limit
      ensures recoveryGeneration <= vision.restarts + FinalRecovery(vision) + api.restarts + 1
      ensures outcome.Continue? ==> Valid() && Answers(api, old(started))
      ensures outcome.Continue? ==> Answers(vision, old(started)) || (vision.disabled && vision.child.NoChild?)
      ensures started >= old(started)
      ensures old(stopEvent) ==> stopEvent
    {
      hide ServiceFits, Persistent, Answers;
      StopApi();
      StopVision();
      var recovered := Retry(Vision);
      if !recovered && resumeDetected {
        return Leave(NeedsRearm);
      }
      var asked := StopAsked();
      if asked {
        return Leave(StoppedByUser);
      }
      ConsumerMayRestart(vision, api, limit, started, recovered);
      if !recovered {
        vision := vision.(disabled := true);
      }
      api := api.(dependencyRestarts := api.dependencyRestarts + 1);
      ghost var before := started;
      var safe := Start(Api);
      if !safe {
        asked := StopAsked();
        return Leave(if resumeDetected then NeedsRearm else if asked then StoppedByUser else StartFailed);
      }
      AnswersSince(api, before, old(started));
      return Continue;
    }

    /** A running child is recovered only after its last three counted answers failed, and the cause of every
        recovery is on record. One that lets the launch go on leaves an application started after it began. */
    method Recover(n: Name) returns (outcome: Outcome)
      requires Valid()
      requires Lives(Of(n)) ==> Persistent(Of(n).answers)
      modifies this`vision, this`api, this`stopEvent, this`rearmRequired, this`resumeDetected, this`started,
               this`recoveryGeneration, this`causes, this`tries
      ensures ConsumerYounger()
      ensures Fits()
      ensures TriedSince(old(tries), tries, n.Api? || old(vision.disabled))
      ensures old(vision.disabled) ==> vision.disabled
      ensures n.Api? && outcome == Leave(StartFailed) ==> api.restarts >= limit
      ensures outcome.Continue? && vision.disabled && !old(vision.disabled) ==> vision.restarts >= limit
      ensures causes == old(causes) || causes == old(causes) + [Cause(n, Lives(old(Of(n))), old(Of(n)).answers)]
      ensures causes == old(causes) ==> vision == old(vision) && api == old(api)
      ensures outcome.Leave? ==> LeavesFor(outcome.exit)
      ensures recoveryGeneration <= vision.restarts + FinalRecovery(vision) + api.restarts + 1
      ensures outcome.Continue? ==> Valid()
      ensures outcome.Continue? && !old(Of(n)).disabled ==>
                recoveryGeneration == old(recoveryGeneration) + 1 && Answers(api, old(started))
      ensures old(stopEvent) ==> stopEvent
    {
      hide ServicesFit, Persistent, Answers;
      ConsumerIsYounger(vision, api, limit, started);
      var asked := StopAsked();
      if stopped || asked {
        return Leave(StoppedByUser);
      }
      if Of(n).disabled {
        return Continue;
      }
      var slept := Resumed();
      if slept {
        return Leave(NeedsRearm);
      }
      rearmRequired := true;
      recoveryGeneration := recoveryGeneration + 1;
      causes := causes + [Cause(n, Lives(Of(n)), Of(n).answers)];
      if n.Vision? {
        outcome := RecoverVision();
      } else {
        outcome := RecoverApi();
      }
    }

    /** Looks once at one service and recovers it exactly if its child is gone or persistently fails. Without a
        recovery both children stay the ones they were. A look that the launch goes on after is on record, with
        what it found. */
    method Watch(n: Name) returns (outcome: Outcome)
      requires Valid()
      modifies this
      ensures ConsumerYounger()
      ensures Fits()
      ensures TriedSince(old(tries), tries, n.Api? || old(vision.disabled))
      ensures old(vision.disabled) ==> vision.disabled
      ensures causes == old(causes) || (exists cause: Cause :: cause.name == n && causes == old(causes) + [cause])
      ensures causes == old(causes) ==> SameChild(old(vision), vision) && SameChild(old(api), api)
      ensures recoveryGeneration <= vision.restarts + FinalRecovery(vision) + api.restarts + 1
      ensures outcome.Continue? ==> Valid() && |looks| == |old(looks)| + 1 && looks[..|old(looks)|] == old(looks)
      ensures outcome.Continue? ==> looks[|looks| - 1].name == n
      ensures outcome.Continue? ==> Found(n, old(Of(n)), old(causes), looks[|looks| - 1])
      ensures outcome.Leave? ==> looks == old(looks) && LeavesFor(outcome.exit)
    {
      hide After, Counted, Persistent, Recorded, LooksFit, ServicesFit;
      YoungerNow();
      var asked := StopAsked();
      if asked {
        return Leave(StoppedByUser);
      }
      if Of(n).disabled {
        LookedOn(looks, causes, SawDisabled(n));
        looks := looks + [SawDisabled(n)];
        return Continue;
      }
      var finding := Inspect(n);
      if finding.Ends? {
        return Leave(finding.exit);
      }
      if finding.Goes? {
        LookedOn(looks, causes, SawAnswers(n, Of(n).answers));
        looks := looks + [SawAnswers(n, Of(n).answers)];
        return Continue;
      }
      ghost var before := causes;
      outcome := Recover(n);
      if outcome.Continue? {
        RecoveryLooked(looks, before, causes, n);
        looks := looks + [BeganRecovery(n, |before|)];
      }
    }

    lemma YoungerNow()
      requires Fits()
      ensures ConsumerYounger()
    {
      hide LooksFit, Persistent;
    }

    /** Whether the child of this service runs and answers well enough to go on. */
    method Inspect(n: Name) returns (finding: Finding)
      requires Valid() && !Of(n).disabled
      modifies this`vision, this`api, this`stopEvent, this`rearmRequired, this`resumeDetected
      ensures Valid() && ConsumerYounger() && !Of(n).disabled
      ensures SameChild(old(vision), vision) && SameChild(old(api), api)
      ensures vision.disabled == old(vision.disabled)
      ensures match finding
              case Goes =>
                && old(Lives(Of(n))) && Lives(Of(n)) && Of(n).child == old(Of(n)).child && !Persistent(Of(n).answers)
                && |Of(n).answers| == |old(Of(n)).answers| + 1
                && Of(n).answers[..|old(Of(n)).answers|] == old(Of(n)).answers
              case Fails => Lives(Of(n)) ==> old(Lives(Of(n))) && Persistent(Of(n).answers)
              case Ends(exit) => LeavesFor(exit)
    {
      hide After, Counted, Persistent, Recorded, LooksFit;
      var lives := Poll(n);
      if !lives {
        Put(n, Of(n).(health := Of(n).health.(status := Exited)));
        return Fails;
      }
      ghost var answers := Of(n).answers;
      var answer := CheckHealth(n);
      AfterOne(answers, answer);
      var slept := Resumed();
      if slept {
        return Ends(NeedsRearm);
      }
      var asked := StopAsked();
      if asked {
        return Ends(StoppedByUser);
      }
      UnhealthyExactly(Of(n).answers);
      return if Of(n).health.status.Unhealthy? then Fails else Goes;
    }

    /** What a look found, against the service and the recoveries before it. */
    ghost predicate Found(n: Name, before: Service, begun: seq<Cause>, look: Look)
      reads this
    {
      && look.name == n
      && match look
         case SawDisabled(_) => Of(n).disabled && causes == begun
         case SawAnswers(_, answers) =>
           && causes == begun && Lives(before) && Lives(Of(n)) && Of(n).child == before.child
           && Of(n).answers == answers && |answers| == |before.answers| + 1 && answers[..|before.answers|] == before.answers
         case BeganRecovery(_, number) =>
           && number == |begun| && |causes| == number + 1 && causes[..number] == begun && causes[number].name == n
           && (Lives(before) || !causes[number].alive)
    }

    /** The reason is one that the launch has. */
    ghost predicate LeavesFor(exit: Exit)
      reads this
    {
      match exit
      case StoppedByUser => stopEvent || stopped
      case NeedsRearm => resumeDetected
      case StartFailed => recoveryGeneration > 0
    }

    /** Any number of rounds of watching. Every round that is completed has looked at the vision service and then
        at the application, and only a stop, a sleep or a failed recovery leaves a round. */
    method Monitor(rounds: nat) returns (outcome: Outcome)
      requires Valid() && looks == []
      modifies this
      ensures ConsumerYounger()
      ensures Fits()
      ensures TriedSince(old(tries), tries, old(vision.disabled))
      ensures recoveryGeneration <= vision.restarts + FinalRecovery(vision) + api.restarts + 1
      ensures InTurn(looks) && |looks| <= 2 * rounds
      ensures outcome.Continue? ==> |looks| == 2 * rounds
      ensures outcome.Leave? ==> |looks| < 2 * rounds && LeavesFor(outcome.exit)
    {
      hide LooksFit, ServicesFit, Persistent, InTurn, Found;
      YoungerNow();
      NoTurns();
      var n := 0;
      while n < rounds
        invariant n <= rounds && Valid() && ConsumerYounger() && InTurn(looks) && |looks| == 2 * n
        invariant TriedSince(old(tries), tries, old(vision.disabled)) && (old(vision.disabled) ==> vision.disabled)
      {
        var finished := Round();
        n := n + 1;
        if finished.Leave? {
          return finished;
        }
      }
      return Continue;
    }

    /** One round: the vision service, then the application. */
    method Round() returns (outcome: Outcome)
      requires Valid() && ConsumerYounger() && InTurn(looks) && |looks| % 2 == 0
      modifies this
      ensures ConsumerYounger() && Fits() && InTurn(looks)
      ensures TriedSince(old(tries), tries, old(vision.disabled)) && (old(vision.disabled) ==> vision.disabled)
      ensures recoveryGeneration <= vision.restarts + FinalRecovery(vision) + api.restarts + 1
      ensures outcome.Continue? ==> Valid() && |looks| == |old(looks)| + 2
      ensures outcome.Leave? ==> |old(looks)| <= |looks| <= |old(looks)| + 1 && LeavesFor(outcome.exit)
    {
      hide LooksFit, ServicesFit, Persistent, InTurn, Found;
      var asked := StopAsked();
      if asked {
        return Leave(StoppedByUser);
      }
      var slept := Resumed();
      if slept {
        return Leave(NeedsRearm);
      }
      ghost var before := looks;
      outcome := Watch(Vision);
      if outcome.Leave? {
        return;
      }
      TurnTaken(before, looks);
      ghost var between := looks;
      outcome := Watch(Api);
      if outcome.Leave? {
        return;
      }
      TurnTaken(between, looks);
    }

    /** Stops everything that was started, the application first. */
    method Shutdown()
      requires Fits()
      modifies this
      ensures Fits() && stopped && stopEvent && vision.child.NoChild? && api.child.NoChild?
      ensures started == old(started) && recoveryGeneration == old(recoveryGeneration) && causes == old(causes)
      ensures tries == old(tries) && looks == old(looks) && resumeDetected == old(resumeDetected)
    {
      stopped := true;
      stopEvent := true;
      StopApi();
      StopVision();
    }

    /** One launch, from the first start to the shutdown. However its children and its surroundings behave, it
        starts at most 3L + 3 children and recovers at most 2L + 2 times, every recovery demands a fresh
        arming, and each one that found its child running followed three failures of it in a row. A launch that
        is not left has looked at both services in every round: each look found the service disabled, or running
        without three failures in a row, or began a recovery of it. */
    method Launch(useVision: bool, rounds: nat) returns (outcome: Outcome)
      requires Valid() && vision == IDLE && api == IDLE && started == 0 && recoveryGeneration == 0
      requires looks == [] && tries == []
      modifies this
      ensures started <= 3 * limit + 3 && recoveryGeneration <= 2 * limit + 2
      ensures vision.restarts <= limit && api.restarts <= limit
      ensures recoveryGeneration > 0 ==> rearmRequired
      ensures |causes| == recoveryGeneration
      ensures forall i :: 0 <= i < |causes| && causes[i].alive ==> Persistent(causes[i].answers)
      ensures LooksFit(looks, causes) && InTurn(looks) && |looks| <= 2 * rounds
      ensures outcome.Continue? ==> |looks| == 2 * rounds
      ensures useVision ==> tries != [] && tries[0].Vision?
      ensures !useVision ==> Vision !in tries
      ensures outcome.Continue? || outcome == Leave(StartFailed) ==> Api in tries
      ensures stopped && vision.child.NoChild? && api.child.NoChild?
    {
      outcome := Supervise(useVision, rounds);
      Shutdown();
    }

    method Supervise(useVision: bool, rounds: nat) returns (outcome: Outcome)
      requires Valid() && vision == IDLE && api == IDLE && looks == [] && tries == []
      modifies this
      ensures ConsumerYounger()
      ensures Fits()
      ensures useVision ==> tries != [] && tries[0].Vision?
      ensures !useVision ==> Vision !in tries
      ensures outcome.Continue? || outcome == Leave(StartFailed) ==> Api in tries
      ensures InTurn(looks) && |looks| <= 2 * rounds
      ensures outcome.Continue? ==> |looks| == 2 * rounds
      ensures recoveryGeneration <= vision.restarts + FinalRecovery(vision) + api.restarts + 1
    {
      hide ServiceFits, LooksFit, Persistent, TriedSince, Answers, InTurn;
      NoTurns();
      var visionReady := false;
      if useVision {
        IdleMayStart();
        visionReady := Start(Vision);
      }
      if !visionReady {
        DisabledFits(vision, api, limit, started);
        vision := vision.(disabled := true);
      }
      var asked := StopAsked();
      YoungerNow();
      if asked || rearmRequired {
        return Leave(if rearmRequired then NeedsRearm else StoppedByUser);
      }
      IdleMayStart();
      ghost var before := tries;
      var apiReady := Start(Api);
      if !apiReady {
        return Leave(StartFailed);
      }
      ghost var first, apiOnly := tries, vision.disabled;
      assert first == before + [Api];
      outcome := Monitor(rounds);
      TriesStay(first, tries, apiOnly);
    }
  }

  lemma IdleMayStart()
    ensures IDLE.starts <= IDLE.restarts + IDLE.dependencyRestarts && IDLE.child.NoChild?
  {
  }

  lemma DisabledFits(v: Service, a: Service, limit: nat, started: nat)
    requires ServicesFit(v, a, limit, started)
    ensures ServicesFit(v.(disabled := true), a, limit, started)
  {
  }

  lemma TriesStay(before: seq<Name>, now: seq<Name>, apiOnly: bool)
    requires TriedSince(before, now, apiOnly)
    ensures forall n :: n in before ==> n in now
    ensures before != [] ==> now != [] && now[0] == before[0]
    ensures apiOnly && Vision !in before ==> Vision !in now
  {
    assert now == now[..|before|] + now[|before|..];
  }

  lemma NoTurns()
    ensures InTurn([])
  {
  }

  lemma TurnTaken(before: seq<Look>, after: seq<Look>)
    requires InTurn(before) && |after| == |before| + 1 && after[..|before|] == before
    requires after[|before|].name == if |before| % 2 == 0 then Vision else Api
    ensures InTurn(after)
  {
    forall i | 0 <= i < |before| ensures after[i] == before[i] {
      assert after[i] == after[..|before|][i];
    }
  }

  lemma LookedOn(looks: seq<Look>, causes: seq<Cause>, look: Look)
    requires LooksFit(looks, causes) && !look.BeganRecovery?
    requires look.SawAnswers? ==> look.answers != [] && !Persistent(look.answers)
    ensures LooksFit(looks + [look], causes)
  {
    hide Persistent;
  }

  lemma RecoveryLooked(looks: seq<Look>, begun: seq<Cause>, causes: seq<Cause>, n: Name)
    requires LooksFit(looks, begun)
    requires |causes| == |begun| + 1 && causes[..|begun|] == begun && causes[|begun|].name == n
    ensures LooksFit(looks + [BeganRecovery(n, |begun|)], causes)
  {
    hide Persistent;
  }

  /** The same child as before, which may have died meanwhile. */
  predicate SameChild(s: Service, t: Service) {
    s.child.Child? == t.child.Child? && (s.child.Child? ==> s.child.start == t.child.start)
  }

  /** Nothing but the child and its health differ. */
  predicate SameService(s: Service, t: Service) {
    && s.restarts == t.restarts && s.dependencyRestarts == t.dependencyRestarts && s.disabled == t.disabled
    && s.starts <= t.starts
  }

  /** Every recovery of the vision service used one of its restarts or disabled it, so its consumer may restart once more. */
  lemma ConsumerMayRestart(v: Service, a: Service, limit: nat, started: nat, recovered: bool)
    requires ServicesFit(v, a, limit, started) && !v.disabled
    requires recovered ==> a.dependencyRestarts < v.restarts
    ensures ServicesFit(if recovered then v else v.(disabled := true),
                        a.(dependencyRestarts := a.dependencyRestarts + 1), limit, started)
    ensures a.starts <= a.restarts + a.dependencyRestarts + 1
  {
  }

  lemma ConsumerIsYounger(v: Service, a: Service, limit: nat, started: nat)
    requires ServicesFit(v, a, limit, started)
    ensures Lives(v) && Lives(a) ==> v.child.start < a.child.start
  {
  }

  lemma AnswersSince(s: Service, since: nat, earlier: nat)
    requires Answers(s, since) && earlier <= since
    ensures Answers(s, earlier)
  {
  }

  lemma ReadyRecorded(h: Health, answer: Probe)
    ensures answer.ProbeReady? ==> Recorded(h, answer).status.Ready?
  {
  }

  lemma AfterNone()
    ensures After([]) == Health(NotChecked, 0)
  {
  }

  lemma AfterOne(answers: seq<Probe>, answer: Probe)
    ensures After(answers + [answer]) == Recorded(After(answers), answer)
  {
    assert (answers + [answer])[..|answers|] == answers;
  }
}
