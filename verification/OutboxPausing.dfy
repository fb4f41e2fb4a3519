/** What a pause means over whole runs: which step changes the state of a binding, and that nothing but
    withdrawals leaves a binding until it is resumed. */
module OutboxPausing {
  import opened Basics
  import opened OutboxModel
  import opened MediaModel
  import opened OutboxInvariant
  import opened OutboxSteps
  import opened MediaSteps
  import opened OutboxRuns
  import opened OutboxHistory
  import opened OutboxTheorems

  // ------------------------------------------------------------ the state of a binding

  /** A binding is paused and resumed by name, stopped without its key, closed for good, and restored with all others. */
  ghost function StateAfter(db: Db, e: Event, b: Id): BindingState
    requires b in db.bindings
  {
    var before := db.bindings[b].state;
    match e
    case DoSetPaused(c, paused) =>
      if c.ref.id == b && SetPaused(db, c, paused).result.Ok? then (if paused then Paused else Active) else before
    case DoPauseRow(binding) => if binding == b && (before.Active? || before.Paused?) then Paused else before
    case DoDisconnect(c, restored) =>
      if c.ref.id == b && Disconnect(db, c, restored).result.Ok? && (before.Active? || before.Paused?)
      then (if restored then Restored else Disconnected) else before
    case DoRestore(now) => if MarkRestored(db, now).result.Ok? then Restored else before
    case _ => before
  }

  predicate Resumes(e: Event, binding: Id) {
    e.DoSetPaused? && !e.paused && e.c.ref.id == binding
  }

  /** Only a resumption moves the instant from which on observations are accepted, to its own time. */
  ghost function ActivatedAfter(db: Db, e: Event, b: Id): int
    requires b in db.bindings
  {
    if Resumes(e, b) && SetPaused(db, e.c, false).result.Ok? && !db.bindings[b].state.Active? then e.c.now
    else db.bindings[b].activated
  }

  /** The state and the activation of a binding after this step. */
  ghost predicate Follows(db: Db, e: Event, b: Id)
    requires b in db.bindings
  {
    && b in Effect(db, e).bindings
    && Effect(db, e).bindings[b].state == StateAfter(db, e, b)
    && Effect(db, e).bindings[b].activated == ActivatedAfter(db, e, b)
  }

  lemma StopChangesState(db: Db, e: Event, b: Id)
    requires b in db.bindings && (e.DoSetPaused? || e.DoPauseRow? || e.DoDisconnect? || e.DoRestore?)
    ensures Follows(db, e, b)
  {
    hide ChangeRows, RestoreRow, RestoreMedia;
  }

  lemma ClaimKeepsState(db: Db, e: Event, b: Id)
    requires Inv(db) && b in db.bindings && (e.DoClaim? || e.DoClaimMedia? || e.DoEnqueue? || e.DoEnqueueMedia?)
    ensures Follows(db, e, b)
  {
    hide Inv, ClaimItem, ClaimMedia, Enqueue, EnqueueOverview, Takes, ChangeRows, LeaseEnd, IsMediaDue, SyncParent;
    match e
    case DoClaim(c, leaseSeconds, token) => ClaimCases(db, c, leaseSeconds, token);
    case DoClaimMedia(c, leaseSeconds, token) => ClaimMediaCases(db, c, leaseSeconds, token);
    case DoEnqueue(c, o, id) => EnqueueCases(db, c, o, id);
    case DoEnqueueMedia(c, parent, frame, id) => EnqueueOverviewCases(db, c, parent, frame, id);
  }

  lemma OtherKeepsState(db: Db, e: Event, b: Id)
    requires b in db.bindings && !(e.DoSetPaused? || e.DoPauseRow? || e.DoDisconnect? || e.DoRestore?) && !Admitting(e)
    ensures Follows(db, e, b)
  {
    hide ChangeRows, WithdrawRow, AcknowledgeRow, RejectRow, SyncParent, PruneSet;
  }

  /** Every step of every kind leaves each binding in the state that this table says, activated when it says. */
  lemma StatesFollow(db: Db, e: Event, b: Id)
    requires Inv(db) && b in db.bindings
    ensures Follows(db, e, b)
  {
    hide Inv, Effect, SetPaused, Disconnect, MarkRestored;
    if e.DoSetPaused? || e.DoPauseRow? || e.DoDisconnect? || e.DoRestore? {
      StopChangesState(db, e, b);
    } else if Admitting(e) {
      ClaimKeepsState(db, e, b);
    } else {
      OtherKeepsState(db, e, b);
    }
  }

  /** A stop pauses the binding, a resumption activates it, and each change of state is a new generation. */
  lemma PausePauses(db: Db, c: Call, paused: bool, binding: Id)
    ensures OutboxModel.PauseRow(db, binding).result.Ok? <==>
              binding in db.bindings && (db.bindings[binding].state.Active? || db.bindings[binding].state.Paused?)
    ensures OutboxModel.PauseRow(db, binding).result.Ok? ==>
              var b, d := db.bindings[binding], OutboxModel.PauseRow(db, binding).db.bindings[binding];
              && d.state.Paused?
              && d.generation == (if b.generation < MAX_GENERATION then b.generation + 1 else b.generation)
    ensures SetPaused(db, c, paused).result.Ok? ==>
              && c.ref.id in db.bindings && c.ref.id in SetPaused(db, c, paused).db.bindings
              && var b, d := db.bindings[c.ref.id], SetPaused(db, c, paused).db.bindings[c.ref.id];
                 && (if paused then d.state.Paused? else d.state.Active?)
                 && d.generation == (if d.state == b.state then b.generation else b.generation + 1)
                 && SetPaused(db, c, paused).result.value == Ref(c.ref.id, d.generation)
  {
    hide ChangeRows;
  }

  // --------------------------------------------------------------------- over runs

  ghost predicate Idle(db: Db, binding: Id) {
    binding in db.bindings && !db.bindings[binding].state.Active?
  }

  predicate NeverResumes(es: seq<Event>, binding: Id) {
    forall i :: 0 <= i < |es| ==> !Resumes(es[i], binding)
  }

  lemma IdleStep(w: World, e: Event, limits: Limits, binding: Id)
    requires WorldInv(w, limits) && Idle(w.db, binding) && !Resumes(e, binding)
    ensures Idle(Next(w, e).db, binding)
  {
    hide Inv, Effect, SetPaused, Disconnect, MarkRestored, Tracked, Succeeds, Leases, InFlight, Within;
    NextDb(w, e);
    StatesFollow(w.db, e, binding);
  }

  lemma {:induction false} StaysIdle(w: World, es: seq<Event>, limits: Limits, binding: Id)
    requires WorldInv(w, limits) && AllAllowed(w, es, limits) && Idle(w.db, binding) && NeverResumes(es, binding)
    ensures Idle(Run(w, es).db, binding)
    decreases |es|
  {
    hide WorldInv, Next, Allowed, Idle, Resumes;
    if es != [] {
      IdleStep(w, es[0], limits, binding);
      NextKeeps(w, es[0], limits);
      StaysIdle(Next(w, es[0]), es[1..], limits, binding);
    }
  }

  /** What an idle binding lets out and in. */
  lemma IdleSends(db: Db, c: Call, leaseSeconds: int, token: Id, o: MappedObservation, id: Id)
    requires Inv(db) && Idle(db, c.ref.id)
    ensures var r := ClaimItem(db, c, leaseSeconds, token).result;
            r.Ok? && r.value.Some? ==> r.value.value.operation.Withdrawal?
    ensures var r := ClaimMedia(db, c, leaseSeconds, token).result; r.Ok? ==> r.value.None?
    ensures Enqueue(db, c, o, id).result.Err? && Enqueue(db, c, o, id).db == db
  {
    hide Inv, ClaimItem, ClaimMedia, SweptMedia, Sweep, ObservationError, QuotaError, LeaseEnd;
    ClaimCases(db, c, leaseSeconds, token);
    ClaimMediaCases(db, c, leaseSeconds, token);
  }

  /** From a world in which the binding is paused, and until it is resumed, every claim of it is a withdrawal,
      no media of it is claimed and every observation for it is refused. */
  lemma PausedSendsWithdrawalsOnly(es: seq<Event>, more: seq<Event>, limits: Limits, c: Call, leaseSeconds: int,
                                   token: Id, o: MappedObservation, id: Id)
    requires AllAllowed(START, es + more, limits)
    requires c.ref.id in Run(START, es).db.bindings && Run(START, es).db.bindings[c.ref.id].state.Paused?
    requires NeverResumes(more, c.ref.id)
    ensures var db := Run(START, es + more).db;
            && (ClaimItem(db, c, leaseSeconds, token).result.Ok?
                && ClaimItem(db, c, leaseSeconds, token).result.value.Some? ==>
                  ClaimItem(db, c, leaseSeconds, token).result.value.value.operation.Withdrawal?)
            && (ClaimMedia(db, c, leaseSeconds, token).result.Ok? ==>
                  ClaimMedia(db, c, leaseSeconds, token).result.value.None?)
            && Enqueue(db, c, o, id).result.Err? && Enqueue(db, c, o, id).db == db
  {
    hide WorldInv, Run, AllAllowed, NeverResumes, ClaimItem, ClaimMedia, Enqueue, Inv;
    var w := Run(START, es);
    Reached(es, more, limits);
    StaysIdle(w, more, limits, c.ref.id);
    RunKeeps(w, more, limits);
    InvInWorld(Run(w, more), limits);
    IdleSends(Run(w, more).db, c, leaseSeconds, token, o, id);
  }

  /** The events that pause a binding. */
  ghost predicate Pauses(db: Db, e: Event, binding: Id) {
    || (e.DoPauseRow? && e.binding == binding && OutboxModel.PauseRow(db, binding).result.Ok?)
    || (e.DoSetPaused? && e.paused && e.c.ref.id == binding && SetPaused(db, e.c, true).result.Ok?)
  }

  /** So from the keyless stop, or from a pause, on. */
  lemma PauseHolds(es: seq<Event>, pause: Event, more: seq<Event>, limits: Limits, c: Call, leaseSeconds: int,
                   token: Id, o: MappedObservation, id: Id)
    requires AllAllowed(START, es + [pause] + more, limits)
    requires Pauses(Run(START, es).db, pause, c.ref.id) && NeverResumes(more, c.ref.id)
    ensures var db := Run(START, es + [pause] + more).db;
            && (ClaimItem(db, c, leaseSeconds, token).result.Ok?
                && ClaimItem(db, c, leaseSeconds, token).result.value.Some? ==>
                  ClaimItem(db, c, leaseSeconds, token).result.value.value.operation.Withdrawal?)
            && (ClaimMedia(db, c, leaseSeconds, token).result.Ok? ==>
                  ClaimMedia(db, c, leaseSeconds, token).result.value.None?)
            && Enqueue(db, c, o, id).result.Err? && Enqueue(db, c, o, id).db == db
  {
    hide WorldInv, Run, AllAllowed, NeverResumes, ClaimItem, ClaimMedia, Enqueue, Inv, Next, Effect;
    var w := Run(START, es);
    RunAppend(START, es + [pause], more, limits);
    RunAppend(START, es, [pause], limits);
    RunOne(w, pause);
    NextDb(w, pause);
    PausedNow(w.db, pause, c.ref.id);
    PausedSendsWithdrawalsOnly(es + [pause], more, limits, c, leaseSeconds, token, o, id);
  }

  lemma PausedNow(db: Db, e: Event, binding: Id)
    requires Pauses(db, e, binding)
    ensures binding in Effect(db, e).bindings && Effect(db, e).bindings[binding].state.Paused?
  {
    hide ChangeRows;
  }

  // ------------------------------------------------------------------ after a resumption

  ghost predicate ActivatedSince(db: Db, binding: Id, t: int) {
    binding in db.bindings && db.bindings[binding].activated >= t
  }

  lemma {:induction false} StaysActivated(w: World, es: seq<Event>, limits: Limits, binding: Id, t: int)
    requires WorldInv(w, limits) && AllAllowed(w, es, limits) && ActivatedSince(w.db, binding, t) && t <= w.now
    ensures ActivatedSince(Run(w, es).db, binding, t)
    decreases |es|
  {
    hide WorldInv, Effect, Next, IssuedBy, SettledBy, SetPaused, TokenOf;
    if es != [] {
      InvInWorld(w, limits);
      StatesFollow(w.db, es[0], binding);
      NextDb(w, es[0]);
      NextNow(w, es[0]);
      NextKeeps(w, es[0], limits);
      StaysActivated(Next(w, es[0]), es[1..], limits, binding, t);
    }
  }

  lemma AdmittedSince(db: Db, c: Call, o: MappedObservation, id: Id, t: int)
    requires ActivatedSince(db, c.ref.id, t) && Enqueue(db, c, o, id).db.items != db.items
    ensures t <= o.admitted <= c.now < o.deadline
  {
    hide QuotaError;
  }

  /** What was observed before a resumption is never queued after it: over every run, each row that is added
      after the resumption was admitted at or after it. */
  lemma ResumptionForgetsOlder(es: seq<Event>, resume: Event, more: seq<Event>, limits: Limits, c: Call,
                               o: MappedObservation, id: Id)
    requires AllAllowed(START, es + [resume] + more, limits) && Resumes(resume, c.ref.id)
    requires var db := Run(START, es).db;
             SetPaused(db, resume.c, false).result.Ok? && c.ref.id in db.bindings && !db.bindings[c.ref.id].state.Active?
    requires var db := Run(START, es + [resume] + more).db; Enqueue(db, c, o, id).db.items != db.items
    ensures resume.c.now <= o.admitted <= c.now < o.deadline
  {
    hide WorldInv, Run, AllAllowed, Allowed, Enqueue, Inv, Next, Effect, SetPaused;
    var w := Run(START, es);
    assert es + [resume] + more == es + ([resume] + more);
    Reached(es, [resume] + more, limits);
    StartsWith(w, resume, more, limits);
    InvInWorld(w, limits);
    StatesFollow(w.db, resume, c.ref.id);
    NextDb(w, resume);
    NextNow(w, resume);
    NextKeeps(w, resume, limits);
    StaysActivated(Next(w, resume), more, limits, c.ref.id, resume.c.now);
    AdmittedSince(Run(START, es + [resume] + more).db, c, o, id, resume.c.now);
  }
}
