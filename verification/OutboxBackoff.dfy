/** The pause that a retry writes holds over whole runs: until it is over the row is not sent again. */
module OutboxBackoff {
  import opened Basics
  import opened OutboxModel
  import opened MediaModel
  import opened OutboxInvariant
  import opened OutboxSteps
  import opened MediaSteps
  import opened OutboxRuns
  import opened OutboxHistory
  import opened OutboxTheorems
  import opened OutboxAttempts

  /** The clock of a run does not run back. */
  lemma {:induction false} ClockRunsOn(w: World, es: seq<Event>, limits: Limits)
    requires AllAllowed(w, es, limits)
    ensures w.now <= Run(w, es).now
    decreases |es|
  {
    hide Next, TokenOf;
    if es != [] {
      NextNow(w, es[0]);
      ClockRunsOn(Next(w, es[0]), es[1..], limits);
    }
  }

  // ------------------------------------------------------------------------- items

  /** The row has become a withdrawal, waits no more, or waits for this instant. */
  predicate HeldBack(i: Item, operation: Operation, until: int) {
    || (operation.Observation? && i.operation.Withdrawal?)
    || (i.operation == operation && (Waits(i) ==> i.state.Pending? && i.lease.None? && until <= i.next))
  }

  ghost predicate RowHeldBack(w: World, k: Id, operation: Operation, until: int) {
    && k in w.created
    && (k in w.db.items ==> HeldBack(w.db.items[k], operation, until))
  }

  lemma ClaimIsDue(db: Db, c: Call, leaseSeconds: int, token: Id, k: Id, until: int)
    requires Inv(db) && k in db.items && Issues(db, DoClaim(c, leaseSeconds, token), k, false)
    requires HeldBack(db.items[k], db.items[k].operation, until) && c.now < until
    ensures k in ClaimItem(db, c, leaseSeconds, token).db.items
    ensures ClaimItem(db, c, leaseSeconds, token).db.items[k].operation != db.items[k].operation
  {
    hide Inv, ClaimItem, Sweep, LeaseEnd, Decodes;
    ClaimCases(db, c, leaseSeconds, token);
    SweepCounts(db, c, k);
  }

  lemma HeldStep(db: Db, e: Event, k: Id, operation: Operation, until: int)
    requires Inv(db) && (e.DoEnqueue? ==> e.id !in db.items) && k in db.items && k in Effect(db, e).items
    requires e.DoClaim? ==> e.c.now < until
    requires HeldBack(db.items[k], operation, until) && RowShape(Effect(db, e).items[k])
    ensures HeldBack(Effect(db, e).items[k], operation, until)
  {
    hide Inv, Effect, Sweep, ClaimItem;
    StepCounts(db, e, k);
    if Issues(db, e, k, false) && db.items[k].operation == operation && Waits(db.items[k]) {
      OnlyClaimsIssue(db, e, k);
      ClaimIsDue(db, e.c, e.leaseSeconds, e.token, k, until);
      ClaimedNow(db, e);
    }
    hide Issues;
  }

  lemma OnlyClaimsIssue(db: Db, e: Event, k: Id)
    requires Issues(db, e, k, false)
    ensures e.DoClaim?
  {
    hide ClaimItem, ClaimMedia;
  }

  lemma ClaimedNow(db: Db, e: Event)
    requires e.DoClaim?
    ensures Effect(db, e) == ClaimItem(db, e.c, e.leaseSeconds, e.token).db
  {
    hide ClaimItem;
  }

  lemma HeldNext(w: World, e: Event, limits: Limits, k: Id, operation: Operation, until: int)
    requires WorldInv(w, limits) && Allowed(w, e, limits) && Next(w, e).now < until
    requires RowHeldBack(w, k, operation, until)
    ensures RowHeldBack(Next(w, e), k, operation, until)
  {
    hide Inv, Effect, HeldBack, Succeeds, Leases, InFlight, Within, RowOk, RowShape, MediaTimely;
    var w' := Next(w, e);
    NextKeeps(w, e, limits);
    NextDb(w, e);
    NextNow(w, e);
    LastIsNew(w, e, limits);
    NewRowsAreNew(w, e);
    CreatedOnce(w, e, limits, k);
    if k in w'.db.items {
      RowInWorld(w', limits, k);
      HeldStep(w.db, e, k, operation, until);
    }
  }

  lemma {:induction false} StaysHeldBack(w: World, es: seq<Event>, limits: Limits, k: Id, operation: Operation,
                                         until: int)
    requires WorldInv(w, limits) && AllAllowed(w, es, limits) && Run(w, es).now < until
    requires RowHeldBack(w, k, operation, until)
    ensures RowHeldBack(Run(w, es), k, operation, until)
    decreases |es|
  {
    hide WorldInv, Next, Allowed, RowHeldBack;
    if es != [] {
      ClockRunsOn(Next(w, es[0]), es[1..], limits);
      NextKeeps(w, es[0], limits);
      HeldNext(w, es[0], limits, k, operation, until);
      StaysHeldBack(Next(w, es[0]), es[1..], limits, k, operation, until);
    }
  }

  lemma RetryHoldsBack(db: Db, c: Call, claim: Claim, delaySeconds: int)
    requires RetryItem(db, c, claim, delaySeconds).result.Ok?
    ensures claim.id in db.items && claim.id in RetryItem(db, c, claim, delaySeconds).db.items
    ensures HeldBack(RetryItem(db, c, claim, delaySeconds).db.items[claim.id], claim.operation,
                     c.now + delaySeconds * 1000)
  {
  }

  lemma HeldIsNotClaimed(w: World, limits: Limits, c: Call, leaseSeconds: int, token: Id, k: Id, operation: Operation,
                         until: int)
    requires WorldInv(w, limits) && RowHeldBack(w, k, operation, until) && c.now < until
    ensures var r := ClaimItem(w.db, c, leaseSeconds, token).result;
            r.Ok? && r.value.Some? && r.value.value.id == k ==> r.value.value.operation != operation
  {
    hide Sweep, ClaimItem, Inv, Tracked, Succeeds, Leases, InFlight, Within, LeaseEnd;
    var r := ClaimItem(w.db, c, leaseSeconds, token).result;
    if r.Ok? && r.value.Some? && r.value.value.id == k {
      ClaimCases(w.db, c, leaseSeconds, token);
      SweepCounts(w.db, c, k);
    }
  }

  /** After a retry, and until its pause is over, no claim of any later world sends the row again as it was. */
  lemma RetriedRowWaits(es: seq<Event>, retry: Event, more: seq<Event>, limits: Limits, c: Call, leaseSeconds: int,
                        token: Id)
    requires AllAllowed(START, es + [retry] + more, limits) && retry.DoRetry?
    requires RetryItem(Run(START, es).db, retry.c, retry.claim, retry.delaySeconds).result.Ok?
    requires Run(START, es + [retry] + more).now <= c.now < retry.c.now + retry.delaySeconds * 1000
    ensures var r := ClaimItem(Run(START, es + [retry] + more).db, c, leaseSeconds, token).result;
            r.Ok? && r.value.Some? && r.value.value.id == retry.claim.id ==>
              r.value.value.operation != retry.claim.operation
  {
    hide WorldInv, Run, AllAllowed, Allowed, Next, RetryItem, ClaimItem, HeldBack, RowHeldBack, Effect;
    var w, k, until := Run(START, es), retry.claim.id, retry.c.now + retry.delaySeconds * 1000;
    assert es + [retry] + more == es + ([retry] + more);
    Reached(es, [retry] + more, limits);
    StartsWith(w, retry, more, limits);
    NextKeeps(w, retry, limits);
    NextDb(w, retry);
    RetriedNow(w, retry, until);
    KeptIsCreated(Next(w, retry), limits, k);
    HeldInWorld(Next(w, retry), k, retry.claim.operation, until);
    StaysHeldBack(Next(w, retry), more, limits, k, retry.claim.operation, until);
    RunKeeps(Next(w, retry), more, limits);
    HeldIsNotClaimed(Run(START, es + [retry] + more), limits, c, leaseSeconds, token, k, retry.claim.operation, until);
  }

  lemma RetriedNow(w: World, retry: Event, until: int)
    requires retry.DoRetry? && RetryItem(w.db, retry.c, retry.claim, retry.delaySeconds).result.Ok?
    requires until == retry.c.now + retry.delaySeconds * 1000
    ensures retry.claim.id in Next(w, retry).db.items
    ensures HeldBack(Next(w, retry).db.items[retry.claim.id], retry.claim.operation, until)
  {
    hide RetryItem, HeldBack, IssuedBy, SettledBy;
    RetryHoldsBack(w.db, retry.c, retry.claim, retry.delaySeconds);
  }

  lemma HeldInWorld(w: World, k: Id, operation: Operation, until: int)
    requires k in w.created && k in w.db.items && HeldBack(w.db.items[k], operation, until)
    ensures RowHeldBack(w, k, operation, until)
  {
  }

  lemma KeptIsCreated(w: World, limits: Limits, k: Id)
    requires WorldInv(w, limits) && k in w.db.items
    ensures k in w.created
  {
    hide Inv, Succeeds, Leases, InFlight, Within, AllGone;
  }

  // ------------------------------------------------------------------------- media

  /** The media row is not to be sent any more, or waits for this instant. */
  predicate MediaHeldBack(m: Media, until: int) {
    (!AtManifest(m) && !AtContent(m))
    || ((m.state.PendingManifest? || m.state.PendingContent?) && m.lease.None? && until <= m.next)
  }

  lemma MediaHeldStep(db: Db, e: Event, k: Id, until: int)
    requires Inv(db) && (e.DoEnqueueMedia? ==> e.id !in db.media) && k in db.media && k in Effect(db, e).media
    requires e.DoClaimMedia? ==> e.c.now < until
    requires MediaHeldBack(db.media[k], until) && (IsLeased(Effect(db, e).media[k]) ==> Effect(db, e).media[k].lease.Some?)
    ensures MediaHeldBack(Effect(db, e).media[k], until)
  {
    hide Inv, Effect, ClaimMedia;
    MediaStepCounts(db, e, k);
    if Issues(db, e, k, true) {
      OnlyMediaClaimsIssue(db, e, k);
      HeldMediaIsNotClaimed(db, e.c, e.leaseSeconds, e.token, k, until);
    }
    hide Issues;
  }

  lemma OnlyMediaClaimsIssue(db: Db, e: Event, k: Id)
    requires Issues(db, e, k, true)
    ensures e.DoClaimMedia?
    ensures ClaimMedia(db, e.c, e.leaseSeconds, e.token).result.Ok?
    ensures ClaimMedia(db, e.c, e.leaseSeconds, e.token).result.value.Some?
    ensures ClaimMedia(db, e.c, e.leaseSeconds, e.token).result.value.value.id == k
  {
    hide ClaimItem, ClaimMedia;
  }

  lemma HeldMediaIsNotClaimed(db: Db, c: Call, leaseSeconds: int, token: Id, k: Id, until: int)
    requires k in db.media && MediaHeldBack(db.media[k], until) && c.now < until
    ensures var r := ClaimMedia(db, c, leaseSeconds, token).result;
            r.Ok? && r.value.Some? ==> r.value.value.id != k
  {
    hide ClaimMedia, SweptMedia, SyncParent;
    ClaimMediaCases(db, c, leaseSeconds, token);
    MediaSweepCounts(db, c, k);
  }

  lemma MediaHeldNext(w: World, e: Event, limits: Limits, k: Id, until: int)
    requires WorldInv(w, limits) && Allowed(w, e, limits) && Next(w, e).now < until
    requires (e.DoEnqueueMedia? ==> e.id != k) && (k in w.db.media ==> MediaHeldBack(w.db.media[k], until))
    ensures k in Next(w, e).db.media ==> MediaHeldBack(Next(w, e).db.media[k], until)
  {
    hide WorldInv, Inv, Effect, MediaHeldBack;
    NextKeeps(w, e, limits);
    NextDb(w, e);
    NextNow(w, e);
    LastIsNew(w, e, limits);
    NewRows(w.db, e);
    InvInWorld(Next(w, e), limits);
    if k in w.db.media && k in Next(w, e).db.media {
      LeasedHasLease(Next(w, e).db, k);
      MediaHeldStep(w.db, e, k, until);
    }
  }

  lemma LeasedHasLease(db: Db, k: Id)
    requires Inv(db) && k in db.media
    ensures IsLeased(db.media[k]) ==> db.media[k].lease.Some?
  {
    assert MediaOk(db.items, db.media[k]);
  }

  lemma {:induction false} MediaStaysHeldBack(w: World, es: seq<Event>, limits: Limits, k: Id, until: int)
    requires WorldInv(w, limits) && AllAllowed(w, es, limits) && Run(w, es).now < until
    requires forall n :: 0 <= n < |es| && es[n].DoEnqueueMedia? ==> es[n].id != k
    requires k in w.db.media ==> MediaHeldBack(w.db.media[k], until)
    ensures k in Run(w, es).db.media ==> MediaHeldBack(Run(w, es).db.media[k], until)
    decreases |es|
  {
    hide WorldInv, Next, Allowed, MediaHeldBack;
    if es != [] {
      ClockRunsOn(Next(w, es[0]), es[1..], limits);
      NextKeeps(w, es[0], limits);
      MediaHeldNext(w, es[0], limits, k, until);
      MediaStaysHeldBack(Next(w, es[0]), es[1..], limits, k, until);
    }
  }

  lemma RetryHoldsMediaBack(db: Db, c: Call, claim: MediaClaim, delaySeconds: int)
    requires RetryMedia(db, c, claim, delaySeconds).result.Ok?
    ensures claim.id in RetryMedia(db, c, claim, delaySeconds).db.media
    ensures MediaHeldBack(RetryMedia(db, c, claim, delaySeconds).db.media[claim.id], c.now + delaySeconds * 1000)
  {
  }

  /** The same of media, as long as its reference is not enqueued anew. */
  lemma RetriedMediaWaits(es: seq<Event>, retry: Event, more: seq<Event>, limits: Limits, c: Call, leaseSeconds: int,
                          token: Id)
    requires AllAllowed(START, es + [retry] + more, limits) && retry.DoRetryMedia?
    requires RetryMedia(Run(START, es).db, retry.c, retry.mediaClaim, retry.delaySeconds).result.Ok?
    requires forall n :: 0 <= n < |more| && more[n].DoEnqueueMedia? ==> more[n].id != retry.mediaClaim.id
    requires Run(START, es + [retry] + more).now <= c.now < retry.c.now + retry.delaySeconds * 1000
    ensures var r := ClaimMedia(Run(START, es + [retry] + more).db, c, leaseSeconds, token).result;
            r.Ok? && r.value.Some? ==> r.value.value.id != retry.mediaClaim.id
  {
    hide WorldInv, Run, AllAllowed, Allowed, Next, RetryMedia, ClaimMedia, MediaHeldBack, SweptMedia;
    var w, k, until := Run(START, es), retry.mediaClaim.id, retry.c.now + retry.delaySeconds * 1000;
    assert es + [retry] + more == es + ([retry] + more);
    Reached(es, [retry] + more, limits);
    StartsWith(w, retry, more, limits);
    NextKeeps(w, retry, limits);
    NextDb(w, retry);
    RetryHoldsMediaBack(w.db, retry.c, retry.mediaClaim, retry.delaySeconds);
    MediaStaysHeldBack(Next(w, retry), more, limits, k, until);
    var db := Run(START, es + [retry] + more).db;
    ClaimMediaCases(db, c, leaseSeconds, token);
    if k in db.media {
      HeldMediaIsNotClaimed(db, c, leaseSeconds, token, k, until);
    }
  }
}
