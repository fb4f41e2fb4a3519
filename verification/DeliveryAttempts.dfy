/** How long a sender that follows its policy goes on with one row. Its maximum bounds the claims of a row
    whose leases are all answered; a lease that is lost, by a stop or because no answer came, is not counted
    against it by the program. */
module DeliveryAttempts {
  import opened Basics
  import opened OutboxModel
  import opened MediaModel
  import opened OutboxInvariant
  import opened OutboxSteps
  import opened MediaSteps
  import opened OutboxRuns
  import opened OutboxHistory
  import opened OutboxTheorems
  import opened OutboxAttempts
  import opened DeliveryModel

  // ----------------------------------------------------------------------- items

  /** A lease that ended with the row still to be sent as before. */
  predicate Returned(i: Item, j: Item) {
    i.lease.Some? && j.lease != i.lease && j.operation == i.operation && Waits(j)
  }

  /** The row is retried only below the policy's maximum, and it returns to the queue only by an answer. */
  ghost predicate Answers(db: Db, e: Event, k: Id, p: Policy) {
    && (e.DoRetry? && e.claim.id == k && k in db.items && RetryItem(db, e.c, e.claim, e.delaySeconds).result.Ok? ==>
          db.items[k].attempts < MaximumAttempts(p, db.items[k].operation))
    && (k in db.items && k in Effect(db, e).items && Returned(db.items[k], Effect(db, e).items[k]) ==>
          SettledBy(db, e).Some?)
  }

  /** The row's attempts fit the policy, and one that waits for its next claim has an attempt left. */
  predicate Bounded(i: Item, p: Policy) {
    && i.attempts <= p.totalAttempts
    && (i.operation.Observation? ==> i.attempts <= p.observationAttempts)
    && (i.state.Pending? ==> i.attempts < MaximumAttempts(p, i.operation))
  }

  /** Only a retry brings a row back to the queue as it was. */
  lemma OnlyRetryReturns(db: Db, e: Event, k: Id)
    requires Inv(db) && SettledBy(db, e).Some? && k in db.items && k in Effect(db, e).items
    requires Returned(db.items[k], Effect(db, e).items[k])
    ensures e.DoRetry? && e.claim.id == k && RetryItem(db, e.c, e.claim, e.delaySeconds).result.Ok?
  {
    hide Inv, Effect, SettledBy;
    SettledRow(db, e);
    if SettlingMedia(e) {
      assert false;
    }
    assert k == e.claim.id;
    SettlesAsRetry(db, e);
  }

  lemma SettlesAsRetry(db: Db, e: Event)
    requires SettledBy(db, e).Some? && !SettlingMedia(e)
    requires e.claim.id in db.items && e.claim.id in Effect(db, e).items
    requires Returned(db.items[e.claim.id], Effect(db, e).items[e.claim.id])
    ensures e.DoRetry? && RetryItem(db, e.c, e.claim, e.delaySeconds).result.Ok?
  {
  }

  lemma BoundedStep(db: Db, e: Event, k: Id, p: Policy)
    requires Inv(db) && p.Valid() && (e.DoEnqueue? ==> e.id !in db.items)
    requires TokenOf(e).Some? ==> Unleased(db, TokenOf(e).value)
    requires k in db.items && k in Effect(db, e).items && Bounded(db.items[k], p) && Answers(db, e, k, p)
    requires RowShape(db.items[k]) && RowShape(Effect(db, e).items[k])
    ensures Bounded(Effect(db, e).items[k], p)
  {
    hide Inv, Effect, SettledBy, RetryItem;
    var i, j := db.items[k], Effect(db, e).items[k];
    StepCounts(db, e, k);
    if Returned(i, j) {
      OnlyRetryReturns(db, e, k);
    }
    if Issues(db, e, k, false) {
      IssuedLease(db, e, k);
    }
    hide Issues;
  }

  /** A claim leases its row to the token that it drew. */
  lemma IssuedLease(db: Db, e: Event, k: Id)
    requires Inv(db) && Issues(db, e, k, false)
    ensures SettledBy(db, e).None? && TokenOf(e).Some?
    ensures k in Effect(db, e).items && Effect(db, e).items[k].lease.Some?
    ensures Effect(db, e).items[k].lease.value.token == TokenOf(e).value
  {
    hide Inv, ClaimItem, Sweep, ClaimMedia, Takes;
    match e
    case DoClaim(c, leaseSeconds, token) => ClaimCases(db, c, leaseSeconds, token);
    case _ =>
  }

  /** Every event of the run obeys the policy for this row. */
  ghost predicate AllAnswers(es: seq<Event>, k: Id, p: Policy) {
    forall n :: 0 <= n < |es| ==> Answers(Run(START, es[..n]).db, es[n], k, p)
  }

  lemma AnswersBefore(es: seq<Event>, k: Id, p: Policy)
    requires AllAnswers(es, k, p) && es != []
    ensures AllAnswers(es[..|es| - 1], k, p) && Answers(Run(START, es[..|es| - 1]).db, es[|es| - 1], k, p)
  {
    hide Answers, Run;
    var before := es[..|es| - 1];
    forall n | 0 <= n < |before| ensures Answers(Run(START, before[..n]).db, before[n], k, p) {
      assert before[..n] == es[..n] && before[n] == es[n];
    }
  }

  lemma {:induction false} BoundedRun(es: seq<Event>, limits: Limits, k: Id, p: Policy)
    requires AllAllowed(START, es, limits) && p.Valid() && AllAnswers(es, k, p)
    ensures k in Run(START, es).db.items ==> Bounded(Run(START, es).db.items[k], p)
    decreases |es|
  {
    hide Run, AllAllowed, WorldInv, Next, Allowed, Effect, Inv, Answers, AllAnswers, Bounded, Unleased, RowShape, RowOk;
    NothingKept();
    if es != [] && k in Run(START, es).db.items {
      var before, e := es[..|es| - 1], es[|es| - 1];
      var w := Run(START, before);
      LastStep(es, limits);
      LastIsNew(w, e, limits);
      AnswersBefore(es, k, p);
      BoundedRun(before, limits, k, p);
      TokenIsFree(w, e, limits);
      NextKeeps(w, e, limits);
      RowInWorld(Next(w, e), limits, k);
      if k in w.db.items {
        RowInWorld(w, limits, k);
        BoundedStep(w.db, e, k, p);
      } else {
        NewRowIsBounded(w.db, e, k, p);
      }
    }
  }

  lemma TokenIsFree(w: World, e: Event, limits: Limits)
    requires WorldInv(w, limits) && Allowed(w, e, limits)
    ensures TokenOf(e).Some? ==> Unleased(w.db, TokenOf(e).value)
  {
    hide Inv, Tracked, Succeeds, InFlight, Within;
  }

  lemma NewRowIsBounded(db: Db, e: Event, k: Id, p: Policy)
    requires Inv(db) && (e.DoEnqueue? ==> e.id !in db.items) && (e.DoEnqueueMedia? ==> e.id !in db.media) && p.Valid()
    requires k in Effect(db, e).items && k !in db.items
    ensures Bounded(Effect(db, e).items[k], p)
  {
    hide Inv, Effect;
    NewRowIsUnsent(db, e, k);
  }

  /** Over every run in which a row returns to the queue only by an answer that the policy allows, at most
      `totalAttempts` claims are issued for it, and at most `observationAttempts` while it is an observation. */
  lemma ClaimsAreBounded(es: seq<Event>, limits: Limits, k: Id, p: Policy)
    requires AllAllowed(START, es, limits) && p.Valid() && AllAnswers(es, k, p)
    ensures Sent(es, k, false) <= p.totalAttempts
    ensures k in Run(START, es).db.items && Run(START, es).db.items[k].operation.Observation? ==>
              Sent(es, k, false) <= p.observationAttempts
  {
    hide Run, AllAllowed, AllAnswers, Sent;
    BoundedRun(es, limits, k, p);
    if k in Run(START, es).db.items {
      AttemptsAreClaims(es, limits, k);
    } else {
      UnkeptIsUnsent(es, k, false);
    }
  }

  /** The sender obeys that policy: it retries a row only below the maximum, with the pause of its attempts. */
  lemma SenderObeys(db: Db, c: Call, p: Policy, claim: Claim, response: Response, source: Entity -> SourceState)
    requires Settlement(db, c, p, claim, response, source).result.Ok?
    requires Settlement(db, c, p, claim, response, source).result.value.Retried?
    ensures var seconds := Settlement(db, c, p, claim, response, source).result.value.seconds;
            && Settlement(db, c, p, claim, response, source).db == RetryItem(db, c, claim, seconds).db
            && RetryItem(db, c, claim, seconds).result.Ok? && claim.id in db.items
            && db.items[claim.id].attempts < MaximumAttempts(p, db.items[claim.id].operation)
  {
    hide Delay;
  }

  /** After any run, a transient answer to the claim that holds the row leads to a retry as long as fewer claims
      than the policy's maximum were issued for it, with a pause that their number decides; then to a
      withdrawal of the observation, or to the end of the withdrawal. */
  lemma TransientAnswersEnd(es: seq<Event>, limits: Limits, c: Call, p: Policy, claim: Claim, retryAfter: Option<int>,
                            source: Entity -> SourceState)
    requires AllAllowed(START, es, limits) && p.Valid() && AnswerFits(Transient(retryAfter))
    requires Open(Run(START, es).db, c).Ok? && claim.binding == c.ref && IsIssued(Run(START, es).db, claim)
    requires StillLeased(Run(START, es).db, c, claim)
    requires claim.operation.Observation? ==> SourceReason(Run(START, es).db.items[claim.id], source, c.now).None?
    ensures var db := Run(START, es).db;
            var sent := Sent(es, claim.id, false);
            var step := Settlement(db, c, p, claim, Transient(retryAfter), source);
            && sent >= 1 && claim.id in step.db.items
            && if sent < MaximumAttempts(p, claim.operation) then
                 && step.result == Ok(Retried(Delay(p, sent, retryAfter)))
                 && step.db.items[claim.id].state.Pending? && step.db.items[claim.id].operation == claim.operation
               else
                 && step.result == Ok(Outcome.Blocked) && step.db.items[claim.id].operation.Withdrawal?
                 && (if claim.operation.Observation? then step.db.items[claim.id].state.Pending?
                     else step.db.items[claim.id].state.Blocked?)
  {
    hide Run, AllAllowed, Sent, Settlement, Inv, Delay, WorldInv, Open, SourceReason;
    ReachableInv(es, limits);
    AttemptsAreClaims(es, limits, claim.id);
    AnswerDecides(Run(START, es).db, c, p, claim, Transient(retryAfter), source);
    SenderChecksTheFence(Run(START, es).db, c, claim);
  }

  // ------------------------------------------------------------------------- media

  predicate MediaReturned(m: Media, n: Media) {
    && m.lease.Some? && n.lease != m.lease
    && ((AtManifest(m) && AtManifest(n)) || (AtContent(m) && AtContent(n)))
  }

  ghost predicate MediaAnswers(db: Db, e: Event, k: Id, p: Policy) {
    && (e.DoRetryMedia? && e.mediaClaim.id == k && k in db.media
        && RetryMedia(db, e.c, e.mediaClaim, e.delaySeconds).result.Ok? ==>
          db.media[k].attempts < p.totalAttempts)
    && (k in db.media && k in Effect(db, e).media && MediaReturned(db.media[k], Effect(db, e).media[k]) ==>
          SettledBy(db, e).Some?)
  }

  /** One more claim than the policy says, and that one for the content. */
  predicate MediaBounded(m: Media, p: Policy) {
    && m.attempts <= p.totalAttempts + 1
    && (m.attempts > p.totalAttempts ==> m.evidence.Some? && !AtManifest(m) && !m.state.PendingContent?)
    && (m.state.PendingManifest? ==> m.attempts < p.totalAttempts)
  }

  lemma OnlyRetryReturnsMedia(db: Db, e: Event, k: Id)
    requires Inv(db) && SettledBy(db, e).Some? && k in db.media && k in Effect(db, e).media
    requires MediaReturned(db.media[k], Effect(db, e).media[k])
    ensures e.DoRetryMedia? && e.mediaClaim.id == k && RetryMedia(db, e.c, e.mediaClaim, e.delaySeconds).result.Ok?
  {
    hide Inv, Effect, SettledBy;
    SettledRow(db, e);
    if !SettlingMedia(e) {
      assert false;
    }
    assert k == e.mediaClaim.id;
    SettlesAsRetryMedia(db, e);
  }

  lemma SettlesAsRetryMedia(db: Db, e: Event)
    requires SettledBy(db, e).Some? && SettlingMedia(e)
    requires e.mediaClaim.id in db.media && e.mediaClaim.id in Effect(db, e).media
    requires MediaReturned(db.media[e.mediaClaim.id], Effect(db, e).media[e.mediaClaim.id])
    ensures e.DoRetryMedia? && RetryMedia(db, e.c, e.mediaClaim, e.delaySeconds).result.Ok?
  {
    hide Unlease, Free;
  }

  lemma IssuedMediaLease(db: Db, e: Event, k: Id)
    requires Inv(db) && Issues(db, e, k, true)
    ensures SettledBy(db, e).None? && TokenOf(e).Some?
    ensures k in Effect(db, e).media && Effect(db, e).media[k].lease.Some?
    ensures Effect(db, e).media[k].lease.value.token == TokenOf(e).value
  {
    hide Inv, ClaimItem, SweptMedia, ClaimMedia;
    match e
    case DoClaimMedia(c, leaseSeconds, token) => ClaimMediaCases(db, c, leaseSeconds, token);
    case _ =>
  }

  ghost predicate MediaShape(m: Media) {
    && (m.lease.Some? <==> IsLeased(m))
    && (AtContent(m) ==> m.evidence.Some?)
  }

  lemma MediaShapeInDb(db: Db, k: Id)
    requires Inv(db) && k in db.media
    ensures MediaShape(db.media[k])
  {
    assert MediaOk(db.items, db.media[k]);
  }

  /** A claim goes beyond the policy exactly when it is for the content of a manifest acknowledged at its last attempt. */
  lemma MediaBoundedStep(db: Db, e: Event, k: Id, p: Policy)
    requires Inv(db) && Inv(Effect(db, e)) && p.Valid() && (e.DoEnqueueMedia? ==> e.id !in db.media)
    requires TokenOf(e).Some? ==> Unleased(db, TokenOf(e).value)
    requires k in db.media && k in Effect(db, e).media && MediaBounded(db.media[k], p) && MediaAnswers(db, e, k, p)
    ensures MediaBounded(Effect(db, e).media[k], p)
    ensures Effect(db, e).media[k].attempts > p.totalAttempts && db.media[k].attempts <= p.totalAttempts <==>
              Issues(db, e, k, true) && AtContent(db.media[k]) && db.media[k].attempts == p.totalAttempts
  {
    hide Inv, Effect, SettledBy, RetryMedia;
    MediaStepCounts(db, e, k);
    MediaShapeInDb(db, k);
    MediaShapeInDb(Effect(db, e), k);
    if MediaReturned(db.media[k], Effect(db, e).media[k]) {
      OnlyRetryReturnsMedia(db, e, k);
    }
    if Issues(db, e, k, true) {
      IssuedMediaLease(db, e, k);
    }
    hide Issues;
  }

  ghost predicate AllMediaAnswers(es: seq<Event>, k: Id, p: Policy) {
    forall n :: 0 <= n < |es| ==> MediaAnswers(Run(START, es[..n]).db, es[n], k, p)
  }

  lemma MediaAnswersBefore(es: seq<Event>, k: Id, p: Policy)
    requires AllMediaAnswers(es, k, p) && es != []
    ensures AllMediaAnswers(es[..|es| - 1], k, p) && MediaAnswers(Run(START, es[..|es| - 1]).db, es[|es| - 1], k, p)
  {
    hide MediaAnswers, Run;
    var before := es[..|es| - 1];
    forall n | 0 <= n < |before| ensures MediaAnswers(Run(START, before[..n]).db, before[n], k, p) {
      assert before[..n] == es[..n] && before[n] == es[n];
    }
  }

  lemma NewMediaIsBounded(db: Db, e: Event, k: Id, p: Policy)
    requires Inv(db) && (e.DoEnqueueMedia? ==> e.id !in db.media) && p.Valid()
    requires k in Effect(db, e).media && k !in db.media
    ensures MediaBounded(Effect(db, e).media[k], p)
  {
    hide Inv, Effect;
    NewRows(db, e);
    NewMediaIsUnsent(db, e);
  }

  lemma {:induction false} MediaBoundedRun(es: seq<Event>, limits: Limits, k: Id, p: Policy)
    requires AllAllowed(START, es, limits) && p.Valid() && AllMediaAnswers(es, k, p)
    ensures k in Run(START, es).db.media ==> MediaBounded(Run(START, es).db.media[k], p)
    decreases |es|
  {
    hide Run, AllAllowed, WorldInv, Next, Allowed, Effect, Inv, MediaAnswers, AllMediaAnswers, MediaBounded, Unleased;
    NothingKept();
    if es != [] && k in Run(START, es).db.media {
      var before, e := es[..|es| - 1], es[|es| - 1];
      var w := Run(START, before);
      LastStep(es, limits);
      LastIsNew(w, e, limits);
      MediaAnswersBefore(es, k, p);
      MediaBoundedRun(before, limits, k, p);
      TokenIsFree(w, e, limits);
      NextKeeps(w, e, limits);
      InvInWorld(Next(w, e), limits);
      if k in w.db.media {
        MediaBoundedStep(w.db, e, k, p);
      } else {
        NewMediaIsBounded(w.db, e, k, p);
      }
    }
  }

  /** For media it is one claim more: at most `totalAttempts` until the manifest is acknowledged, and if it was
      acknowledged at the last of them, one for the content. */
  lemma MediaClaimsAreBounded(es: seq<Event>, limits: Limits, k: Id, p: Policy)
    requires AllAllowed(START, es, limits) && p.Valid() && AllMediaAnswers(es, k, p)
    ensures Sent(es, k, true) <= p.totalAttempts + 1
    ensures Sent(es, k, true) > p.totalAttempts ==>
              k in Run(START, es).db.media && Run(START, es).db.media[k].evidence.Some?
  {
    hide Run, AllAllowed, AllMediaAnswers, Sent;
    MediaBoundedRun(es, limits, k, p);
    if k in Run(START, es).db.media {
      MediaAttemptsAreClaims(es, limits, k);
    } else {
      UnkeptIsUnsent(es, k, true);
    }
  }

  /** The same of a transient answer for media. */
  lemma TransientMediaAnswersEnd(es: seq<Event>, limits: Limits, c: Call, p: Policy, claim: MediaClaim,
                                 retryAfter: Option<int>)
    requires AllAllowed(START, es, limits) && p.Valid() && AnswerFits(Transient(retryAfter)) && ValidClock(c.now)
    requires claim.binding == c.ref && MediaIsIssued(Run(START, es).db, claim)
    requires MediaStillLeased(Run(START, es).db, c, claim)
    ensures var db := Run(START, es).db;
            var sent := Sent(es, claim.id, true);
            var step := MediaSettlement(db, c, p, claim, Refused(Transient(retryAfter)), true);
            && sent >= 1 && claim.id in step.db.media
            && if sent < p.totalAttempts then
                 && step.result == Ok(Retried(Delay(p, sent, retryAfter)))
                 && (if claim.operation.Manifest? then step.db.media[claim.id].state.PendingManifest?
                     else step.db.media[claim.id].state.PendingContent?)
               else step.result == Ok(Outcome.Blocked) && step.db.media[claim.id].state.MediaBlocked?
  {
    hide Run, AllAllowed, Sent, MediaSettlement, Inv, Delay, WorldInv;
    ReachableInv(es, limits);
    MediaAttemptsAreClaims(es, limits, claim.id);
    MediaAnswerDecides(Run(START, es).db, c, p, claim, Refused(Transient(retryAfter)));
    HeldMediaRow(Run(START, es).db, c, claim);
  }
}
