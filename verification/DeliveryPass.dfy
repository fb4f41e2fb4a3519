/** One transaction of the sender: look again, mirror, prune, and only then claim. What refuses
    the pruning therefore stops every delivery of the binding. */
module DeliveryPass {
  import opened Basics
  import opened OutboxModel
  import opened MediaModel
  import opened OutboxInvariant
  import opened OutboxSteps
  import opened MediaSteps
  import opened OutboxRuns
  import opened OutboxTheorems
  import opened OutboxRetention
  import opened DeliveryModel

  // --------------------------------------------------- looking again changes no old row

  ghost predicate ReadsEligible(db: Db, binding: Id, page: seq<Id>) {
    forall n :: 0 <= n < |page| ==> page[n] in db.items && IsEligible(db.items[page[n]], binding)
  }

  /** The tables after the page was looked at, before mirroring and pruning. */
  ghost function Read(db: Db, c: Call, page: seq<Id>, source: Entity -> SourceState): Db
    requires c.ref.id in db.bindings
  {
    Touch(db, c).(items := Examine(db.items, c, page, source))
  }

  lemma ExamineRowKeeps(b: Binding, c: Call, id: Id, i: Item, source: Entity -> SourceState)
    requires RowFits(b, id, i) && b.clock <= c.now && b.key == c.key && b.scope == c.scope
    ensures var j := ExamineRow(c, id, i, source);
            RowFits(b.(clock := c.now), id, j) && RowEvolves(i, j) && LeaseKept(i, j, None)
  {
    hide RowFits, RowEvolves, LeaseKept, WithdrawRow;
    var reason := SourceReason(i, source, c.now);
    if reason.Some? {
      WithdrawRowKeeps(b, id, i, reason.value, c.now);
    } else {
      KeptRow(b, c, id, i);
    }
  }

  lemma KeptRow(b: Binding, c: Call, id: Id, i: Item)
    requires RowFits(b, id, i) && b.clock <= c.now
    ensures RowFits(b.(clock := c.now), id, i) && RowEvolves(i, i) && LeaseKept(i, i, None)
  {
    BindingMovesOn(b, b.(clock := c.now), id, i);
  }

  lemma ReadKeeps(db: Db, c: Call, page: seq<Id>, source: Entity -> SourceState)
    requires Inv(db) && Open(db, c).Ok? && ReadsEligible(db, c.ref.id, page)
    ensures Inv(Read(db, c, page, source)) && Open(Read(db, c, page, source), c).Ok?
  {
    hide RowFits, RowEvolves, LeaseKept, ExamineRow, BindingsOk, AllMediaOk, UniqueEntities;
    var b := db.bindings[c.ref.id];
    var db' := Read(db, c, page, source);
    TouchEvolves(db, c);
    GenerationsAreCounted(db, c.ref.id);
    forall k | k in db.items && db.items[k].binding == c.ref.id
      ensures RowFits(db'.bindings[c.ref.id], k, db'.items[k]) && RowEvolves(db.items[k], db'.items[k])
              && LeaseKept(db.items[k], db'.items[k], None)
    {
      assert RowOk(db.bindings, k, db.items[k]);
      if k in page {
        ExamineRowKeeps(b, c, k, db.items[k], source);
      } else {
        KeptRow(b, c, k, db.items[k]);
      }
    }
    StepOnBinding(db, db', c.ref.id, None);
  }

  /** What was withdrawn just now is too young to be pruned, and what is eligible is not spent. */
  lemma SameSelection(db: Db, c: Call, page: seq<Id>, source: Entity -> SourceState, limit: nat)
    requires Inv(db) && Open(db, c).Ok? && ReadsEligible(db, c.ref.id, page)
    ensures PruneSet(Read(db, c, page, source), c, limit) == PruneSet(db, c, limit)
  {
    hide Inv, First, ExamineRow, Prunable;
    var db' := Read(db, c, page, source);
    var cutoff := c.now - 31 * DAY_MS;
    forall k | k in db.items
      ensures Prunable(db'.items[k], c.ref.id, cutoff) == Prunable(db.items[k], c.ref.id, cutoff)
      ensures Prunable(db.items[k], c.ref.id, cutoff) ==> db'.items[k] == db.items[k]
    {
      if k in page {
        ShapeInDb(db, k);
        ExaminedRow(c, k, db.items[k], source);
        EligibleIsNotSpent(db.items[k], c.ref.id, cutoff);
      }
    }
    PrunableHasTerminal(db, c.ref.id, cutoff);
    PrunableHasTerminal(db', c.ref.id, cutoff);
    assert PruneKeys(db'.items, c.ref.id, cutoff) == PruneKeys(db.items, c.ref.id, cutoff);
  }

  lemma PrunableHasTerminal(db: Db, binding: Id, cutoff: int)
    ensures forall k :: k in db.items && Prunable(db.items[k], binding, cutoff) ==> db.items[k].terminal.Some?
  {
  }

  lemma EligibleIsNotSpent(i: Item, binding: Id, cutoff: int)
    requires IsEligible(i, binding)
    ensures !Prunable(i, binding, cutoff)
  {
  }

  /** The pass over any page of eligible rows is refused exactly when mirroring and pruning alone would be. */
  lemma PassBlockedExactly(db: Db, c: Call, page: seq<Id>, source: Entity -> SourceState)
    requires Inv(db) && Open(db, c).Ok? && ReadsEligible(db, c.ref.id, page)
    ensures PassOver(db, c, page, source).result.Err? <==> ReconcileThenPrune(db, c, 100).result == Err(ForeignKeyHeld)
    ensures PassOver(db, c, page, source).result.Err? ==> PassOver(db, c, page, source) == Step(db, Err(ForeignKeyHeld))
  {
    hide Inv, PruneSet, ReconcileThenPrune, Examine;
    var db' := Read(db, c, page, source);
    ReadKeeps(db, c, page, source);
    SameSelection(db, c, page, source, 100);
    PruneBlockedExactly(db, c, 100);
    PruneBlockedExactly(db', c, 100);
    OnlyTheKeyRefuses(db', c, 100);
  }

  lemma OnlyTheKeyRefuses(db: Db, c: Call, limit: int)
    requires Open(db, c).Ok? && 1 <= limit <= 1000
    ensures ReconcileThenPrune(db, c, limit).result.Err? ==>
              ReconcileThenPrune(db, c, limit).result == Err(ForeignKeyHeld)
  {
    hide PruneSet, SyncParent;
  }

  // ------------------------------------------------------------------ the transaction

  datatype Request = NoRequest | ItemRequest(claim: Claim) | MediaRequest(mediaClaim: MediaClaim)

  /** The pass and, only if it is accepted, one claim: of an item, or else of media when media is sent at all. */
  ghost function Transaction(db: Db, c: Call, p: Policy, page: seq<Id>, source: Entity -> SourceState,
                             token: Id, sendsMedia: bool): Step<Request> {
    var pass := PassOver(db, c, page, source);
    if pass.result.Err? then Step(db, Err(pass.result.error))
    else
      var item := ClaimItem(pass.db, c, p.leaseSeconds, token);
      if item.result.Err? then Step(db, Err(item.result.error))
      else if item.result.value.Some? then Step(item.db, Ok(ItemRequest(item.result.value.value)))
      else if !sendsMedia then Step(item.db, Ok(NoRequest))
      else
        var media := ClaimMedia(item.db, c, p.leaseSeconds, token);
        if media.result.Err? then Step(db, Err(media.result.error))
        else if media.result.value.Some? then Step(media.db, Ok(MediaRequest(media.result.value.value)))
        else Step(media.db, Ok(NoRequest))
  }

  lemma MediaClaimReadsNoKey(db: Db, c: Call, limits: Limits, leaseSeconds: int, token: Id)
    ensures ClaimMedia(db, Call(0, limits, c.scope, c.ref, c.now), leaseSeconds, token) == ClaimMedia(db, c, leaseSeconds, token)
  {
  }

  datatype Attempt = Attempt(now: int, page: seq<Id>, source: Entity -> SourceState, token: Id)

  /** The tables after the sender tried again and again. */
  ghost function AfterAttempts(db: Db, c: Call, p: Policy, sendsMedia: bool, attempts: seq<Attempt>): Db
    decreases |attempts|
  {
    if attempts == [] then db
    else
      var a := attempts[0];
      AfterAttempts(Transaction(db, c.(now := a.now), p, a.page, a.source, a.token, sendsMedia).db, c, p, sendsMedia,
                    attempts[1..])
  }

  ghost predicate IsAttempt(db: Db, c: Call, a: Attempt) {
    c.now <= a.now && ValidClock(a.now) && ReadsEligible(db, c.ref.id, a.page)
  }

  /** A selected parent with a reference that nobody mirrored stops the delivery of its binding for good: every
      later transaction of the sender is refused before it claims anything, undoes its own mirroring, and so
      finds what it found before. */
  lemma {:induction false} DeliveryStops(db: Db, c: Call, p: Policy, sendsMedia: bool, attempts: seq<Attempt>, m: Id)
    requires Inv(db) && Open(db, c).Ok?
    requires m in db.media && db.media[m].terminal.None? && db.media[m].parent in PruneSet(db, c, 100)
    requires forall i :: 0 <= i < |attempts| ==> IsAttempt(db, c, attempts[i])
    ensures AfterAttempts(db, c, p, sendsMedia, attempts) == db
    ensures forall i | 0 <= i < |attempts| ::
              var a := attempts[i];
              Transaction(db, c.(now := a.now), p, a.page, a.source, a.token, sendsMedia).result == Err(ForeignKeyHeld)
    decreases |attempts|
  {
    hide Inv, PruneSet, PassOver, ClaimItem, ClaimMedia, Open, ReadsEligible;
    if attempts != [] {
      var a := attempts[0];
      var later := c.(now := a.now);
      assert IsAttempt(db, c, a);
      OpensLater(db, c, a.now);
      BlockedForGood(db, c, later, 100, m);
      PassBlockedExactly(db, later, a.page, a.source);
      DeliveryStops(db, c, p, sendsMedia, attempts[1..], m);
      assert forall i :: 1 <= i < |attempts| ==> attempts[i] == attempts[1..][i - 1];
    }
  }

  lemma OpensLater(db: Db, c: Call, now: int)
    requires Open(db, c).Ok? && c.now <= now && ValidClock(now)
    ensures Open(db, c.(now := now)).Ok?
  {
  }

  /** Where every reference was reconciled in time, no transaction of a reachable world is refused by the key. */
  lemma ReconciledDeliveryGoesOn(es: seq<Event>, limits: Limits, c: Call, page: seq<Id>, source: Entity -> SourceState)
    requires AllAllowed(START, es, limits) && OpenBinding(Run(START, es).db, c.ref.id)
    requires Open(Run(START, es).db, c).Ok? && ReadsEligible(Run(START, es).db, c.ref.id, page)
    requires AllReconciledInTime(es, PruneSet(Run(START, es).db, c, 100), c.ref.id)
    ensures PassOver(Run(START, es).db, c, page, source).result.Ok?
  {
    hide Run, AllAllowed, AllReconciledInTime, PruneSet, PassOver, Open, Inv, OpenBinding, ReadsEligible;
    ReachableInv(es, limits);
    ReconciledPassIsAccepted(es, limits, c, 100);
    PassBlockedExactly(Run(START, es).db, c, page, source);
  }
}
