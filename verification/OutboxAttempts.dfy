/** How often a row is sent: over every run, its attempts are the claims that were issued for it. */
module OutboxAttempts {
  import opened Basics
  import opened OutboxModel
  import opened MediaModel
  import opened OutboxInvariant
  import opened OutboxSteps
  import opened MediaSteps
  import opened OutboxRuns
  import opened OutboxHistory
  import opened OutboxTheorems

  function OneMore(attempts: nat): nat {
    Min(attempts + 1, MAX_ATTEMPTS)
  }

  /** The event issues a claim for this row, of the queue that is meant. */
  ghost predicate Issues(db: Db, e: Event, row: Id, media: bool) {
    var issue := IssuedBy(db, e, 0);
    issue.Some? && issue.value.1.row == row && issue.value.1.media == media
  }

  predicate Kept(db: Db, row: Id, media: bool) {
    if media then row in db.media else row in db.items
  }

  /** The claims that a run from the empty database issued for a row that it keeps, since it came. */
  ghost function Sent(es: seq<Event>, row: Id, media: bool): nat {
    if es == [] || !Kept(Run(START, es).db, row, media) then 0
    else
      var before := es[..|es| - 1];
      Sent(before, row, media) + if Issues(Run(START, before).db, es[|es| - 1], row, media) then 1 else 0
  }

  // ------------------------------------------------------------- one step of one row

  predicate Waits(i: Item) {
    i.state.Pending? || i.state.Leased?
  }

  /** A step counts a claim, and only a claim; a row that does not wait comes back only as a withdrawal, and
      one that is not leased keeps its pause until then. */
  predicate Counts(i: Item, j: Item, issued: bool) {
    && j.attempts == (if issued then OneMore(i.attempts) else i.attempts)
    && (issued ==> j.state.Leased?)
    && (i.operation.Withdrawal? ==> j.operation.Withdrawal?)
    && (Waits(j) && j.operation == i.operation ==> Waits(i))
    && (j.operation == i.operation && i.lease.None? ==> j.next == i.next && (issued || j.lease.None?))
  }

  lemma ChangeCounts(change: Change, id: Id, i: Item)
    ensures Counts(i, ChangeRow(change, id, i), false) && ChangeRow(change, id, i).binding == i.binding
  {
  }

  lemma CountsChain(i: Item, j: Item, l: Item, issued: bool)
    requires Counts(i, j, false) && Counts(j, l, issued)
    ensures Counts(i, l, issued)
  {
  }

  lemma ChangesCount(items: map<Id, Item>, binding: Id, change: Change, k: Id)
    requires k in items
    ensures Counts(items[k], ChangeRows(items, binding, change)[k], false)
  {
    hide ChangeRow;
    ChangeCounts(change, k, items[k]);
  }

  lemma RestoreCounts(i: Item, now: int)
    requires RowShape(i)
    ensures Counts(i, RestoreRow(i, now), false)
  {
  }

  lemma RejectCounts(c: Call, id: Id, i: Item, code: Code)
    ensures Counts(i, RejectRow(c, id, i, code), false)
  {
  }

  lemma BindingStepCounts(db: Db, e: Event, k: Id)
    requires k in db.items && (e.DoSetPaused? || e.DoDisconnect? || e.DoPauseRow? || e.DoExpire?)
    ensures k in Effect(db, e).items && Counts(db.items[k], Effect(db, e).items[k], false)
  {
    hide ChangeRows, Counts;
    SameCounts(db.items[k]);
    match e
    case DoSetPaused(c, _) => ChangesCount(db.items, c.ref.id, Release, k);
    case DoPauseRow(binding) => ChangesCount(db.items, binding, Release, k);
    case DoExpire(c) => ChangesCount(db.items, c.ref.id, Expire(c.key, c.scope, c.now), k);
    case DoDisconnect(c, _) =>
      var withdrawn := ChangeRows(db.items, c.ref.id, Withdraw(c.key, c.scope, LocalExportRemoved, c.now));
      ChangesCount(db.items, c.ref.id, Withdraw(c.key, c.scope, LocalExportRemoved, c.now), k);
      ChangesCount(withdrawn, c.ref.id, Release, k);
      CountsChain(db.items[k], withdrawn[k], ChangeRows(withdrawn, c.ref.id, Release)[k], false);
  }

  lemma SameCounts(i: Item)
    ensures Counts(i, i, false)
  {
  }

  lemma SettlementCounts(db: Db, e: Event, k: Id)
    requires k in db.items && (e.DoRetry? || e.DoAcknowledge? || e.DoReject? || e.DoWithdraw?)
    ensures k in Effect(db, e).items && Counts(db.items[k], Effect(db, e).items[k], false)
  {
    hide RejectRow, WithdrawRow;
    match e
    case DoReject(c, claim, code) => RejectCounts(c, k, db.items[k], code);
    case DoWithdraw(c, _, reason) =>
      ChangeCounts(Withdraw(c.key, c.scope, reason, c.now), k, db.items[k]);
    case _ =>
  }

  lemma SweepCounts(db: Db, c: Call, k: Id)
    requires k in db.items && c.ref.id in db.bindings
    ensures k in Sweep(db, c).items && Counts(db.items[k], Sweep(db, c).items[k], false)
  {
    hide ChangeRows, Counts;
    var expired := ChangeRows(db.items, c.ref.id, Expire(c.key, c.scope, c.now));
    ChangesCount(db.items, c.ref.id, Expire(c.key, c.scope, c.now), k);
    ChangesCount(expired, c.ref.id, Reclaim(c.now), k);
    CountsChain(db.items[k], expired[k], ChangeRows(expired, c.ref.id, Reclaim(c.now))[k], false);
  }

  lemma ClaimCounts(db: Db, c: Call, leaseSeconds: int, token: Id, k: Id)
    requires Inv(db) && k in db.items
    ensures k in ClaimItem(db, c, leaseSeconds, token).db.items
    ensures Counts(db.items[k], ClaimItem(db, c, leaseSeconds, token).db.items[k],
                   Issues(db, DoClaim(c, leaseSeconds, token), k, false))
  {
    hide Inv, ClaimItem, Sweep, Takes, LeaseEnd, Decodes, Counts;
    var r := ClaimItem(db, c, leaseSeconds, token);
    ClaimCases(db, c, leaseSeconds, token);
    SameCounts(db.items[k]);
    if c.ref.id in db.bindings {
      SweepCounts(db, c, k);
    }
    if r.result.Ok? && r.result.value.Some? {
      var id := r.result.value.value.id;
      TakenCounts(db, c, token, id);
      SweepCounts(db, c, k);
      if id == k {
        CountsChain(db.items[k], Sweep(db, c).items[k], r.db.items[k], true);
      }
    }
  }

  lemma TakenCounts(db: Db, c: Call, token: Id, id: Id)
    requires Takes(db, c, id)
    ensures c.ref.id in db.bindings && id in db.items && id in Sweep(db, c).items && Waits(Sweep(db, c).items[id])
    ensures forall until {:trigger LeaseRow(Sweep(db, c).items[id], token, until, c.ref.generation)} ::
              Counts(Sweep(db, c).items[id], LeaseRow(Sweep(db, c).items[id], token, until, c.ref.generation), true)
  {
    hide Sweep;
    SweepCounts(db, c, id);
  }

  lemma RestoredCounts(db: Db, now: int, k: Id)
    requires Inv(db) && k in db.items
    ensures k in MarkRestored(db, now).db.items && Counts(db.items[k], MarkRestored(db, now).db.items[k], false)
  {
    hide Inv, RestoreRow, RestoreMedia, Counts;
    ShapeInDb(db, k);
    SameCounts(db.items[k]);
    RestoreCounts(db.items[k], now);
  }

  lemma OtherCounts(db: Db, e: Event, k: Id)
    requires Inv(db) && k in db.items && k in Effect(db, e).items
    requires e.DoCreate? || e.DoEnqueue? || e.DoPrune? || SettlingMedia(e) || e.DoEnqueueMedia?
             || e.DoClaimMedia? || e.DoReconcile?
    requires e.DoEnqueue? ==> e.id !in db.items
    ensures Counts(db.items[k], Effect(db, e).items[k], false)
  {
    hide Inv, Enqueue, ClaimMedia, EnqueueOverview, SyncParent, Counts, PruneSet, NewItem;
    SameCounts(db.items[k]);
    match e
    case DoEnqueue(c, o, id) => EnqueueCases(db, c, o, id);
    case DoClaimMedia(c, leaseSeconds, token) => MediaClaimRows(db, c, leaseSeconds, token);
    case DoEnqueueMedia(c, parent, frame, id) => EnqueueOverviewCases(db, c, parent, frame, id);
    case _ =>
  }

  /** Over every step, of any kind: the attempts of a row count exactly the claims issued for it. */
  lemma StepCounts(db: Db, e: Event, k: Id)
    requires Inv(db) && k in db.items && k in Effect(db, e).items && (e.DoEnqueue? ==> e.id !in db.items)
    ensures Counts(db.items[k], Effect(db, e).items[k], Issues(db, e, k, false))
  {
    hide Inv, Counts;
    match e
    case DoClaim(c, leaseSeconds, token) => ClaimCounts(db, c, leaseSeconds, token, k);
    case DoSetPaused(_, _) => BindingStepCounts(db, e, k);
    case DoDisconnect(_, _) => BindingStepCounts(db, e, k);
    case DoPauseRow(_) => BindingStepCounts(db, e, k);
    case DoExpire(_) => BindingStepCounts(db, e, k);
    case DoWithdraw(_, _, _) => SettlementCounts(db, e, k);
    case DoRetry(_, _, _) => SettlementCounts(db, e, k);
    case DoAcknowledge(_, _, _) => SettlementCounts(db, e, k);
    case DoReject(_, _, _) => SettlementCounts(db, e, k);
    case DoRestore(now) => RestoredCounts(db, now, k);
    case _ => OtherCounts(db, e, k);
    hide Effect;
  }

  /** A claim counts one attempt of the row it takes, and none of any other row. */
  lemma ClaimCountsOnce(db: Db, c: Call, leaseSeconds: int, token: Id)
    requires Inv(db)
    requires ClaimItem(db, c, leaseSeconds, token).result.Ok?
    requires ClaimItem(db, c, leaseSeconds, token).result.value.Some?
    ensures var r := ClaimItem(db, c, leaseSeconds, token);
            var id := r.result.value.value.id;
            && id in db.items && r.db.items.Keys == db.items.Keys
            && r.db.items[id].attempts == Min(db.items[id].attempts + 1, MAX_ATTEMPTS) && r.db.items[id].everAttempted
            && (forall k :: k in db.items && k != id ==> r.db.items[k].attempts == db.items[k].attempts)
  {
    hide Inv, ClaimItem, Sweep, LeaseEnd;
    ClaimCases(db, c, leaseSeconds, token);
    ClaimRows(db, c, leaseSeconds, token);
    forall k | k in db.items
      ensures Counts(db.items[k], ClaimItem(db, c, leaseSeconds, token).db.items[k],
                     Issues(db, DoClaim(c, leaseSeconds, token), k, false))
    {
      ClaimCounts(db, c, leaseSeconds, token, k);
    }
  }

  // -------------------------------------------------------- one step of one media row

  predicate AtManifest(m: Media) {
    m.state.PendingManifest? || m.state.LeasedManifest?
  }

  predicate AtContent(m: Media) {
    m.state.PendingContent? || m.state.LeasedContent?
  }

  /** A step counts a claim, and only a claim; the content is reached from a manifest that was being sent. */
  predicate MediaCounts(m: Media, n: Media, issued: bool) {
    && n.attempts == (if issued then OneMore(m.attempts) else m.attempts)
    && (issued ==> IsLeased(n))
    && (m.evidence.Some? ==> n.evidence == m.evidence)
    && (AtManifest(n) ==> AtManifest(m))
    && (AtContent(n) ==> AtContent(m) || (n.state.PendingContent? && m.state.LeasedManifest?))
    && (m.lease.None? ==> n.next == m.next && (issued || n.lease.None?))
  }

  lemma MirrorCounts(m: Media, p: Item, now: int)
    ensures MediaCounts(m, SyncRow(m, p, now), false) && (AtContent(SyncRow(m, p, now)) ==> AtContent(m))
  {
  }

  lemma UnleaseCounts(m: Media)
    ensures MediaCounts(m, Unlease(m), false) && MediaCounts(m, m, false) && (AtContent(Unlease(m)) ==> AtContent(m))
  {
  }

  lemma MediaSweepCounts(db: Db, c: Call, m: Id)
    requires m in db.media
    ensures m in SyncParent(db, c.ref.id, c.now)
    ensures MediaCounts(db.media[m], SyncParent(db, c.ref.id, c.now)[m], false)
    ensures m in SweptMedia(db, c).media && MediaCounts(db.media[m], SweptMedia(db, c).media[m], false)
    ensures AtContent(SweptMedia(db, c).media[m]) ==> AtContent(db.media[m])
  {
    hide SyncRow, Unlease;
    UnleaseCounts(db.media[m]);
    if db.media[m].parent in db.items {
      MirrorCounts(db.media[m], db.items[db.media[m].parent], c.now);
    }
    UnleaseCounts(SyncParent(db, c.ref.id, c.now)[m]);
  }

  lemma MediaClaimCounts(db: Db, c: Call, leaseSeconds: int, token: Id, m: Id)
    requires m in db.media
    ensures m in ClaimMedia(db, c, leaseSeconds, token).db.media
    ensures MediaCounts(db.media[m], ClaimMedia(db, c, leaseSeconds, token).db.media[m],
                        Issues(db, DoClaimMedia(c, leaseSeconds, token), m, true))
  {
    hide ClaimMedia, SweptMedia, SyncParent;
    ClaimMediaCases(db, c, leaseSeconds, token);
    MediaSweepCounts(db, c, m);
  }

  lemma MediaSettlementCounts(db: Db, e: Event, m: Id)
    requires m in db.media && SettlingMedia(e)
    ensures m in Effect(db, e).media && MediaCounts(db.media[m], Effect(db, e).media[m], false)
  {
    hide MediaCounts, MediaLeaseError, Unlease;
    UnleaseCounts(db.media[m]);
    match e
    case DoRetryMedia(c, claim, delay) => RetriedMediaCounts(db, c, claim, delay, m);
    case DoAcknowledgeManifest(c, claim, evidence, upload, ready) =>
      ManifestCounts(db, c, claim, evidence, upload, ready, m);
    case DoAcknowledgeContent(c, claim, evidence, ready) => EndedMediaCounts(db.media[m]);
    case DoRejectMedia(c, claim, code) => EndedMediaCounts(db.media[m]);
    case _ =>
  }

  lemma RetriedMediaCounts(db: Db, c: Call, claim: MediaClaim, delay: int, m: Id)
    requires m in db.media
    ensures m in RetryMedia(db, c, claim, delay).db.media
    ensures MediaCounts(db.media[m], RetryMedia(db, c, claim, delay).db.media[m], false)
  {
  }

  lemma ManifestCounts(db: Db, c: Call, claim: MediaClaim, evidence: Id, upload: bool, ready: bool, m: Id)
    requires m in db.media
    ensures m in AcknowledgeManifest(db, c, claim, evidence, upload, ready).db.media
    ensures MediaCounts(db.media[m], AcknowledgeManifest(db, c, claim, evidence, upload, ready).db.media[m], false)
  {
  }

  lemma EndedMediaCounts(m: Media)
    ensures forall n: Media {:trigger MediaCounts(m, n, false)} ::
              n.attempts == m.attempts && n.evidence == m.evidence && n.next == m.next && n.lease.None?
              && (n.state.MediaReady? || n.state.MediaBlocked?) ==>
                MediaCounts(m, n, false)
  {
  }

  lemma RestoredMediaCounts(m: Media, now: int)
    ensures MediaCounts(m, RestoreMedia(m, now), false)
  {
  }

  lemma OtherMediaCounts(db: Db, e: Event, m: Id)
    requires Inv(db) && m in db.media && m in Effect(db, e).media && (e.DoRestore? || e.DoEnqueueMedia? || e.DoReconcile?)
    requires e.DoEnqueueMedia? ==> e.id !in db.media
    ensures MediaCounts(db.media[m], Effect(db, e).media[m], false)
  {
    hide Inv, RestoreMedia, EnqueueOverview, SyncParent;
    match e
    case DoRestore(now) => RestoredMediaCounts(db.media[m], now);
    case DoReconcile(c) => MediaSweepCounts(db, c, m);
    case DoEnqueueMedia(c, parent, frame, id) => EnqueueOverviewCases(db, c, parent, frame, id);
  }

  lemma MediaStepCounts(db: Db, e: Event, m: Id)
    requires Inv(db) && m in db.media && m in Effect(db, e).media && (e.DoEnqueueMedia? ==> e.id !in db.media)
    ensures MediaCounts(db.media[m], Effect(db, e).media[m], Issues(db, e, m, true))
  {
    hide Inv, Effect, MediaCounts;
    if SettlingMedia(e) {
      MediaSettlementCounts(db, e, m);
    } else if e.DoClaimMedia? {
      MediaClaimIssues(db, e, m);
    } else if e.DoRestore? || e.DoEnqueueMedia? || e.DoReconcile? {
      OtherMediaCounts(db, e, m);
    } else {
      NoMediaStep(db, e);
      SameMediaCounts(db.media[m]);
    }
  }

  lemma MediaClaimIssues(db: Db, e: Event, m: Id)
    requires m in db.media && e.DoClaimMedia?
    ensures m in Effect(db, e).media && MediaCounts(db.media[m], Effect(db, e).media[m], Issues(db, e, m, true))
  {
    hide MediaCounts, ClaimMedia;
    MediaClaimCounts(db, e.c, e.leaseSeconds, e.token, m);
  }

  lemma SameMediaCounts(m: Media)
    ensures MediaCounts(m, m, false)
  {
  }

  lemma NoMediaStep(db: Db, e: Event)
    requires Inv(db)
    requires !SettlingMedia(e) && !e.DoClaimMedia? && !e.DoRestore? && !e.DoEnqueueMedia? && !e.DoReconcile?
    ensures Effect(db, e).media == db.media
  {
    hide Inv, Enqueue, ClaimItem;
    match e
    case DoEnqueue(c, o, id) => EnqueueCases(db, c, o, id);
    case DoClaim(c, leaseSeconds, token) => ClaimRows(db, c, leaseSeconds, token);
    case _ =>
  }

  // ------------------------------------------------------------------- over whole runs

  /** The last event of a run, and the world before it. */
  lemma LastStep(es: seq<Event>, limits: Limits)
    requires AllAllowed(START, es, limits) && es != []
    ensures var before := es[..|es| - 1];
            && AllAllowed(START, before, limits) && WorldInv(Run(START, before), limits)
            && Allowed(Run(START, before), es[|es| - 1], limits)
            && Run(START, es) == Next(Run(START, before), es[|es| - 1])
            && Run(START, es).db == Effect(Run(START, before).db, es[|es| - 1])
  {
    hide WorldInv, Next, Allowed, Effect;
    var before, e := es[..|es| - 1], es[|es| - 1];
    assert es == before + [e];
    Reached(before, [e], limits);
    RunAppend(START, before, [e], limits);
    RunOne(Run(START, before), e);
    assert [e][1..] == [];
    NextDb(Run(START, before), e);
  }

  lemma LastIsNew(w: World, e: Event, limits: Limits)
    requires WorldInv(w, limits) && Allowed(w, e, limits)
    ensures Inv(w.db) && (e.DoEnqueue? ==> e.id !in w.db.items) && (e.DoEnqueueMedia? ==> e.id !in w.db.media)
  {
    AllowedMeans(w, e, limits);
    hide Inv, Succeeds, Leases, InFlight, Within;
  }

  lemma IssuedRowIsKept(db: Db, e: Event, row: Id, media: bool)
    requires Inv(db) && Issues(db, e, row, media)
    ensures Kept(db, row, media)
  {
    hide Inv, ClaimItem, ClaimMedia, Sweep, SweptMedia;
    match e
    case DoClaim(c, leaseSeconds, token) => ClaimCases(db, c, leaseSeconds, token);
    case DoClaimMedia(c, leaseSeconds, token) => ClaimMediaCases(db, c, leaseSeconds, token);
    case _ =>
  }

  lemma NewRowIsUnsent(db: Db, e: Event, row: Id)
    requires Inv(db) && (e.DoEnqueue? ==> e.id !in db.items) && (e.DoEnqueueMedia? ==> e.id !in db.media)
    ensures row in Effect(db, e).items && row !in db.items ==> Effect(db, e).items[row].attempts == 0
    ensures row in Effect(db, e).media && row !in db.media ==> Effect(db, e).media[row].attempts == 0
  {
    hide Inv, Effect;
    AddedRow(db, e);
    NewRows(db, e);
    if e.DoEnqueueMedia? {
      NewMediaIsUnsent(db, e);
    }
  }

  lemma NewMediaIsUnsent(db: Db, e: Event)
    requires e.DoEnqueueMedia? && e.id !in db.media
    ensures e.id in Effect(db, e).media ==> Effect(db, e).media[e.id].attempts == 0
  {
    hide EnqueueOverview;
    EnqueueOverviewCases(db, e.c, e.parent, e.frame, e.id);
  }

  lemma SentStep(es: seq<Event>, row: Id, media: bool)
    requires es != []
    ensures var before := es[..|es| - 1];
            Kept(Run(START, es).db, row, media) ==>
              Sent(es, row, media)
                == Sent(before, row, media) + if Issues(Run(START, before).db, es[|es| - 1], row, media) then 1 else 0
    ensures !Kept(Run(START, es).db, row, media) ==> Sent(es, row, media) == 0
  {
    hide Run, Issues, Kept;
  }

  /** In every reachable world the attempts of a row are the number of claims that were issued for it. */
  lemma {:induction false} AttemptsAreClaims(es: seq<Event>, limits: Limits, row: Id)
    requires AllAllowed(START, es, limits) && row in Run(START, es).db.items
    ensures Run(START, es).db.items[row].attempts == Min(Sent(es, row, false), MAX_ATTEMPTS)
    decreases |es|
  {
    hide Run, AllAllowed, WorldInv, Next, Allowed, Effect, Issues, Sent, Inv;
    NothingKept();
    if es != [] {
      var before, e := es[..|es| - 1], es[|es| - 1];
      var w := Run(START, before);
      LastStep(es, limits);
      LastIsNew(w, e, limits);
      SentStep(es, row, false);
      if row in w.db.items {
        AttemptsAreClaims(before, limits, row);
        StepCounts(w.db, e, row);
      } else {
        NewRowIsUnsent(w.db, e, row);
        UnkeptIsUnsent(before, row, false);
        if Issues(w.db, e, row, false) {
          IssuedRowIsKept(w.db, e, row, false);
          assert false;
        }
      }
    }
  }

  lemma NothingKept()
    ensures Run(START, []) == START
  {
  }

  lemma UnkeptIsUnsent(es: seq<Event>, row: Id, media: bool)
    requires !Kept(Run(START, es).db, row, media)
    ensures Sent(es, row, media) == 0
  {
  }

  /** So are those of a media row. */
  lemma {:induction false} MediaAttemptsAreClaims(es: seq<Event>, limits: Limits, row: Id)
    requires AllAllowed(START, es, limits) && row in Run(START, es).db.media
    ensures Run(START, es).db.media[row].attempts == Min(Sent(es, row, true), MAX_ATTEMPTS)
    decreases |es|
  {
    hide Run, AllAllowed, WorldInv, Next, Allowed, Effect, Issues, Sent, Inv;
    NothingKept();
    if es != [] {
      var before, e := es[..|es| - 1], es[|es| - 1];
      var w := Run(START, before);
      LastStep(es, limits);
      LastIsNew(w, e, limits);
      SentStep(es, row, true);
      if row in w.db.media {
        MediaAttemptsAreClaims(before, limits, row);
        MediaStepCounts(w.db, e, row);
      } else {
        NewRowIsUnsent(w.db, e, row);
        UnkeptIsUnsent(before, row, true);
        if Issues(w.db, e, row, true) {
          IssuedRowIsKept(w.db, e, row, true);
          assert false;
        }
      }
    }
  }
}
