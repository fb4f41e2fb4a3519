/** The fencing promise over whole runs: what takes a claim's lease away refuses, from then on,
    everything that is ever done with that claim. */
module OutboxFencing {
  import opened Basics
  import opened OutboxModel
  import opened MediaModel
  import opened OutboxInvariant
  import opened OutboxSteps
  import opened MediaSteps
  import opened OutboxRuns
  import opened OutboxHistory
  import opened OutboxTheorems

  // ------------------------------------------------------------------- the stops

  /** The observation's deadline is reached. */
  predicate Due(i: Item, now: int) {
    i.operation.Observation? && i.deadline <= now
  }

  predicate Overdue(lease: Option<Lease>, now: int) {
    lease.Some? && lease.value.until <= now
  }

  /** What stops the delivery of a row: a pause, resume or disconnection of its binding, its withdrawal
      or expiry, a claim that finds its lease overdue, and a restore. */
  ghost predicate StopsItem(db: Db, e: Event, k: Id)
    requires k in db.items
  {
    var i := db.items[k];
    match e
    case DoSetPaused(c, paused) =>
      c.ref.id == i.binding && SetPaused(db, c, paused).result.Ok? && SetPaused(db, c, paused).result.value != c.ref
    case DoDisconnect(c, restored) => c.ref.id == i.binding && Disconnect(db, c, restored).result.Ok?
    case DoPauseRow(binding) => binding == i.binding && PauseRow(db, binding).result.Ok?
    case DoWithdraw(c, id, reason) =>
      id == k && i.operation.Observation? && WithdrawItem(db, c, id, reason).result.Ok?
    case DoExpire(c) => c.ref.id == i.binding && ExpireItems(db, c).result.Ok? && Due(i, c.now)
    case DoClaim(c, leaseSeconds, token) =>
      && c.ref.id == i.binding && ClaimItem(db, c, leaseSeconds, token).result.Ok?
      && (Due(i, c.now) || Overdue(i.lease, c.now))
    case DoRestore(now) => MarkRestored(db, now).result.Ok?
    case _ => false
  }

  /** Media of this parent is not wanted any more. */
  predicate Over(p: Item) {
    p.operation.Withdrawal? || p.state.Withdrawn? || p.state.Cancelled? || p.state.Expired? || p.state.Blocked?
  }

  /** The binding takes part in a media claim. */
  predicate Serves(db: Db, c: Call) {
    && c.ref.id in db.bindings && db.bindings[c.ref.id].scope == c.scope
    && db.bindings[c.ref.id].generation == c.ref.generation && db.bindings[c.ref.id].Live()
  }

  /** What stops the delivery of a media row: not a pause, but the first mirroring after its observation
      was withdrawn, a media claim that finds its lease overdue, and a restore. */
  ghost predicate StopsMedia(db: Db, e: Event, m: Id)
    requires m in db.media
  {
    var n := db.media[m];
    var over := n.parent in db.items && Over(db.items[n.parent]);
    match e
    case DoReconcile(c) => c.ref.id == n.binding && Reconcile(db, c).result.Ok? && over
    case DoClaimMedia(c, leaseSeconds, token) =>
      && c.ref.id == n.binding && Serves(db, c) && ClaimMedia(db, c, leaseSeconds, token).result.Ok?
      && (over || Overdue(n.lease, c.now))
    case DoRestore(now) => MarkRestored(db, now).result.Ok?
    case _ => false
  }

  /** The row that this token was issued for is stopped, or does not exist any more. */
  ghost predicate Stops(w: World, e: Event, t: Id)
    requires t in w.issued
  {
    var row := w.issued[t].row;
    if w.issued[t].media
    then row in w.db.media ==> StopsMedia(w.db, e, row)
    else row in w.db.items ==> StopsItem(w.db, e, row)
  }

  // --------------------------------------------------------- a stop drops the lease

  /** A lease of this row, if any, is the one that the event itself issued. */
  predicate OnlyNew(lease: Option<Lease>, token: Option<Id>) {
    lease.Some? ==> token == Some(lease.value.token)
  }

  lemma ClosedRow(db: Db, k: Id)
    requires Inv(db) && k in db.items
    ensures db.items[k].binding in db.bindings
    ensures !db.bindings[db.items[k].binding].Live() ==> db.items[k].lease.None?
  {
    assert RowOk(db.bindings, k, db.items[k]);
  }

  lemma ReleasedPlace(i: Item)
    ensures ReleaseRow(i).binding == i.binding
  {
  }

  lemma BindingStopDrops(db: Db, e: Event, k: Id)
    requires Inv(db) && k in db.items && StopsItem(db, e, k)
    requires e.DoSetPaused? || e.DoDisconnect? || e.DoPauseRow?
    ensures k in Effect(db, e).items && Effect(db, e).items[k].lease.None?
  {
    hide Inv, RowShape, ReleaseRow, WithdrawRow;
    ClosedRow(db, k);
    ReleasedRows(db, db.items[k].binding);
    ReleasedPlace(db.items[k]);
    if e.DoDisconnect? {
      DisconnectedRows(db, e.c);
      ShapeInDb(db, k);
      WithdrawnRow(db.items[k], e.c.key, e.c.scope, k, LocalExportRemoved, e.c.now);
      ReleasedPlace(WithdrawRow(e.c.key, e.c.scope, k, db.items[k], LocalExportRemoved, e.c.now));
    }
  }

  lemma RowStopDrops(db: Db, e: Event, k: Id)
    requires Inv(db) && k in db.items && StopsItem(db, e, k) && (e.DoWithdraw? || e.DoExpire?)
    ensures k in Effect(db, e).items && Effect(db, e).items[k].lease.None?
  {
    hide Inv, RowShape, WithdrawRow;
    ShapeInDb(db, k);
    var i := db.items[k];
    match e
    case DoWithdraw(c, _, reason) => WithdrawnRow(i, c.key, c.scope, k, reason, c.now);
    case DoExpire(c) => WithdrawnRow(i, c.key, c.scope, k, LocalExpired, c.now);
  }

  lemma SweepDrops(db: Db, c: Call, k: Id)
    requires Inv(db) && k in db.items && db.items[k].binding == c.ref.id && c.ref.id in db.bindings
    requires Due(db.items[k], c.now) || Overdue(db.items[k].lease, c.now)
    ensures k in Sweep(db, c).items && Sweep(db, c).items[k].lease.None?
  {
    hide Inv, RowShape, WithdrawRow;
    ShapeInDb(db, k);
    WithdrawnRow(db.items[k], c.key, c.scope, k, LocalExpired, c.now);
  }

  lemma LeasedTo(i: Item, token: Id)
    ensures forall until, generation {:trigger LeaseRow(i, token, until, generation)} ::
              OnlyNew(LeaseRow(i, token, until, generation).lease, Some(token))
  {
  }

  lemma ClaimDrops(db: Db, c: Call, leaseSeconds: int, token: Id, k: Id)
    requires Inv(db) && k in db.items && db.items[k].binding == c.ref.id
    requires ClaimItem(db, c, leaseSeconds, token).result.Ok?
    requires Due(db.items[k], c.now) || Overdue(db.items[k].lease, c.now)
    ensures var db' := ClaimItem(db, c, leaseSeconds, token).db;
            k in db'.items && OnlyNew(db'.items[k].lease, Some(token))
  {
    hide Inv, Sweep, ClaimItem, Takes, Open, Due, Overdue, LeaseRow, LeaseEnd;
    ClosedRow(db, k);
    SweepDrops(db, c, k);
    ClaimCases(db, c, leaseSeconds, token);
    LeasedTo(Sweep(db, c).items[k], token);
  }

  lemma RestoreDrops(db: Db, now: int)
    requires Inv(db) && MarkRestored(db, now).result.Ok?
    ensures var db' := MarkRestored(db, now).db;
            && (forall k :: k in db'.items ==> db'.items[k].lease.None?)
            && (forall m :: m in db'.media ==> db'.media[m].lease.None?)
  {
    RestoreFences(db, now);
    hide Inv, RestoreRow, RestoreMedia;
  }

  lemma ItemStopDrops(db: Db, e: Event, k: Id)
    requires Inv(db) && k in db.items && StopsItem(db, e, k)
    ensures k in Effect(db, e).items ==> OnlyNew(Effect(db, e).items[k].lease, TokenOf(e))
  {
    hide Inv;
    if e.DoSetPaused? || e.DoDisconnect? || e.DoPauseRow? {
      BindingStopDrops(db, e, k);
    } else if e.DoWithdraw? || e.DoExpire? {
      RowStopDrops(db, e, k);
    } else if e.DoClaim? {
      ClaimDrops(db, e.c, e.leaseSeconds, e.token, k);
    } else {
      RestoreDrops(db, e.now);
    }
    hide Effect, StopsItem;
  }

  lemma MirrorDrops(p: Item, n: Media, now: int)
    requires MediaFits(p, n)
    ensures Over(p) ==> SyncRow(n, p, now).lease.None?
    ensures Over(p) || Overdue(n.lease, now) ==>
              var s := SyncRow(n, p, now);
              s.lease.Some? ==> s.lease.value.until <= now && Unlease(s).lease.None?
  {
  }

  lemma MediaSweepDrops(db: Db, c: Call, m: Id)
    requires Inv(db) && m in db.media && db.media[m].binding == c.ref.id
    ensures db.media[m].parent in db.items && m in SyncParent(db, c.ref.id, c.now)
    ensures Over(db.items[db.media[m].parent]) ==> SyncParent(db, c.ref.id, c.now)[m].lease.None?
    ensures m in SweptMedia(db, c).media
    ensures Over(db.items[db.media[m].parent]) || Overdue(db.media[m].lease, c.now) ==>
              SweptMedia(db, c).media[m].lease.None?
  {
    assert MediaOk(db.items, db.media[m]);
    MirrorDrops(db.items[db.media[m].parent], db.media[m], c.now);
    hide Inv, SyncRow, Over;
    SyncRowKeeps(db.items[db.media[m].parent], db.media[m], c.now);
  }

  lemma MediaClaimDrops(db: Db, c: Call, leaseSeconds: int, token: Id, m: Id)
    requires Inv(db) && m in db.media
    requires StopsMedia(db, DoClaimMedia(c, leaseSeconds, token), m)
    ensures var db' := ClaimMedia(db, c, leaseSeconds, token).db;
            m in db'.media && OnlyNew(db'.media[m].lease, Some(token))
  {
    hide Inv, SweptMedia, ClaimMedia, Over, IsMediaDue, Serves, SyncParent;
    MediaSweepDrops(db, c, m);
    ServedMeans(db, c, leaseSeconds, token);
    ClaimMediaCases(db, c, leaseSeconds, token);
  }

  lemma ServedMeans(db: Db, c: Call, leaseSeconds: int, token: Id)
    requires Serves(db, c) && ClaimMedia(db, c, leaseSeconds, token).result.Ok?
    ensures ClaimMedia(db, c, leaseSeconds, token).result.value.None? ==>
              ClaimMedia(db, c, leaseSeconds, token).db == SweptMedia(db, c)
  {
  }

  lemma MediaStopDrops(db: Db, e: Event, m: Id)
    requires Inv(db) && m in db.media && StopsMedia(db, e, m)
    ensures m in Effect(db, e).media ==> OnlyNew(Effect(db, e).media[m].lease, TokenOf(e))
  {
    hide Inv, Over, SyncParent;
    if e.DoReconcile? {
      MediaSweepDrops(db, e.c, m);
    } else if e.DoClaimMedia? {
      MediaClaimDrops(db, e.c, e.leaseSeconds, e.token, m);
    } else {
      RestoreDrops(db, e.now);
    }
  }

  // --------------------------------------------------------------- over whole runs

  /** Only the row that a token was issued for can be leased to it. */
  lemma LeasedWhereIssued(w: World, limits: Limits, t: Id)
    requires WorldInv(w, limits) && t in w.issued
    requires var row := w.issued[t].row;
             if w.issued[t].media
             then row in w.db.media && w.db.media[row].lease.Some? ==> w.db.media[row].lease.value.token != t
             else row in w.db.items && w.db.items[row].lease.Some? ==> w.db.items[row].lease.value.token != t
    ensures Unleased(w.db, t)
  {
    hide Inv, Tracked, Succeeds, InFlight, Within, MediaTimely;
  }

  lemma StopUnleases(w: World, e: Event, limits: Limits, t: Id)
    requires WorldInv(w, limits) && Allowed(w, e, limits) && t in w.issued && Stops(w, e, t)
    ensures WorldInv(Next(w, e), limits) && t in Next(w, e).issued && Unleased(Next(w, e).db, t)
  {
    hide Inv, Effect, StopsItem, StopsMedia, Tracked, Succeeds, InFlight, Within, Leases, MediaTimely, MediaFits;
    var w', row := Next(w, e), w.issued[t].row;
    NextKeeps(w, e, limits);
    TokensAreKnown(w, e, limits, t);
    NextDb(w, e);
    StillIssued(w, e, t);
    if w.issued[t].media {
      if row in w.db.media {
        MediaStopDrops(w.db, e, row);
      } else {
        NewRowsAreFree(w, e, limits, row);
      }
    } else if row in w.db.items {
      ItemStopDrops(w.db, e, row);
    } else {
      NewRowsAreFree(w, e, limits, row);
    }
    LeasedWhereIssued(w', limits, t);
  }

  lemma StillIssued(w: World, e: Event, t: Id)
    requires t in w.issued && TokenOf(e) != Some(t)
    ensures t in Next(w, e).issued && Next(w, e).issued[t] == w.issued[t]
  {
    hide Effect, SettledBy, Creations;
    IssuedIsDrawn(w.db, e, w.epoch);
  }

  /** A row that an event adds is not leased. */
  lemma NewRowsAreFree(w: World, e: Event, limits: Limits, row: Id)
    requires WorldInv(w, limits) && Allowed(w, e, limits)
    ensures row !in w.db.items && row in Next(w, e).db.items ==> Next(w, e).db.items[row].lease.None?
    ensures row !in w.db.media && row in Next(w, e).db.media ==> Next(w, e).db.media[row].lease.None?
  {
    hide WorldInv, Next, Inv;
    NextKeeps(w, e, limits);
  }

  /** After a stop, no later world of the run leases any row to the token. */
  lemma StoppedForever(es: seq<Event>, stop: Event, more: seq<Event>, limits: Limits, t: Id)
    requires AllAllowed(START, es + [stop] + more, limits)
    requires t in Run(START, es).issued && Stops(Run(START, es), stop, t)
    ensures Unleased(Run(START, es + [stop] + more).db, t)
  {
    hide WorldInv, Run, AllAllowed, Allowed, Unleased, Stops, Effect, Next, Inv;
    var w := Run(START, es);
    assert es + [stop] + more == es + ([stop] + more);
    Reached(es, [stop] + more, limits);
    StartsWith(w, stop, more, limits);
    StopUnleases(w, stop, limits, t);
    FencedForever(Next(w, stop), more, limits, t);
  }

  /** A claim was issued, then its row was stopped: in every later world of every run its retry and its
      rejection are refused, and its acknowledgement changes no row. */
  lemma StopsFence(es: seq<Event>, stop: Event, more: seq<Event>, limits: Limits, c: Call, claim: Claim,
                   delay: int, receipt: Id, code: Code)
    requires AllAllowed(START, es + [stop] + more, limits)
    requires claim.token in Run(START, es).issued && Stops(Run(START, es), stop, claim.token)
    ensures var db := Run(START, es + [stop] + more).db;
            && RetryItem(db, c, claim, delay).result.Err? && RetryItem(db, c, claim, delay).db == db
            && RejectItem(db, c, claim, code).result.Err? && RejectItem(db, c, claim, code).db == db
            && AcknowledgeItem(db, c, claim, receipt).db.items == db.items
            && AcknowledgeItem(db, c, claim, receipt).db.capacity == db.capacity
            && (AcknowledgeItem(db, c, claim, receipt).result.Ok? ==>
                  claim.id in db.items && Replays(db.items[claim.id], claim)
                  && db.items[claim.id].receipt == Some(receipt))
  {
    hide Run, AllAllowed, Inv, Stops, RetryItem, RejectItem, AcknowledgeItem, Unleased, Replays;
    StoppedForever(es, stop, more, limits, claim.token);
    StaleSettlementChangesNothing(Run(START, es + [stop] + more).db, c, claim, delay, receipt, code);
  }

  /** The same of a media claim, whose four settlements are all refused. */
  lemma StopsFenceMedia(es: seq<Event>, stop: Event, more: seq<Event>, limits: Limits, c: Call, claim: MediaClaim,
                        delay: int, evidence: Id, upload: bool, ready: bool, code: Code)
    requires AllAllowed(START, es + [stop] + more, limits)
    requires claim.token in Run(START, es).issued && Stops(Run(START, es), stop, claim.token)
    ensures var db := Run(START, es + [stop] + more).db;
            && RetryMedia(db, c, claim, delay).result.Err? && RetryMedia(db, c, claim, delay).db == db
            && RejectMedia(db, c, claim, code).result.Err? && RejectMedia(db, c, claim, code).db == db
            && AcknowledgeManifest(db, c, claim, evidence, upload, ready).result.Err?
            && AcknowledgeManifest(db, c, claim, evidence, upload, ready).db == db
            && AcknowledgeContent(db, c, claim, evidence, ready).result.Err?
            && AcknowledgeContent(db, c, claim, evidence, ready).db == db
  {
    hide Run, AllAllowed, Inv, Stops, RetryMedia, RejectMedia, AcknowledgeManifest, AcknowledgeContent, Unleased;
    StoppedForever(es, stop, more, limits, claim.token);
    StaleMediaSettlementChangesNothing(
      Run(START, es + [stop] + more).db, c, claim, delay, evidence, upload, ready, code);
  }
}
