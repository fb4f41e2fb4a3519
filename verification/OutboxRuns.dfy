/** Whole runs of the outbox: any sequence of operations, by any callers, on one
    database. A world is the tables together with what happened before. */
module OutboxRuns {
  import opened Basics
  import opened OutboxModel
  import opened MediaModel
  import opened OutboxInvariant
  import opened OutboxSteps
  import opened MediaSteps

  datatype Event =
    | DoCreate(c: Call, expected: int, target: Target)
    | DoSetPaused(c: Call, paused: bool)
    | DoDisconnect(c: Call, restored: bool)
    | DoPauseRow(binding: Id)
    | DoEnqueue(c: Call, o: MappedObservation, id: Id)
    | DoWithdraw(c: Call, id: Id, reason: Reason)
    | DoExpire(c: Call)
    | DoClaim(c: Call, leaseSeconds: int, token: Id)
    | DoRetry(c: Call, claim: Claim, delaySeconds: int)
    | DoAcknowledge(c: Call, claim: Claim, receipt: Id)
    | DoReject(c: Call, claim: Claim, code: Code)
    | DoPrune(c: Call, limit: int)
    | DoRestore(now: int)
    | DoEnqueueMedia(c: Call, parent: Id, frame: Option<Frame>, id: Id)
    | DoClaimMedia(c: Call, leaseSeconds: int, token: Id)
    | DoReconcile(c: Call)
    | DoRetryMedia(c: Call, mediaClaim: MediaClaim, delaySeconds: int)
    | DoAcknowledgeManifest(c: Call, mediaClaim: MediaClaim, evidence: Id, upload: bool, ready: bool)
    | DoAcknowledgeContent(c: Call, mediaClaim: MediaClaim, evidence: Id, ready: bool)
    | DoRejectMedia(c: Call, mediaClaim: MediaClaim, code: Code)
  {
    /** The instant of the call; the keyless pause reads no clock. */
    function Time(before: int): int {
      if DoPauseRow? then before else if DoRestore? then now else c.now
    }
  }

  /** The settlements: of an item's claim, and of a media row's. */
  predicate Settling(e: Event) {
    e.DoRetry? || e.DoAcknowledge? || e.DoReject? || SettlingMedia(e)
  }

  predicate SettlingMedia(e: Event) {
    e.DoRetryMedia? || e.DoAcknowledgeManifest? || e.DoAcknowledgeContent? || e.DoRejectMedia?
  }

  /** The events that admit or claim something. */
  predicate Admitting(e: Event) {
    e.DoEnqueue? || e.DoEnqueueMedia? || e.DoClaim? || e.DoClaimMedia?
  }

  ghost function Effect(db: Db, e: Event): Db {
    match e
    case DoCreate(c, expected, target) => CreateBinding(db, c, expected, target).db
    case DoSetPaused(c, paused) => SetPaused(db, c, paused).db
    case DoDisconnect(c, restored) => Disconnect(db, c, restored).db
    case DoPauseRow(binding) => PauseRow(db, binding).db
    case DoEnqueue(c, o, id) => Enqueue(db, c, o, id).db
    case DoWithdraw(c, id, reason) => WithdrawItem(db, c, id, reason).db
    case DoExpire(c) => ExpireItems(db, c).db
    case DoClaim(c, leaseSeconds, token) => ClaimItem(db, c, leaseSeconds, token).db
    case DoRetry(c, claim, delay) => RetryItem(db, c, claim, delay).db
    case DoAcknowledge(c, claim, receipt) => AcknowledgeItem(db, c, claim, receipt).db
    case DoReject(c, claim, code) => RejectItem(db, c, claim, code).db
    case DoPrune(c, limit) => PruneTerminal(db, c, limit).db
    case DoRestore(now) => MarkRestored(db, now).db
    case DoEnqueueMedia(c, parent, frame, id) => EnqueueOverview(db, c, parent, frame, id).db
    case DoClaimMedia(c, leaseSeconds, token) => ClaimMedia(db, c, leaseSeconds, token).db
    case DoReconcile(c) => Reconcile(db, c).db
    case DoRetryMedia(c, claim, delay) => RetryMedia(db, c, claim, delay).db
    case DoAcknowledgeManifest(c, claim, evidence, upload, ready) =>
      AcknowledgeManifest(db, c, claim, evidence, upload, ready).db
    case DoAcknowledgeContent(c, claim, evidence, ready) => AcknowledgeContent(db, c, claim, evidence, ready).db
    case DoRejectMedia(c, claim, code) => RejectMedia(db, c, claim, code).db
  }

  /** A request that the queues let out: one claim, of an item or of a media row. */
  datatype Issue = Issue(installation: Id, row: Id, media: bool, until: int, epoch: nat)

  /** The claim this event issues: its token, row and end, if it issues one. */
  ghost function IssuedBy(db: Db, e: Event, epoch: nat): Option<(Id, Issue)> {
    match e
    case DoClaim(c, leaseSeconds, token) =>
      var r := ClaimItem(db, c, leaseSeconds, token).result;
      if r.Ok? && r.value.Some? then
        Some((token, Issue(c.scope.installation, r.value.value.id, false, r.value.value.until, epoch)))
      else None
    case DoClaimMedia(c, leaseSeconds, token) =>
      var r := ClaimMedia(db, c, leaseSeconds, token).result;
      if r.Ok? && r.value.Some? then
        Some((token, Issue(c.scope.installation, r.value.value.id, true, r.value.value.until, epoch)))
      else None
    case _ => None
  }

  /** The token that the event draws, used or not. */
  function TokenOf(e: Event): Option<Id> {
    match e
    case DoClaim(_, _, token) => Some(token)
    case DoClaimMedia(_, _, token) => Some(token)
    case _ => None
  }

  /** The installation and token of the claim this event settles, if it settles one. */
  ghost function SettledBy(db: Db, e: Event): Option<(Id, Id)> {
    match e
    case DoRetry(c, claim, delay) =>
      if RetryItem(db, c, claim, delay).result.Ok? then Some((c.scope.installation, claim.token)) else None
    case DoAcknowledge(c, claim, receipt) =>
      if AcknowledgeItem(db, c, claim, receipt).result.Ok? && !Replays(db.items[claim.id], claim)
      then Some((c.scope.installation, claim.token)) else None
    case DoReject(c, claim, code) =>
      if RejectItem(db, c, claim, code).result.Ok? then Some((c.scope.installation, claim.token)) else None
    case DoRetryMedia(c, claim, delay) =>
      if RetryMedia(db, c, claim, delay).result.Ok? then Some((c.scope.installation, claim.token)) else None
    case DoAcknowledgeManifest(c, claim, evidence, upload, ready) =>
      if AcknowledgeManifest(db, c, claim, evidence, upload, ready).result.Ok?
      then Some((c.scope.installation, claim.token)) else None
    case DoAcknowledgeContent(c, claim, evidence, ready) =>
      if AcknowledgeContent(db, c, claim, evidence, ready).result.Ok?
      then Some((c.scope.installation, claim.token)) else None
    case DoRejectMedia(c, claim, code) =>
      if RejectMedia(db, c, claim, code).result.Ok? then Some((c.scope.installation, claim.token)) else None
    case _ => None
  }

  datatype Creation = Creation(binding: Id, at: int)

  datatype World = World(
    db: Db, now: int, epoch: nat,
    issued: map<Id, Issue>, settled: set<Id>,
    created: map<Id, Creation>, pruned: map<Id, Item>)

  const START := World(Db(map[], map[], map[], map[]), 0, 0, map[], {}, map[], map[])

  function Creations(items: map<Id, Item>, items': map<Id, Item>): map<Id, Creation> {
    map k | k in items' && k !in items :: Creation(items'[k].binding, items'[k].created)
  }

  ghost function Next(w: World, e: Event): World {
    var db' := Effect(w.db, e);
    var issue := IssuedBy(w.db, e, w.epoch);
    var settle := SettledBy(w.db, e);
    World(db', e.Time(w.now),
          if e.DoRestore? && MarkRestored(w.db, e.now).result.Ok? then w.epoch + 1 else w.epoch,
          if issue.Some? then w.issued[issue.value.0 := issue.value.1] else w.issued,
          if settle.Some? then w.settled + {settle.value.1} else w.settled,
          w.created + Creations(w.db.items, db'.items),
          w.pruned + (map k | k in w.db.items && k !in db'.items :: w.db.items[k]))
  }

  /** Random identifiers are new, the clock does not run back, and the limits are fixed. */
  ghost predicate Allowed(w: World, e: Event, limits: Limits) {
    && e.Time(w.now) >= w.now
    && (!e.DoPauseRow? && !e.DoRestore? ==> e.c.limits == limits)
    && (TokenOf(e).Some? ==> TokenOf(e).value !in w.issued)
    && (e.DoEnqueue? ==> e.id !in w.created)
    && (e.DoEnqueueMedia? ==> e.id !in w.db.media)
  }

  ghost predicate AllAllowed(w: World, es: seq<Event>, limits: Limits)
    decreases |es|
  {
    es == [] || (Allowed(w, es[0], limits) && AllAllowed(Next(w, es[0]), es[1..], limits))
  }

  ghost function Run(w: World, es: seq<Event>): World
    decreases |es|
  {
    if es == [] then w else Run(Next(w, es[0]), es[1..])
  }

  lemma EffectKeeps(db: Db, e: Event)
    requires Inv(db)
    requires e.DoEnqueue? ==> e.id !in db.items
    requires e.DoEnqueueMedia? ==> e.id !in db.media
    ensures Good(db, Effect(db, e), TokenOf(e))
  {
    hide Good, Inv;
    match e
    case DoCreate(c, expected, target) => CreateBindingKeeps(db, c, expected, target);
    case DoSetPaused(c, paused) => SetPausedKeeps(db, c, paused);
    case DoDisconnect(c, restored) => DisconnectKeeps(db, c, restored);
    case DoPauseRow(binding) => PauseRowKeeps(db, binding);
    case DoEnqueue(c, o, id) => EnqueueKeeps(db, c, o, id);
    case DoWithdraw(c, id, reason) => WithdrawItemKeeps(db, c, id, reason);
    case DoExpire(c) => ExpireItemsKeeps(db, c);
    case DoClaim(c, leaseSeconds, token) => ClaimItemKeeps(db, c, leaseSeconds, token);
    case DoRetry(c, claim, delay) => RetryItemKeeps(db, c, claim, delay);
    case DoAcknowledge(c, claim, receipt) => AcknowledgeItemKeeps(db, c, claim, receipt);
    case DoReject(c, claim, code) => RejectItemKeeps(db, c, claim, code);
    case DoPrune(c, limit) => PruneTerminalKeeps(db, c, limit);
    case DoRestore(now) => MarkRestoredKeeps(db, now);
    case DoEnqueueMedia(c, parent, frame, id) => EnqueueOverviewKeeps(db, c, parent, frame, id);
    case DoClaimMedia(c, leaseSeconds, token) => ClaimMediaKeeps(db, c, leaseSeconds, token);
    case DoReconcile(c) => ReconcileKeeps(db, c);
    case DoRetryMedia(c, claim, delay) => RetryMediaKeeps(db, c, claim, delay);
    case DoAcknowledgeManifest(c, claim, evidence, upload, ready) =>
      AcknowledgeManifestKeeps(db, c, claim, evidence, upload, ready);
    case DoAcknowledgeContent(c, claim, evidence, ready) => AcknowledgeContentKeeps(db, c, claim, evidence, ready);
    case DoRejectMedia(c, claim, code) => RejectMediaKeeps(db, c, claim, code);
  }
}
