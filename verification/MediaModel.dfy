/** The media queue: at most one frame reference per observation, sent in two
    steps (manifest, then content) under the installation's shared reservation. */
module MediaModel {
  import opened Basics
  import opened OutboxModel

  const MAX_JPEG_BYTES := 350 * 1024

  datatype MediaOperation = Manifest | Content

  datatype MediaClaim = MediaClaim(
    id: Id, binding: Ref, token: Id, operation: MediaOperation, source: SourceId, entity: Entity,
    frame: Frame, evidence: Option<Id>, until: int)

  predicate IsMediaOf(db: Db, parent: Id, m: Id) {
    m in db.media && db.media[m].parent == parent
  }

  function NewMedia(db: Db, c: Call, parent: Id, frame: Frame): Media
    requires parent in db.items
  {
    var p := db.items[parent];
    Media(parent, c.ref.id, p.source, p.entity, frame, p.deadline, c.now, PendingManifest,
          0, false, c.now, None, None, None, None, None)
  }

  /** `frame` is absent when the analysed item names no usable frame. */
  ghost function EnqueueOverview(db: Db, c: Call, parent: Id, frame: Option<Frame>, id: Id): Step<Id> {
    if !ValidClock(c.now) then Step(db, Err(InvalidClock))
    else if parent !in db.items || db.items[parent].binding != c.ref.id || !db.items[parent].operation.Observation? then
      Step(db, Err(ObservationNotFound))
    else if frame.None? || !(1 <= frame.value.bytes <= MAX_JPEG_BYTES) then Step(db, Err(MediaReferenceInvalid))
    else if exists m :: IsMediaOf(db, parent, m) then
      var m :| IsMediaOf(db, parent, m);
      if db.media[m].frame != frame.value then Step(db, Err(MediaConflict)) else Step(db, Ok(m))
    else Step(db.(media := db.media[id := NewMedia(db, c, parent, frame.value)]), Ok(id))
  }

  function SettledAt(m: Media, now: int): Option<int> {
    if m.terminal.Some? then m.terminal else Some(now)
  }

  function MirrorWithdrawn(m: Media, p: Item, now: int): Media {
    if !m.state.MediaWithdrawn? && p.state.Withdrawn? then
      m.(state := MediaWithdrawn, terminal := SettledAt(m, now), error := Some(ParentWithdrawn), lease := None)
    else m
  }

  function MirrorClosed(m: Media, p: Item, now: int): Media {
    if !m.state.MediaReady? && !m.state.MediaWithdrawn? && !m.state.MediaBlocked?
       && (p.operation.Withdrawal? || p.state.Cancelled? || p.state.Expired? || p.state.Blocked?)
    then
      m.(state := if p.reason == Some(LocalExpired) then MediaExpired else MediaCancelled,
         terminal := SettledAt(m, now), error := Some(ParentWithdrawn), lease := None)
    else m
  }

  /** Mirrors the parent's withdrawal: the two updates of one row, in their order. */
  function SyncRow(m: Media, p: Item, now: int): Media {
    MirrorClosed(MirrorWithdrawn(m, p, now), p, now)
  }

  function SyncParent(db: Db, binding: Id, now: int): (r: map<Id, Media>)
    ensures r.Keys == db.media.Keys
  {
    map k | k in db.media ::
      if db.media[k].binding == binding && db.media[k].parent in db.items
      then SyncRow(db.media[k], db.items[db.media[k].parent], now) else db.media[k]
  }

  predicate IsLeased(m: Media) {
    m.state.LeasedManifest? || m.state.LeasedContent?
  }

  function Unlease(m: Media): Media {
    if IsLeased(m) then
      m.(state := if m.state.LeasedManifest? then PendingManifest else PendingContent, lease := None)
    else m
  }

  function ReclaimMedia(media: map<Id, Media>, binding: Id, now: int): (r: map<Id, Media>)
    ensures r.Keys == media.Keys
  {
    map k | k in media ::
      if media[k].binding == binding && media[k].lease.Some? && media[k].lease.value.until <= now
      then Unlease(media[k]) else media[k]
  }

  predicate IsMediaDue(db: Db, m: Media, binding: Id, now: int) {
    && m.binding == binding && (m.state.PendingManifest? || m.state.PendingContent?)
    && m.next <= now < m.deadline
    && m.parent in db.items && db.items[m.parent].operation.Observation? && db.items[m.parent].state.Received?
  }

  function MediaDueKeys(db: Db, binding: Id, now: int): set<Key> {
    set k | k in db.media && IsMediaDue(db, db.media[k], binding, now) :: Key(0, db.media[k].created, k)
  }

  function LeaseMedia(m: Media, token: Id, until: int, generation: int): Media {
    m.(state := if m.state.PendingManifest? then LeasedManifest else LeasedContent,
       lease := Some(Lease(token, until, generation)), everAttempted := true,
       attempts := if m.attempts + 1 <= MAX_ATTEMPTS then m.attempts + 1 else MAX_ATTEMPTS)
  }

  ghost function ClaimMedia(db: Db, c: Call, leaseSeconds: int, token: Id): Step<Option<MediaClaim>> {
    if !ValidClock(c.now) then Step(db, Err(InvalidClock))
    else if !(1 <= leaseSeconds <= 60) then Step(db, Err(InvalidLease))
    else if c.ref.id !in db.bindings || db.bindings[c.ref.id].scope != c.scope
            || db.bindings[c.ref.id].generation != c.ref.generation || !db.bindings[c.ref.id].Live() then
      Step(db, Ok(None))
    else
      var swept := db.(media := ReclaimMedia(SyncParent(db, c.ref.id, c.now), c.ref.id, c.now));
      var due := MediaDueKeys(swept, c.ref.id, c.now);
      if Held(db, c.scope.installation, c.now) || due == {} || !db.bindings[c.ref.id].state.Active? then
        Step(swept, Ok(None))
      else
        var id := Least(due).id;
        var m := swept.media[id];
        var until := Min(c.now + leaseSeconds * 1000, m.deadline);
        Step(swept.(media := swept.media[id := LeaseMedia(m, token, until, c.ref.generation)],
                    capacity := swept.capacity[c.scope.installation := Reservation(token, until)]),
             Ok(Some(MediaClaim(id, c.ref, token, if m.state.PendingManifest? then Manifest else Content,
                                m.source, m.entity, m.frame, m.evidence, until))))
  }

  predicate Removable(m: Media, binding: Id, cutoff: int) {
    && m.binding == binding && m.terminal.Some? && m.terminal.value <= cutoff
    && (m.state.MediaCancelled? || m.state.MediaExpired? || m.state.MediaWithdrawn?)
  }

  /** Mirrors the parents, then drops references that have been settled for 30 days. */
  function Reconcile(db: Db, c: Call): Step<()> {
    if !ValidClock(c.now) then Step(db, Err(InvalidClock))
    else
      var synced := SyncParent(db, c.ref.id, c.now);
      Step(db.(media := map k | k in synced && !Removable(synced[k], c.ref.id, c.now - 30 * DAY_MS) :: synced[k]), Ok(()))
  }

  /** The media fence compares the row with the claim; it does not read the binding. */
  function MediaLeaseError(db: Db, c: Call, claim: MediaClaim): Option<Error> {
    if !ValidClock(c.now) then Some(InvalidClock)
    else if claim.binding != c.ref then Some(StaleLease)
    else if claim.id !in db.media then Some(StaleLease)
    else
      var m := db.media[claim.id];
      if m.binding != c.ref.id || (if claim.operation.Manifest? then !m.state.LeasedManifest? else !m.state.LeasedContent?)
         || m.lease.None? || m.lease.value.token != claim.token || m.lease.value.generation != c.ref.generation
         || m.lease.value.until <= c.now
      then Some(StaleLease)
      else None
  }

  function SettleMedia(db: Db, c: Call, claim: MediaClaim, row: Media): Db {
    db.(media := db.media[claim.id := row],
        capacity := Free(db.capacity, c.scope.installation, claim.token))
  }

  function RetryMedia(db: Db, c: Call, claim: MediaClaim, delaySeconds: int): Step<()> {
    var fence := MediaLeaseError(db, c, claim);
    if fence.Some? then Step(db, Err(fence.value))
    else if !(1 <= delaySeconds <= 3600) then Step(db, Err(InvalidBackoff))
    else
      Step(SettleMedia(db, c, claim,
                       Unlease(db.media[claim.id]).(next := c.now + delaySeconds * 1000, error := Some(RetryLater))), Ok(()))
  }

  /** `ready` is the remote state, `upload` whether it still wants the content. */
  function AcknowledgeManifest(db: Db, c: Call, claim: MediaClaim, evidence: Id, upload: bool, ready: bool): Step<()> {
    var fence := MediaLeaseError(db, c, claim);
    if fence.Some? then Step(db, Err(fence.value))
    else
      var m := db.media[claim.id];
      if !claim.operation.Manifest? then Step(db, Err(InvalidReceipt))
      else if m.evidence.Some? && m.evidence != Some(evidence) then Step(db, Err(ReceiptConflict))
      else if upload == ready then Step(db, Err(InvalidReceipt))
      else
        Step(SettleMedia(db, c, claim,
                         m.(state := if upload then PendingContent else MediaReady, evidence := Some(evidence),
                            next := c.now, settled := Some(claim.token),
                            terminal := if upload then None else Some(c.now), lease := None, error := None)), Ok(()))
  }

  function AcknowledgeContent(db: Db, c: Call, claim: MediaClaim, evidence: Id, ready: bool): Step<()> {
    var fence := MediaLeaseError(db, c, claim);
    if fence.Some? then Step(db, Err(fence.value))
    else
      var m := db.media[claim.id];
      if !claim.operation.Content? || !ready || m.evidence != Some(evidence) then Step(db, Err(InvalidReceipt))
      else
        Step(SettleMedia(db, c, claim,
                         m.(state := MediaReady, settled := Some(claim.token), terminal := Some(c.now),
                            lease := None, error := None)), Ok(()))
  }

  function RejectMedia(db: Db, c: Call, claim: MediaClaim, code: Code): Step<()> {
    var fence := MediaLeaseError(db, c, claim);
    if fence.Some? then Step(db, Err(fence.value))
    else
      Step(SettleMedia(db, c, claim,
                       db.media[claim.id].(state := MediaBlocked, error := Some(code), terminal := Some(c.now),
                                           lease := None)), Ok(()))
  }
}
