/** The media queue as the program has it: statements on the media table and on the
    shared reservation, each method proved against its step of `MediaModel`. */
module MediaDatabase {
  import opened Basics
  import opened OutboxModel
  import opened MediaModel
  import opened OutboxInvariant
  import opened OutboxSteps
  import opened MediaSteps
  import opened OutboxDatabase

  class MediaOutbox {
    const limits: Limits

    constructor (limits: Limits)
      ensures this.limits == limits
    {
      this.limits := limits;
    }

    /** The media queue has no key of its own; the key of a call is not read. */
    function CallOf(scope: Scope, ref: Ref, now: int): Call {
      Call(0, limits, scope, ref, now)
    }

    method EnqueueOverview(conn: Database, scope: Scope, ref: Ref, parent: Id, frame: Option<Frame>, now: int, id: Id)
      returns (r: Result<Id, Error>)
      requires conn.Valid() && id !in conn.media
      modifies conn
      ensures Step(conn.Tables(), r) == MediaModel.EnqueueOverview(old(conn.Tables()), CallOf(scope, ref, now), parent, frame, id)
      ensures conn.Valid()
    {
      hide Inv, Good;
      ghost var c := CallOf(scope, ref, now);
      ghost var before := conn.Tables();
      EnqueueOverviewKeeps(before, c, parent, frame, id);
      GoodInv(before, MediaModel.EnqueueOverview(before, c, parent, frame, id).db, None);
      OneReferencePerParent(before, parent);
      if !ValidClock(now) {
        return Err(InvalidClock);
      }
      if parent !in conn.items || conn.items[parent].binding != ref.id || !conn.items[parent].operation.Observation? {
        return Err(ObservationNotFound);
      }
      if frame.None? || !(1 <= frame.value.bytes <= MAX_JPEG_BYTES) {
        return Err(MediaReferenceInvalid);
      }
      var same := set m | m in conn.media && conn.media[m].parent == parent;
      assert forall m :: m in same <==> IsMediaOf(before, parent, m);
      if same != {} {
        var m :| m in same;
        if conn.media[m].frame != frame.value {
          return Err(MediaConflict);
        }
        return Ok(m);
      }
      var p := conn.items[parent];
      conn.media := conn.media[id :=
        Media(parent, ref.id, p.source, p.entity, frame.value, p.deadline, now, PendingManifest,
              0, false, now, None, None, None, None, None)];
      return Ok(id);
    }

    /** Mirrors the parents of one binding: first the withdrawn ones, then all that are no longer deliverable. */
    method MirrorParents(conn: Database, binding: Id, now: int)
      modifies conn`media
      ensures conn.media == SyncParent(old(conn.Tables()), binding, now)
    {
      hide MirrorWithdrawn, MirrorClosed;
      MirrorKeepsParents(now);
      conn.media := map m | m in conn.media ::
        if conn.media[m].binding == binding && conn.media[m].parent in conn.items
        then MirrorWithdrawn(conn.media[m], conn.items[conn.media[m].parent], now) else conn.media[m];
      conn.media := map m | m in conn.media ::
        if conn.media[m].binding == binding && conn.media[m].parent in conn.items
        then MirrorClosed(conn.media[m], conn.items[conn.media[m].parent], now) else conn.media[m];
    }

    method Claim(conn: Database, scope: Scope, ref: Ref, now: int, leaseSeconds: int, token: Id)
      returns (r: Result<Option<MediaClaim>, Error>)
      requires conn.Valid()
      modifies conn
      ensures Step(conn.Tables(), r) == ClaimMedia(old(conn.Tables()), CallOf(scope, ref, now), leaseSeconds, token)
      ensures conn.Valid()
    {
      hide Inv, Good, SyncParent, ReclaimMedia, MediaDueKeys;
      ghost var c := CallOf(scope, ref, now);
      ghost var before := conn.Tables();
      ClaimMediaKeeps(before, c, leaseSeconds, token);
      GoodInv(before, ClaimMedia(before, c, leaseSeconds, token).db, Some(token));
      if !ValidClock(now) {
        return Err(InvalidClock);
      }
      if !(1 <= leaseSeconds <= 60) {
        return Err(InvalidLease);
      }
      if ref.id !in conn.bindings || conn.bindings[ref.id].scope != scope
         || conn.bindings[ref.id].generation != ref.generation || !conn.bindings[ref.id].Live() {
        return Ok(None);
      }
      MirrorParents(conn, ref.id, now);
      SweptRowsAreLeased(before, ref.id, now);
      ReclaimOverdue(conn, ref.id, now);
      if Held(conn.Tables(), scope.installation, now) {
        return Ok(None);
      }
      var selected := NextDue(conn, ref.id, now);
      if selected.None? || !conn.bindings[ref.id].state.Active? {
        return Ok(None);
      }
      var id := selected.value;
      var row := conn.media[id];
      var until := Min(now + leaseSeconds * 1000, row.deadline);
      var operation := if row.state.PendingManifest? then Manifest else Content;
      conn.media := conn.media[id :=
        row.(state := if operation.Manifest? then LeasedManifest else LeasedContent,
             lease := Some(Lease(token, until, ref.generation)), everAttempted := true,
             attempts := Min(row.attempts + 1, MAX_ATTEMPTS))];
      conn.capacity := conn.capacity[scope.installation := Reservation(token, until)];
      return Ok(Some(MediaClaim(id, ref, token, operation, row.source, row.entity, row.frame, row.evidence, until)));
    }

    /** Gives overdue leases back to the queue. */
    method ReclaimOverdue(conn: Database, binding: Id, now: int)
      requires forall m :: m in conn.media && conn.media[m].lease.Some? ==> IsLeased(conn.media[m])
      modifies conn`media
      ensures conn.media == ReclaimMedia(old(conn.media), binding, now)
    {
      conn.media := map m | m in conn.media ::
        var row := conn.media[m];
        if row.binding == binding && IsLeased(row) && row.lease.Some? && row.lease.value.until <= now
        then row.(state := if row.state.LeasedManifest? then PendingManifest else PendingContent, lease := None)
        else row;
    }

    /** The oldest reference whose parent is received and whose deadline is still to come. */
    method NextDue(conn: Database, binding: Id, now: int) returns (id: Option<Id>)
      ensures var due := MediaDueKeys(conn.Tables(), binding, now);
              id == if due == {} then None else Some(Least(due).id)
      ensures id.Some? ==> id.value in conn.media
    {
      var due := MediaDueKeys(conn.Tables(), binding, now);
      var page := OrderBy(due, 1);
      if page == [] {
        return None;
      }
      FirstOfPage(due, page);
      return Some(page[0].id);
    }

    method Reconcile(conn: Database, scope: Scope, ref: Ref, now: int) returns (r: Result<(), Error>)
      requires conn.Valid()
      modifies conn
      ensures Step(conn.Tables(), r) == MediaModel.Reconcile(old(conn.Tables()), CallOf(scope, ref, now))
      ensures conn.Valid()
    {
      hide Inv, Good, SyncParent;
      ghost var c := CallOf(scope, ref, now);
      ReconcileKeeps(conn.Tables(), c);
      GoodInv(conn.Tables(), MediaModel.Reconcile(conn.Tables(), c).db, None);
      if !ValidClock(now) {
        return Err(InvalidClock);
      }
      MirrorParents(conn, ref.id, now);
      var oldRows := set m | m in conn.media && Removable(conn.media[m], ref.id, now - 30 * DAY_MS);
      conn.media := conn.media - oldRows;
      return Ok(());
    }

    /** The fence: the row must still be this claim's; the binding's state is not read. */
    method CheckLease(conn: Database, scope: Scope, ref: Ref, claim: MediaClaim, now: int) returns (r: Result<Media,
                      Error>)
      ensures var fence := MediaLeaseError(conn.Tables(), CallOf(scope, ref, now), claim);
              r == if fence.Some? then Err(fence.value) else Ok(conn.media[claim.id])
    {
      if !ValidClock(now) {
        return Err(InvalidClock);
      }
      if claim.binding != ref {
        return Err(StaleLease);
      }
      if claim.id !in conn.media || conn.media[claim.id].binding != ref.id {
        return Err(StaleLease);
      }
      var row := conn.media[claim.id];
      var expected := if claim.operation.Manifest? then LeasedManifest else LeasedContent;
      if row.state != expected || row.lease.None? || row.lease.value.token != claim.token
         || row.lease.value.generation != ref.generation || row.lease.value.until <= now {
        return Err(StaleLease);
      }
      return Ok(row);
    }

    method FreeCapacity(conn: Database, installation: Id, token: Id)
      modifies conn`capacity
      ensures conn.capacity == Free(old(conn.capacity), installation, token)
    {
      if installation in conn.capacity && conn.capacity[installation].token == token {
        conn.capacity := conn.capacity - {installation};
      }
    }

    method Retry(conn: Database, scope: Scope, ref: Ref, claim: MediaClaim, delaySeconds: int, now: int)
      returns (r: Result<(), Error>)
      requires conn.Valid()
      modifies conn
      ensures Step(conn.Tables(), r) == RetryMedia(old(conn.Tables()), CallOf(scope, ref, now), claim, delaySeconds)
      ensures conn.Valid()
    {
      hide Inv, Good;
      ghost var c := CallOf(scope, ref, now);
      RetryMediaKeeps(conn.Tables(), c, claim, delaySeconds);
      GoodInv(conn.Tables(), RetryMedia(conn.Tables(), c, claim, delaySeconds).db, None);
      var lease := CheckLease(conn, scope, ref, claim, now);
      if lease.Err? {
        return Err(lease.error);
      }
      if !(1 <= delaySeconds <= 3600) {
        return Err(InvalidBackoff);
      }
      conn.media := conn.media[claim.id :=
        lease.value.(state := if claim.operation.Manifest? then PendingManifest else PendingContent,
                     next := now + delaySeconds * 1000, lease := None, error := Some(RetryLater))];
      FreeCapacity(conn, scope.installation, claim.token);
      return Ok(());
    }

    method AcknowledgeManifest(conn: Database, scope: Scope, ref: Ref, claim: MediaClaim, evidence: Id, upload: bool,
                               ready: bool, now: int)
      returns (r: Result<(), Error>)
      requires conn.Valid()
      modifies conn
      ensures Step(conn.Tables(), r)
           == MediaModel.AcknowledgeManifest(old(conn.Tables()), CallOf(scope, ref, now), claim, evidence, upload, ready)
      ensures conn.Valid()
    {
      hide Inv, Good;
      ghost var c := CallOf(scope, ref, now);
      AcknowledgeManifestKeeps(conn.Tables(), c, claim, evidence, upload, ready);
      GoodInv(conn.Tables(), MediaModel.AcknowledgeManifest(conn.Tables(), c, claim, evidence, upload, ready).db, None);
      var lease := CheckLease(conn, scope, ref, claim, now);
      if lease.Err? {
        return Err(lease.error);
      }
      if !claim.operation.Manifest? {
        return Err(InvalidReceipt);
      }
      if lease.value.evidence.Some? && lease.value.evidence.value != evidence {
        return Err(ReceiptConflict);
      }
      if (upload && ready) || (!upload && !ready) {
        return Err(InvalidReceipt);
      }
      var local := if upload then PendingContent else MediaReady;
      conn.media := conn.media[claim.id :=
        lease.value.(state := local, evidence := Some(evidence), next := now, settled := Some(claim.token),
                     terminal := if local.MediaReady? then Some(now) else None, lease := None, error := None)];
      FreeCapacity(conn, scope.installation, claim.token);
      return Ok(());
    }

    method AcknowledgeContent(conn: Database, scope: Scope, ref: Ref, claim: MediaClaim, evidence: Id, ready: bool,
                              now: int)
      returns (r: Result<(), Error>)
      requires conn.Valid()
      modifies conn
      ensures Step(conn.Tables(), r)
           == MediaModel.AcknowledgeContent(old(conn.Tables()), CallOf(scope, ref, now), claim, evidence, ready)
      ensures conn.Valid()
    {
      hide Inv, Good;
      ghost var c := CallOf(scope, ref, now);
      AcknowledgeContentKeeps(conn.Tables(), c, claim, evidence, ready);
      GoodInv(conn.Tables(), MediaModel.AcknowledgeContent(conn.Tables(), c, claim, evidence, ready).db, None);
      var lease := CheckLease(conn, scope, ref, claim, now);
      if lease.Err? {
        return Err(lease.error);
      }
      if !claim.operation.Content? || !ready || lease.value.evidence != Some(evidence) {
        return Err(InvalidReceipt);
      }
      conn.media := conn.media[claim.id :=
        lease.value.(state := MediaReady, settled := Some(claim.token), terminal := Some(now), lease := None, error := None)];
      FreeCapacity(conn, scope.installation, claim.token);
      return Ok(());
    }

    method Reject(conn: Database, scope: Scope, ref: Ref, claim: MediaClaim, code: Code, now: int)
      returns (r: Result<(), Error>)
      requires conn.Valid()
      modifies conn
      ensures Step(conn.Tables(), r) == RejectMedia(old(conn.Tables()), CallOf(scope, ref, now), claim, code)
      ensures conn.Valid()
    {
      hide Inv, Good;
      ghost var c := CallOf(scope, ref, now);
      RejectMediaKeeps(conn.Tables(), c, claim, code);
      GoodInv(conn.Tables(), RejectMedia(conn.Tables(), c, claim, code).db, None);
      var lease := CheckLease(conn, scope, ref, claim, now);
      if lease.Err? {
        return Err(lease.error);
      }
      conn.media := conn.media[claim.id :=
        lease.value.(state := MediaBlocked, error := Some(code), terminal := Some(now), lease := None)];
      FreeCapacity(conn, scope.installation, claim.token);
      return Ok(());
    }
  }

  lemma MirrorKeepsParents(now: int)
    ensures forall m: Media, p: Item ::
              MirrorWithdrawn(m, p, now).binding == m.binding && MirrorWithdrawn(m, p, now).parent == m.parent
  {
  }

  lemma OneReferencePerParent(db: Db, parent: Id)
    requires Inv(db)
    ensures forall m, n :: IsMediaOf(db, parent, m) && IsMediaOf(db, parent, n) ==> m == n
  {
  }

  lemma SweptRowsAreLeased(db: Db, binding: Id, now: int)
    requires Inv(db)
    ensures forall m :: m in db.media ==>
              var row := SyncParent(db, binding, now)[m]; row.lease.Some? ==> IsLeased(row)
  {
    hide SyncRow, MediaFits;
    forall m | m in db.media ensures var row := SyncParent(db, binding, now)[m]; row.lease.Some? ==> IsLeased(row) {
      assert MediaOk(db.items, db.media[m]);
      SyncedLease(db.items[db.media[m].parent], db.media[m], now);
    }
  }

  lemma SyncedLease(p: Item, m: Media, now: int)
    requires MediaFits(p, m)
    ensures SyncRow(m, p, now).lease.Some? ==> IsLeased(SyncRow(m, p, now))
    ensures m.lease.Some? ==> IsLeased(m)
  {
  }
}
