/** The media queue's operations keep the invariant, and media follows its parent. */
module MediaSteps {
  import opened Basics
  import opened OutboxModel
  import opened MediaModel
  import opened OutboxInvariant
  import opened OutboxSteps

  /** A step that only rewrites, adds or deletes media rows. */
  lemma MediaOnly(db: Db, db': Db, token: Option<Id>)
    requires Inv(db)
    requires db'.bindings == db.bindings && db'.items == db.items
    requires AllMediaOk(db.items, db'.media) && MediaEvolves(db, db', token)
    ensures Good(db, db', token)
  {
    Untouched(db);
    Weaken(db, db, token);
    assert Good(db, db'.(media := db.media), token) by {
      assert Evolves(db, db, token);
    }
  }

  ghost predicate TerminalKept(m: Media, n: Media) {
    m.terminal.Some? ==> n.terminal == m.terminal
  }

  /** The rows of the table go through a change one by one; none are added. */
  ghost predicate EachMedia(db: Db, media: map<Id, Media>, token: Option<Id>) {
    && media.Keys <= db.media.Keys
    && (forall m :: m in media ==>
          media[m].parent == db.media[m].parent && media[m].binding == db.media[m].binding
          && (media[m].parent in db.items ==> MediaFits(db.items[media[m].parent], media[m]))
          && MediaLeaseKept(db.media[m], media[m], token) && TerminalKept(db.media[m], media[m]))
  }

  lemma EachMediaKeeps(db: Db, db': Db, token: Option<Id>)
    requires Inv(db)
    requires db'.bindings == db.bindings && db'.items == db.items
    requires EachMedia(db, db'.media, token)
    ensures Good(db, db', token)
  {
    forall m | m in db'.media
      ensures MediaOk(db.items, db'.media[m]) && MediaRowEvolves(db'.bindings, db.media[m], db'.media[m], token)
    {
      assert MediaOk(db.items, db.media[m]);
    }
    MediaOnly(db, db', token);
  }

  lemma SyncRowKeeps(p: Item, m: Media, now: int)
    requires MediaFits(p, m)
    ensures MediaFits(p, SyncRow(m, p, now)) && MediaLeaseKept(m, SyncRow(m, p, now), None)
    ensures SyncRow(m, p, now).parent == m.parent && SyncRow(m, p, now).binding == m.binding
    ensures TerminalKept(m, SyncRow(m, p, now))
  {
  }

  lemma SyncEach(db: Db, binding: Id, now: int)
    requires Inv(db)
    ensures EachMedia(db, SyncParent(db, binding, now), None)
  {
    forall m | m in db.media
      ensures var n := SyncParent(db, binding, now)[m];
              n.parent == db.media[m].parent && n.parent in db.items && n.binding == db.media[m].binding
              && MediaFits(db.items[n.parent], n) && MediaLeaseKept(db.media[m], n, None)
              && TerminalKept(db.media[m], n)
    {
      assert MediaOk(db.items, db.media[m]);
      SyncRowKeeps(db.items[db.media[m].parent], db.media[m], now);
    }
  }

  // ------------------------------------------------------------------- enqueue

  lemma NewMediaKeeps(db: Db, c: Call, parent: Id, frame: Frame, id: Id)
    requires Inv(db) && id !in db.media && parent in db.items && db.items[parent].binding == c.ref.id
    requires forall m :: m in db.media ==> db.media[m].parent != parent
    ensures Good(db, db.(media := db.media[id := NewMedia(db, c, parent, frame)]), None)
  {
    hide RowShape, BindingsOk, ItemsOk;
    var db' := db.(media := db.media[id := NewMedia(db, c, parent, frame)]);
    forall m | m in db'.media ensures MediaOk(db.items, db'.media[m]) {
      if m != id {
        assert MediaOk(db.items, db.media[m]);
      }
    }
    MediaOnly(db, db', None);
  }

  /** The two things an overview can do to the tables. */
  lemma EnqueueOverviewCases(db: Db, c: Call, parent: Id, frame: Option<Frame>, id: Id)
    ensures var r := EnqueueOverview(db, c, parent, frame, id);
            || r.db == db
            || (parent in db.items && db.items[parent].binding == c.ref.id && frame.Some?
                && (forall m :: m in db.media ==> db.media[m].parent != parent)
                && r.db == db.(media := db.media[id := NewMedia(db, c, parent, frame.value)]))
  {
    if m :| m in db.media && db.media[m].parent == parent {
      assert IsMediaOf(db, parent, m);
    }
  }

  lemma EnqueueOverviewKeeps(db: Db, c: Call, parent: Id, frame: Option<Frame>, id: Id)
    requires Inv(db) && id !in db.media
    ensures Good(db, EnqueueOverview(db, c, parent, frame, id).db, None)
  {
    EnqueueOverviewCases(db, c, parent, frame, id);
    if EnqueueOverview(db, c, parent, frame, id).db == db {
      Untouched(db);
    } else {
      NewMediaKeeps(db, c, parent, frame.value, id);
    }
  }

  // ------------------------------------------------------- reconcile and settle

  lemma ReconcileKeeps(db: Db, c: Call)
    requires Inv(db)
    ensures Good(db, Reconcile(db, c).db, None)
  {
    if ValidClock(c.now) {
      SyncEach(db, c.ref.id, c.now);
      EachMediaKeeps(db, Reconcile(db, c).db, None);
    } else {
      Untouched(db);
    }
  }

  /** A settlement rewrites the one row whose lease it holds. */
  lemma SettleMediaKeeps(db: Db, c: Call, claim: MediaClaim, n: Media)
    requires Inv(db) && MediaLeaseError(db, c, claim).None?
    requires n.parent == db.media[claim.id].parent && n.binding == db.media[claim.id].binding && n.lease.None?
    requires TerminalKept(db.media[claim.id], n) || IsLeased(db.media[claim.id])
    requires n.parent in db.items ==>
               MediaFits(db.items[n.parent], db.media[claim.id]) ==> MediaFits(db.items[n.parent], n)
    ensures Good(db, SettleMedia(db, c, claim, n), None)
  {
    var db' := SettleMedia(db, c, claim, n);
    forall m | m in db'.media
      ensures db'.media[m].parent == db.media[m].parent && db'.media[m].binding == db.media[m].binding
              && MediaFits(db.items[db'.media[m].parent], db'.media[m])
              && MediaLeaseKept(db.media[m], db'.media[m], None) && TerminalKept(db.media[m], db'.media[m])
    {
      assert MediaOk(db.items, db.media[m]);
    }
    EachMediaKeeps(db, db', None);
  }

  lemma HeldMedia(db: Db, c: Call, claim: MediaClaim)
    requires Inv(db) && MediaLeaseError(db, c, claim).None?
    ensures MediaOk(db.items, db.media[claim.id])
  {
  }

  lemma RetryMediaKeeps(db: Db, c: Call, claim: MediaClaim, delaySeconds: int)
    requires Inv(db)
    ensures Good(db, RetryMedia(db, c, claim, delaySeconds).db, None)
  {
    if RetryMedia(db, c, claim, delaySeconds).result.Ok? {
      HeldMedia(db, c, claim);
      SettleMediaKeeps(db, c, claim, RetryMedia(db, c, claim, delaySeconds).db.media[claim.id]);
    } else {
      Untouched(db);
    }
  }

  lemma AcknowledgeManifestKeeps(db: Db, c: Call, claim: MediaClaim, evidence: Id, upload: bool, ready: bool)
    requires Inv(db)
    ensures Good(db, AcknowledgeManifest(db, c, claim, evidence, upload, ready).db, None)
  {
    hide Inv, Good;
    if AcknowledgeManifest(db, c, claim, evidence, upload, ready).result.Ok? {
      HeldMedia(db, c, claim);
      SettleMediaKeeps(db, c, claim, AcknowledgeManifest(db, c, claim, evidence, upload, ready).db.media[claim.id]);
    } else {
      Untouched(db);
    }
  }

  lemma AcknowledgeContentKeeps(db: Db, c: Call, claim: MediaClaim, evidence: Id, ready: bool)
    requires Inv(db)
    ensures Good(db, AcknowledgeContent(db, c, claim, evidence, ready).db, None)
  {
    if AcknowledgeContent(db, c, claim, evidence, ready).result.Ok? {
      HeldMedia(db, c, claim);
      SettleMediaKeeps(db, c, claim, AcknowledgeContent(db, c, claim, evidence, ready).db.media[claim.id]);
    } else {
      Untouched(db);
    }
  }

  lemma RejectMediaKeeps(db: Db, c: Call, claim: MediaClaim, code: Code)
    requires Inv(db)
    ensures Good(db, RejectMedia(db, c, claim, code).db, None)
  {
    if RejectMedia(db, c, claim, code).result.Ok? {
      HeldMedia(db, c, claim);
      SettleMediaKeeps(db, c, claim, RejectMedia(db, c, claim, code).db.media[claim.id]);
    } else {
      Untouched(db);
    }
  }

  // --------------------------------------------------------------------- claim

  /** The tables after the sweep that opens a media claim. */
  function SweptMedia(db: Db, c: Call): Db {
    db.(media := ReclaimMedia(SyncParent(db, c.ref.id, c.now), c.ref.id, c.now))
  }

  lemma UnleaseKeeps(p: Item, m: Media)
    requires MediaFits(p, m)
    ensures MediaFits(p, Unlease(m)) && MediaLeaseKept(m, Unlease(m), None)
            && Unlease(m).parent == m.parent && Unlease(m).binding == m.binding && TerminalKept(m, Unlease(m))
  {
  }

  lemma SweptRow(db: Db, c: Call, m: Id)
    requires AllMediaOk(db.items, db.media) && m in db.media
    ensures var n := SweptMedia(db, c).media[m];
            n.parent == db.media[m].parent && n.parent in db.items && n.binding == db.media[m].binding
            && MediaFits(db.items[n.parent], n) && MediaLeaseKept(db.media[m], n, None)
            && TerminalKept(db.media[m], n)
  {
    assert MediaOk(db.items, db.media[m]);
    var p := db.items[db.media[m].parent];
    SyncRowKeeps(p, db.media[m], c.now);
    UnleaseKeeps(p, SyncParent(db, c.ref.id, c.now)[m]);
  }

  lemma SweptMediaEach(db: Db, c: Call)
    requires AllMediaOk(db.items, db.media)
    ensures EachMedia(db, SweptMedia(db, c).media, None)
  {
    forall m | m in db.media
      ensures var n := SweptMedia(db, c).media[m];
              n.parent == db.media[m].parent && n.parent in db.items && n.binding == db.media[m].binding
              && MediaFits(db.items[n.parent], n) && MediaLeaseKept(db.media[m], n, None)
              && TerminalKept(db.media[m], n)
    {
      SweptRow(db, c, m);
    }
  }

  /** The three things a media claim can do to the tables. */
  lemma ClaimMediaCases(db: Db, c: Call, leaseSeconds: int, token: Id)
    ensures var r := ClaimMedia(db, c, leaseSeconds, token);
            || (r.db == db && (r.result.Err? || r.result == Ok(None)))
            || (r.db == SweptMedia(db, c) && r.result == Ok(None))
            || (r.result.Ok? && r.result.value.Some?
                && var cl := r.result.value.value;
                   var until := Min(c.now + leaseSeconds * 1000, SweptMedia(db, c).media[cl.id].deadline);
                   && cl.id in db.media && 1 <= leaseSeconds && !Held(db, c.scope.installation, c.now)
                   && IsMediaDue(SweptMedia(db, c), SweptMedia(db, c).media[cl.id], c.ref.id, c.now)
                   && cl.token == token && cl.until == until && cl.binding == c.ref
                   && (cl.operation.Manifest? <==> SweptMedia(db, c).media[cl.id].state.PendingManifest?)
                   && cl.evidence == SweptMedia(db, c).media[cl.id].evidence
                   && c.ref.id in db.bindings && db.bindings[c.ref.id].state.Active?
                   && db.bindings[c.ref.id].generation == c.ref.generation
                   && r.db == SweptMedia(db, c).(
                        media := SweptMedia(db, c).media[cl.id :=
                          LeaseMedia(SweptMedia(db, c).media[cl.id], token, until, c.ref.generation)],
                        capacity := db.capacity[c.scope.installation := Reservation(token, until)]))
  {
    var due := MediaDueKeys(SweptMedia(db, c), c.ref.id, c.now);
    if due != {} {
      assert Least(due) in due;
    }
  }

  lemma LeaseMediaKeeps(p: Item, m: Media, token: Id, until: int, generation: int)
    requires RowShape(p) && MediaFits(p, m) && p.state.Received? && until <= m.deadline
    requires m.state.PendingManifest? || m.state.PendingContent?
    ensures MediaFits(p, LeaseMedia(m, token, until, generation))
  {
  }

  lemma LeaseEach(db: Db, media: map<Id, Media>, id: Id, token: Id, until: int, generation: int)
    requires EachMedia(db, media, None) && id in media && media[id].parent in db.items
    requires MediaFits(db.items[media[id].parent], LeaseMedia(media[id], token, until, generation))
    ensures EachMedia(db, media[id := LeaseMedia(media[id], token, until, generation)], Some(token))
  {
    forall m | m in media ensures MediaLeaseKept(db.media[m], media[m], Some(token)) {
      assert MediaLeaseKept(db.media[m], media[m], None);
    }
  }

  lemma ClaimedMediaRow(db: Db, c: Call, leaseSeconds: int, token: Id)
    requires Inv(db)
    requires ClaimMedia(db, c, leaseSeconds, token).result.Ok?
    requires ClaimMedia(db, c, leaseSeconds, token).result.value.Some?
    ensures var r := ClaimMedia(db, c, leaseSeconds, token);
            EachMedia(db, r.db.media, Some(token)) && r.db.bindings == db.bindings && r.db.items == db.items
  {
    ClaimMediaCases(db, c, leaseSeconds, token);
    var cl := ClaimMedia(db, c, leaseSeconds, token).result.value.value;
    var m := SweptMedia(db, c).media[cl.id];
    SweptMediaEach(db, c);
    SweptRow(db, c, cl.id);
    assert RowOk(db.bindings, m.parent, db.items[m.parent]);
    LeaseMediaKeeps(db.items[m.parent], m, token, cl.until, c.ref.generation);
    LeaseEach(db, SweptMedia(db, c).media, cl.id, token, cl.until, c.ref.generation);
  }

  lemma ClaimMediaKeeps(db: Db, c: Call, leaseSeconds: int, token: Id)
    requires Inv(db)
    ensures Good(db, ClaimMedia(db, c, leaseSeconds, token).db, Some(token))
  {
    var r := ClaimMedia(db, c, leaseSeconds, token);
    ClaimMediaCases(db, c, leaseSeconds, token);
    if r.result.Ok? && r.result.value.Some? {
      ClaimedMediaRow(db, c, leaseSeconds, token);
      EachMediaKeeps(db, r.db, Some(token));
    } else {
      if r.db == db {
        Untouched(db);
      } else {
        SweptMediaEach(db, c);
        EachMediaKeeps(db, r.db, None);
      }
      Weaken(db, r.db, Some(token));
    }
  }

  // ----------------------------------------------------------------- properties

  /** A media claim is only ever issued under a received, unwithdrawn observation, for
      less than its remaining life; content is sent only for an acknowledged manifest. */
  lemma MediaClaimFollowsParent(db: Db, c: Call, leaseSeconds: int, token: Id)
    requires Inv(db)
    requires ClaimMedia(db, c, leaseSeconds, token).result.Ok?
    requires ClaimMedia(db, c, leaseSeconds, token).result.value.Some?
    ensures var r := ClaimMedia(db, c, leaseSeconds, token);
            var cl := r.result.value.value;
            var p := r.db.items[r.db.media[cl.id].parent];
            && p.operation.Observation? && p.state.Received?
            && c.now < cl.until <= p.deadline
            && IsLeased(r.db.media[cl.id])
            && (cl.operation.Content? ==> cl.evidence.Some? && r.db.media[cl.id].state.LeasedContent?)
            && r.db.bindings[c.ref.id].state.Active?
  {
    ClaimMediaCases(db, c, leaseSeconds, token);
    SweptMediaEach(db, c);
    var cl := ClaimMedia(db, c, leaseSeconds, token).result.value.value;
    assert MediaOk(db.items, db.media[cl.id]);
  }

  /** The reference waits, its pause is over, its deadline is not, and its observation was received. */
  ghost predicate MediaMayGo(db: Db, c: Call, m: Id) {
    var swept := SweptMedia(db, c).media;
    && m in swept && swept[m].binding == c.ref.id && (swept[m].state.PendingManifest? || swept[m].state.PendingContent?)
    && swept[m].next <= c.now < swept[m].deadline
    && swept[m].parent in db.items && db.items[swept[m].parent].operation.Observation?
    && db.items[swept[m].parent].state.Received?
  }

  /** A media claim succeeds exactly when the binding is active, no reservation is held and some reference may go; it
      takes the oldest of them, as it was after mirroring and reclaim, under the shared reservation. */
  lemma MediaClaimTakesFirst(db: Db, c: Call, leaseSeconds: int, token: Id)
    requires Inv(db) && ValidClock(c.now) && 1 <= leaseSeconds <= 60
    requires c.ref.id in db.bindings && db.bindings[c.ref.id].scope == c.scope
    requires db.bindings[c.ref.id].generation == c.ref.generation && db.bindings[c.ref.id].Live()
    ensures var r, swept := ClaimMedia(db, c, leaseSeconds, token), SweptMedia(db, c).media;
            && r.result.Ok?
            && (r.result.value.Some? <==>
                  db.bindings[c.ref.id].state.Active? && !Held(db, c.scope.installation, c.now)
                  && exists m :: MediaMayGo(db, c, m))
            && (r.result.value.None? ==> r.db == SweptMedia(db, c))
            && (r.result.value.Some? ==>
                  var cl := r.result.value.value;
                  && MediaMayGo(db, c, cl.id)
                  && (forall m :: MediaMayGo(db, c, m) && m != cl.id ==>
                        swept[cl.id].created < swept[m].created || (swept[cl.id].created == swept[m].created && cl.id < m))
                  && cl.until == Min(c.now + leaseSeconds * 1000, swept[cl.id].deadline)
                  && r.db.capacity == db.capacity[c.scope.installation := Reservation(token, cl.until)])
  {
    hide Inv, SweptMedia, LeaseMedia, ClaimMedia, MediaMayGo;
    var swept := SweptMedia(db, c).media;
    var due := MediaDueKeys(SweptMedia(db, c), c.ref.id, c.now);
    SweptGoes(db, c);
    ClaimMediaUnfolds(db, c, leaseSeconds, token);
    ClaimMediaCases(db, c, leaseSeconds, token);
    if due != {} {
      assert MediaMayGo(db, c, Least(due).id);
      forall m | MediaMayGo(db, c, m) && m != Least(due).id
        ensures Before(Key(0, swept[Least(due).id].created, Least(due).id), Key(0, swept[m].created, m))
      {
        assert Key(0, swept[m].created, m) in due;
      }
    }
  }

  lemma SweptGoes(db: Db, c: Call)
    ensures SweptMedia(db, c) == db.(media := SweptMedia(db, c).media)
    ensures var swept, due := SweptMedia(db, c).media, MediaDueKeys(SweptMedia(db, c), c.ref.id, c.now);
            && (forall m :: MediaMayGo(db, c, m) ==> m in swept && Key(0, swept[m].created, m) in due)
            && (forall k :: k in due ==>
                  k.id in swept && k == Key(0, swept[k.id].created, k.id) && MediaMayGo(db, c, k.id))
  {
    hide ReclaimMedia, SyncParent;
  }

  lemma ClaimMediaUnfolds(db: Db, c: Call, leaseSeconds: int, token: Id)
    requires ValidClock(c.now) && 1 <= leaseSeconds <= 60
    requires c.ref.id in db.bindings && db.bindings[c.ref.id].scope == c.scope
    requires db.bindings[c.ref.id].generation == c.ref.generation && db.bindings[c.ref.id].Live()
    ensures var r, due := ClaimMedia(db, c, leaseSeconds, token), MediaDueKeys(SweptMedia(db, c), c.ref.id, c.now);
            && r.result.Ok?
            && (r.result.value.Some? <==> due != {} && !Held(db, c.scope.installation, c.now)
                                          && db.bindings[c.ref.id].state.Active?)
            && (r.result.value.None? ==> r.db == SweptMedia(db, c))
            && (r.result.value.Some? ==> due != {} && r.result.value.value.id == Least(due).id)
  {
  }

  /** An overview is accepted exactly for a retained observation of the binding, a usable frame and no other frame
      before; then it is the one reference of that observation, new and waiting if there was none. */
  lemma OverviewExactly(db: Db, c: Call, parent: Id, frame: Option<Frame>, id: Id)
    requires Inv(db) && id !in db.media
    ensures var r := EnqueueOverview(db, c, parent, frame, id);
            && (r.result.Ok? <==>
                  && ValidClock(c.now) && parent in db.items && db.items[parent].binding == c.ref.id
                  && db.items[parent].operation.Observation? && frame.Some? && 1 <= frame.value.bytes <= 350 * 1024
                  && (forall m :: m in db.media && db.media[m].parent == parent ==> db.media[m].frame == frame.value))
            && (r.result.Err? ==> r.db == db)
            && (r.result.Ok? ==>
                  var m := r.result.value;
                  && m in r.db.media && r.db.media[m].parent == parent && r.db.media[m].frame == frame.value
                  && (forall n :: n in r.db.media && r.db.media[n].parent == parent ==> n == m)
                  && r.db == db.(media := db.media[m := r.db.media[m]])
                  && (m in db.media ==> r.db == db)
                  && (m !in db.media ==>
                        r.db.media[m].state.PendingManifest? && r.db.media[m].attempts == 0
                        && r.db.media[m].next == c.now && r.db.media[m].deadline == db.items[parent].deadline))
  {
    hide RowOk, MediaOk, BindingsOk, UniqueEntities;
    forall m, n | IsMediaOf(db, parent, m) && IsMediaOf(db, parent, n) ensures m == n {}
    assert forall m :: m in db.media && db.media[m].parent == parent ==> IsMediaOf(db, parent, m);
  }

  /** What a media row becomes under its parent: withdrawn once the parent's withdrawal is receipted, expired when
      that began with the deadline, cancelled when it ended otherwise; ready and blocked media only follow a receipt. */
  ghost predicate FollowsParent(p: Item, m: Media, n: Media, now: int) {
    var over := p.operation.Withdrawal? || p.state.Cancelled? || p.state.Expired? || p.state.Blocked?;
    if p.state.Withdrawn? && !m.state.MediaWithdrawn? then n.state.MediaWithdrawn? && Ended(m, n, now)
    else if over && (m.state.PendingManifest? || m.state.PendingContent? || IsLeased(m)
                     || m.state.MediaCancelled? || m.state.MediaExpired?)
    then (if p.reason == Some(LocalExpired) then n.state.MediaExpired? else n.state.MediaCancelled?) && Ended(m, n, now)
    else n == m
  }

  /** The lease is gone, the instant of the end is the first one, and nothing else changed. */
  ghost predicate Ended(m: Media, n: Media, now: int) {
    && n.lease.None? && n.error == Some(ParentWithdrawn)
    && n.terminal == (if m.terminal.Some? then m.terminal else Some(now))
    && n == m.(state := n.state, lease := None, error := n.error, terminal := n.terminal)
  }

  lemma MirrorFollows(p: Item, m: Media, now: int)
    ensures FollowsParent(p, m, SyncRow(m, p, now), now)
  {
  }

  /** Every reconciliation makes the media rows that it keeps follow their parents; doing it twice changes nothing. */
  lemma ReconcileFollows(db: Db, c: Call, m: Id)
    requires Inv(db) && ValidClock(c.now) && m in Reconcile(db, c).db.media
    ensures m in db.media && db.media[m].parent in db.items
    ensures var n := Reconcile(db, c).db.media[m];
            if db.media[m].binding == c.ref.id then FollowsParent(db.items[db.media[m].parent], db.media[m], n, c.now)
            else n == db.media[m]
    ensures m in Reconcile(Reconcile(db, c).db, c).db.media
    ensures Reconcile(Reconcile(db, c).db, c).db.media[m] == Reconcile(db, c).db.media[m]
  {
    hide FollowsParent, SyncRow, RowShape, BindingsOk;
    assert MediaOk(db.items, db.media[m]);
    MirrorFollows(db.items[db.media[m].parent], db.media[m], c.now);
    MirrorTwice(db.items[db.media[m].parent], db.media[m], c.now);
  }

  lemma MirrorTwice(p: Item, m: Media, now: int)
    ensures SyncRow(SyncRow(m, p, now), p, now) == SyncRow(m, p, now)
    ensures SyncRow(m, p, now).binding == m.binding && SyncRow(m, p, now).parent == m.parent
  {
  }

  // ------------------------------------------------- reconcile before pruning

  /** The pass of the sender: mirror the parents, drop old references, prune old parents. */
  ghost function ReconcileThenPrune(db: Db, c: Call, limit: int): Step<nat> {
    PruneTerminal(Reconcile(db, c).db, c, limit)
  }

  /** A parent that pruning may select has its reference dropped in the same pass exactly
      when that reference had already been terminal for 30 days. */
  lemma SpentParentReference(db: Db, c: Call, m: Id)
    requires Inv(db) && Open(db, c).Ok? && m in db.media
    requires Prunable(db.items[db.media[m].parent], c.ref.id, c.now - 31 * DAY_MS)
    ensures m !in Reconcile(db, c).db.media <==>
              db.media[m].terminal.Some? && db.media[m].terminal.value <= c.now - 30 * DAY_MS
  {
    var p := db.items[db.media[m].parent];
    assert MediaOk(db.items, db.media[m]) && RowOk(db.bindings, db.media[m].parent, p);
    SyncRowKeeps(p, db.media[m], c.now);
  }

  /** The pass is refused by the foreign key if and only if one of the selected parents
      still has a reference that became terminal less than 30 days ago, or never did. */
  lemma PruneBlockedExactly(db: Db, c: Call, limit: int)
    requires Inv(db) && Open(db, c).Ok? && 1 <= limit <= 1000
    ensures ReconcileThenPrune(db, c, limit).result == Err(ForeignKeyHeld) <==>
              exists m :: m in db.media && db.media[m].parent in PruneSet(db, c, limit)
                && !(db.media[m].terminal.Some? && db.media[m].terminal.value <= c.now - 30 * DAY_MS)
  {
    hide Reconcile, PruneSet, PruneTerminal, RowShape, BindingsOk, MediaFits;
    var mid := Reconcile(db, c).db;
    ReconcileKeepsItems(db, c, limit);
    forall m | m in db.media && db.media[m].parent in PruneSet(db, c, limit)
      ensures m in mid.media <==>
                !(db.media[m].terminal.Some? && db.media[m].terminal.value <= c.now - 30 * DAY_MS)
    {
      PruneSetIsPrunable(db, c, limit, db.media[m].parent);
      SpentParentReference(db, c, m);
    }
    ReconcileKeepsParents(db, c);
    PruneRefusedFor(mid, c, limit);
    if ReconcileThenPrune(db, c, limit).result == Err(ForeignKeyHeld) {
      var k :| k in PruneSet(mid, c, limit) && Referenced(mid, k);
      var m :| m in mid.media && mid.media[m].parent == k;
      assert m in db.media && db.media[m].parent == k;
    }
    if m :| m in db.media && db.media[m].parent in PruneSet(db, c, limit) && m in mid.media {
      assert Referenced(mid, db.media[m].parent);
    }
  }

  lemma ReconcileKeepsItems(db: Db, c: Call, limit: nat)
    ensures var mid := Reconcile(db, c).db;
            mid.items == db.items && mid.bindings == db.bindings && PruneSet(mid, c, limit) == PruneSet(db, c, limit)
  {
    hide Prunable;
  }

  lemma PruneRefusedFor(db: Db, c: Call, limit: int)
    requires 1 <= limit <= 1000 && Open(db, c).Ok?
    ensures PruneTerminal(db, c, limit).result == Err(ForeignKeyHeld) <==>
              exists k :: k in PruneSet(db, c, limit) && Referenced(db, k)
  {
    hide PruneSet, Referenced;
  }

  lemma ReconcileKeepsParents(db: Db, c: Call)
    ensures forall m :: m in Reconcile(db, c).db.media ==>
              m in db.media && Reconcile(db, c).db.media[m].parent == db.media[m].parent
  {
  }

  /** This reference became terminal within a day of its spent parent. */
  ghost predicate MirroredWithinADay(p: Item, m: Media) {
    Spent(p) && p.terminal.Some? ==> m.terminal.Some? && m.terminal.value <= p.terminal.value + DAY_MS
  }

  ghost predicate ReferencesMirrored(db: Db, doomed: set<Id>) {
    forall m | m in db.media && db.media[m].parent in doomed ::
      db.media[m].parent in db.items && MirroredWithinADay(db.items[db.media[m].parent], db.media[m])
  }

  /** Mirroring within a day is enough: 30 days for media and 31 for parents never collide. */
  lemma PruneNeverBlocked(db: Db, c: Call, limit: int)
    requires Inv(db) && Open(db, c).Ok? && 1 <= limit <= 1000
    requires ReferencesMirrored(db, PruneSet(db, c, limit))
    ensures ReconcileThenPrune(db, c, limit).result.Ok?
  {
    hide Inv, PruneSet;
    PruneBlockedExactly(db, c, limit);
    forall m | m in db.media && db.media[m].parent in PruneSet(db, c, limit)
      ensures db.media[m].terminal.Some? && db.media[m].terminal.value <= c.now - 30 * DAY_MS
    {
      PruneSetIsPrunable(db, c, limit, db.media[m].parent);
      assert MirroredWithinADay(db.items[db.media[m].parent], db.media[m]);
    }
  }
}
