/** What holds in every world that a run can reach. */
module OutboxHistory {
  import opened Basics
  import opened OutboxModel
  import opened MediaModel
  import opened OutboxInvariant
  import opened OutboxSteps
  import opened MediaSteps
  import opened OutboxRuns

  // ------------------------------------------------------------ rows and history

  /** A deleted row, against the binding it belonged to. */
  ghost predicate Gone(bindings: map<Id, Binding>, i: Item) {
    && RowShape(i) && Spent(i)
    && i.binding in bindings
    && (bindings[i.binding].Live() ==> i.created <= bindings[i.binding].clock - 31 * DAY_MS)
  }

  ghost predicate Recorded(w: World) {
    && w.created.Keys == w.db.items.Keys + w.pruned.Keys
    && w.db.items.Keys !! w.pruned.Keys
    && (forall k :: k in w.db.items ==> w.created[k] == Creation(w.db.items[k].binding, w.db.items[k].created))
    && (forall k :: k in w.pruned ==> w.created[k] == Creation(w.pruned[k].binding, w.pruned[k].created))
  }

  ghost predicate AllGone(w: World) {
    forall k :: k in w.pruned ==> Gone(w.db.bindings, w.pruned[k])
  }

  /** Every row ever created is in the table or was deleted as spent and old. */
  ghost predicate Tracked(w: World) {
    Recorded(w) && AllGone(w)
  }

  /** A row of the same source as a deleted one is at least 31 days younger. */
  ghost predicate Succeeds(w: World) {
    forall k, j | k in w.pruned && j in w.db.items && w.pruned[k].binding == w.db.items[j].binding
                  && w.pruned[k].entity == w.db.items[j].entity ::
      w.pruned[k].created + 31 * DAY_MS <= w.db.items[j].created
  }

  lemma ForgottenIsGone(db: Db, db': Db, k: Id)
    requires Inv(db) && k in db.items && BindingsEvolve(db.bindings, db'.bindings)
    requires db.items[k].binding in db.bindings && db.items[k].binding in db'.bindings
    requires Forgotten(db.bindings[db.items[k].binding], db'.bindings[db.items[k].binding], db.items[k])
    ensures Gone(db'.bindings, db.items[k])
  {
    var b := db.items[k].binding;
    assert RowOk(db.bindings, k, db.items[k]);
    assert BindingEvolves(db.bindings[b], db'.bindings[b]);
  }

  lemma GoneStays(bindings: map<Id, Binding>, bindings': map<Id, Binding>, i: Item)
    requires Gone(bindings, i) && BindingsEvolve(bindings, bindings')
    ensures Gone(bindings', i)
  {
    assert BindingEvolves(bindings[i.binding], bindings'[i.binding]);
  }

  lemma PrunedStayGone(w: World, e: Event)
    requires Inv(w.db) && AllGone(w) && Good(w.db, Effect(w.db, e), TokenOf(e))
    ensures AllGone(Next(w, e))
  {
    var db' := Effect(w.db, e);
    hide Inv, Effect, RowShape, RowEvolves, MediaEvolves, Forgotten, Gone;
    forall k | k in Next(w, e).pruned ensures Gone(db'.bindings, Next(w, e).pruned[k]) {
      if k in w.pruned && !(k in w.db.items && k !in db'.items) {
        GoneStays(w.db.bindings, db'.bindings, w.pruned[k]);
      } else {
        ForgottenIsGone(w.db, db', k);
      }
    }
  }

  lemma RecordedKeeps(w: World, e: Event)
    requires Recorded(w) && ItemsEvolve(w.db, Effect(w.db, e), TokenOf(e))
    requires forall k :: k in Effect(w.db, e).items && k !in w.db.items ==> k !in w.created
    ensures Recorded(Next(w, e))
  {
    hide Effect, IssuedBy, SettledBy;
    forall k | k in w.db.items && k in Effect(w.db, e).items
      ensures SameIdentity(w.db.items[k], Effect(w.db, e).items[k])
    {
      assert RowEvolves(w.db.items[k], Effect(w.db, e).items[k]);
    }
  }

  lemma TrackedKeeps(w: World, e: Event)
    requires Inv(w.db) && Tracked(w) && Good(w.db, Effect(w.db, e), TokenOf(e))
    requires forall k :: k in Effect(w.db, e).items && k !in w.db.items ==> k !in w.created
    ensures Tracked(Next(w, e))
  {
    PrunedStayGone(w, e);
    hide Inv, Effect, Next, Recorded, AllGone, ItemsEvolve;
    RecordedKeeps(w, e);
  }

  lemma ClaimRows(db: Db, c: Call, leaseSeconds: int, token: Id)
    requires Inv(db)
    ensures ClaimItem(db, c, leaseSeconds, token).db.items.Keys == db.items.Keys
    ensures ClaimItem(db, c, leaseSeconds, token).db.media == db.media
  {
    hide Inv, ClaimItem, IsDue;
    ClaimCases(db, c, leaseSeconds, token);
  }

  lemma MediaClaimRows(db: Db, c: Call, leaseSeconds: int, token: Id)
    ensures ClaimMedia(db, c, leaseSeconds, token).db.items == db.items
    ensures ClaimMedia(db, c, leaseSeconds, token).db.media.Keys == db.media.Keys
  {
    hide ClaimMedia, IsMediaDue;
    ClaimMediaCases(db, c, leaseSeconds, token);
  }

  lemma SettlementRows(db: Db, e: Event)
    requires Settling(e)
    ensures Effect(db, e).items.Keys == db.items.Keys && Effect(db, e).media.Keys == db.media.Keys
  {
    hide RejectRow, AcknowledgeRow, Free;
  }

  lemma OtherRows(db: Db, e: Event)
    requires !Settling(e) && !Admitting(e)
    ensures Effect(db, e).items.Keys <= db.items.Keys && Effect(db, e).media.Keys <= db.media.Keys
  {
    hide ChangeRow, RestoreRow, RestoreMedia, SyncParent, PruneSet, Open;
  }

  lemma AdmittedRows(db: Db, e: Event)
    requires Inv(db) && Admitting(e)
    ensures Effect(db, e).items.Keys <= if e.DoEnqueue? then db.items.Keys + {e.id} else db.items.Keys
    ensures Effect(db, e).media.Keys <= if e.DoEnqueueMedia? then db.media.Keys + {e.id} else db.media.Keys
  {
    hide Inv, Enqueue, ClaimItem, ClaimMedia, EnqueueOverview;
    match e
    case DoEnqueue(c, o, id) => EnqueueCases(db, c, o, id);
    case DoEnqueueMedia(c, parent, frame, id) => EnqueueOverviewCases(db, c, parent, frame, id);
    case DoClaim(c, leaseSeconds, token) => ClaimRows(db, c, leaseSeconds, token);
    case DoClaimMedia(c, leaseSeconds, token) => MediaClaimRows(db, c, leaseSeconds, token);
    case _ =>
  }

  /** Only an enqueue adds a row, and then it adds one. */
  lemma NewRows(db: Db, e: Event)
    requires Inv(db)
    ensures Effect(db, e).items.Keys <= if e.DoEnqueue? then db.items.Keys + {e.id} else db.items.Keys
    ensures Effect(db, e).media.Keys <= if e.DoEnqueueMedia? then db.media.Keys + {e.id} else db.media.Keys
  {
    hide Inv, Effect;
    if Settling(e) {
      SettlementRows(db, e);
    } else if Admitting(e) {
      AdmittedRows(db, e);
    } else {
      OtherRows(db, e);
    }
  }

  // ------------------------------------------------------------------- leases

  /** A leased row carries a token that was issued for it and not settled yet. */
  ghost predicate Leases(w: World) {
    && w.settled <= w.issued.Keys
    && (forall k :: k in w.db.items && w.db.items[k].lease.Some? ==>
          var t := w.db.items[k].lease.value.token;
          t in w.issued && t !in w.settled && w.issued[t].row == k && !w.issued[t].media)
    && (forall m :: m in w.db.media && w.db.media[m].lease.Some? ==>
          var t := w.db.media[m].lease.value.token;
          t in w.issued && t !in w.settled && w.issued[t].row == m && w.issued[t].media)
  }

  /** Rows hold this token only in the row it was issued for. */
  ghost predicate LeasedAs(db: Db, token: Id, issue: Option<(Id, Issue)>) {
    && (forall k :: k in db.items && db.items[k].lease.Some? && db.items[k].lease.value.token == token ==>
          issue.Some? && issue.value.0 == token && issue.value.1.row == k && !issue.value.1.media)
    && (forall m :: m in db.media && db.media[m].lease.Some? && db.media[m].lease.value.token == token ==>
          issue.Some? && issue.value.0 == token && issue.value.1.row == m && issue.value.1.media)
  }

  /** No row, of either queue, is leased to this token. */
  ghost predicate Unleased(db: Db, token: Id) {
    && (forall k :: k in db.items && db.items[k].lease.Some? ==> db.items[k].lease.value.token != token)
    && (forall m :: m in db.media && db.media[m].lease.Some? ==> db.media[m].lease.value.token != token)
  }

  lemma UnleasedStays(db: Db, db': Db, token: Id, drawn: Option<Id>)
    requires ItemsEvolve(db, db', drawn) && MediaEvolves(db, db', drawn)
    requires Unleased(db, token) && drawn != Some(token)
    ensures Unleased(db', token)
  {
    forall k | k in db'.items && db'.items[k].lease.Some? ensures db'.items[k].lease.value.token != token {
      assert k in db.items && LeaseKept(db.items[k], db'.items[k], drawn);
    }
    forall m | m in db'.media && db'.media[m].lease.Some? ensures db'.media[m].lease.value.token != token {
      assert m in db.media && MediaRowEvolves(db'.bindings, db.media[m], db'.media[m], drawn);
    }
  }

  lemma SweepUnleased(db: Db, c: Call, token: Id)
    requires Inv(db) && Open(db, c).Ok? && db.bindings[c.ref.id].Live() && Unleased(db, token)
    ensures Unleased(Sweep(db, c), token)
  {
    SweepKeeps(db, c);
    hide Inv, Sweep, ItemsEvolve, MediaEvolves;
    UnleasedStays(db, Sweep(db, c), token, None);
  }

  lemma SweptMediaUnleased(db: Db, c: Call, token: Id)
    requires Inv(db) && Unleased(db, token)
    ensures Unleased(SweptMedia(db, c), token)
  {
    SweptMediaEach(db, c);
    EachMediaKeeps(db, SweptMedia(db, c), None);
    hide Inv, SweptMedia, ItemsEvolve, MediaEvolves;
    UnleasedStays(db, SweptMedia(db, c), token, None);
  }

  lemma LeaseOne(db: Db, db': Db, token: Id, issue: (Id, Issue))
    requires Unleased(db, token) && issue.0 == token
    requires if issue.1.media
             then db'.items == db.items && issue.1.row in db'.media && db'.media == db.media[issue.1.row := db'.media[issue.1.row]]
             else db'.media == db.media && issue.1.row in db'.items && db'.items == db.items[issue.1.row := db'.items[issue.1.row]]
    ensures LeasedAs(db', token, Some(issue))
  {
  }

  lemma UnleasedIsLeasedAs(db: Db, token: Id, issue: Option<(Id, Issue)>)
    requires Unleased(db, token)
    ensures LeasedAs(db, token, issue)
  {
  }

  lemma ItemClaimLeases(db: Db, c: Call, leaseSeconds: int, token: Id, epoch: nat)
    requires Inv(db) && Unleased(db, token)
    ensures LeasedAs(ClaimItem(db, c, leaseSeconds, token).db, token,
                     IssuedBy(db, DoClaim(c, leaseSeconds, token), epoch))
  {
    var r := ClaimItem(db, c, leaseSeconds, token);
    var issue := IssuedBy(db, DoClaim(c, leaseSeconds, token), epoch);
    ClaimCases(db, c, leaseSeconds, token);
    if Open(db, c).Ok? && db.bindings[c.ref.id].Live() {
      SweepUnleased(db, c, token);
    }
    hide Inv, ClaimItem, LeasedAs, Open, LeaseRow, DueKeys;
    if issue.Some? {
      LeaseOne(Sweep(db, c), r.db, token, issue.value);
    } else if r.db == db || r.db == Touch(db, c) {
      UnleasedIsLeasedAs(r.db, token, issue);
    } else {
      UnleasedIsLeasedAs(Sweep(db, c), token, issue);
    }
  }

  lemma ClaimedMediaShape(db: Db, c: Call, leaseSeconds: int, token: Id)
    ensures var r := ClaimMedia(db, c, leaseSeconds, token);
            r.db.items == db.items
            && if r.result.Ok? && r.result.value.Some?
               then var id := r.result.value.value.id;
                    id in r.db.media && r.db.media == SweptMedia(db, c).media[id := r.db.media[id]]
               else r.db == db || r.db == SweptMedia(db, c)
  {
    ClaimMediaCases(db, c, leaseSeconds, token);
    assert SweptMedia(db, c).items == db.items;
    hide ClaimMedia, SweptMedia, LeaseMedia, IsMediaDue;
  }

  lemma SweptItems(db: Db, c: Call)
    ensures SweptMedia(db, c).items == db.items
  {
  }

  lemma MediaClaimLeases(db: Db, c: Call, leaseSeconds: int, token: Id, epoch: nat)
    requires Inv(db) && Unleased(db, token)
    ensures LeasedAs(ClaimMedia(db, c, leaseSeconds, token).db, token,
                     IssuedBy(db, DoClaimMedia(c, leaseSeconds, token), epoch))
  {
    hide Inv, ClaimMedia, LeasedAs, Unleased, SweptMedia;
    var r := ClaimMedia(db, c, leaseSeconds, token);
    var issue := IssuedBy(db, DoClaimMedia(c, leaseSeconds, token), epoch);
    ClaimedMediaShape(db, c, leaseSeconds, token);
    SweptMediaUnleased(db, c, token);
    SweptItems(db, c);
    if issue.Some? {
      LeaseOne(SweptMedia(db, c), r.db, token, issue.value);
    } else {
      UnleasedIsLeasedAs(r.db, token, issue);
    }
  }

  /** The token that an event draws ends up on the issued row, if anywhere. */
  lemma DrawnToken(db: Db, e: Event, epoch: nat)
    requires Inv(db) && TokenOf(e).Some? && Unleased(db, TokenOf(e).value)
    ensures LeasedAs(Effect(db, e), TokenOf(e).value, IssuedBy(db, e, epoch))
  {
    if e.DoClaim? {
      ItemClaimLeases(db, e.c, e.leaseSeconds, e.token, epoch);
    } else {
      MediaClaimLeases(db, e.c, e.leaseSeconds, e.token, epoch);
    }
  }

  /** A settlement: the row that the token leases loses that lease, and no other row changes. */
  ghost predicate SettlesItem(db: Db, db': Db, k: Id, installation: Id, token: Id) {
    && k in db.items && db.items[k].lease.Some? && db.items[k].lease.value.token == token
    && k in db'.items && db'.items == db.items[k := db'.items[k]] && db'.items[k].lease.None?
    && db'.media == db.media && db'.capacity == Free(db.capacity, installation, token)
  }

  ghost predicate SettlesMedia(db: Db, db': Db, m: Id, installation: Id, token: Id) {
    && m in db.media && db.media[m].lease.Some? && db.media[m].lease.value.token == token
    && m in db'.media && db'.media == db.media[m := db'.media[m]] && db'.media[m].lease.None?
    && db'.items == db.items && db'.capacity == Free(db.capacity, installation, token)
  }

  lemma RetrySettles(db: Db, c: Call, claim: Claim, delaySeconds: int)
    requires RetryItem(db, c, claim, delaySeconds).result.Ok?
    ensures SettlesItem(db, RetryItem(db, c, claim, delaySeconds).db, claim.id, c.scope.installation, claim.token)
  {
  }

  lemma AcknowledgeSettles(db: Db, c: Call, claim: Claim, receipt: Id)
    requires AcknowledgeItem(db, c, claim, receipt).result.Ok? && !Replays(db.items[claim.id], claim)
    ensures SettlesItem(db, AcknowledgeItem(db, c, claim, receipt).db, claim.id, c.scope.installation, claim.token)
  {
  }

  lemma RejectSettles(db: Db, c: Call, claim: Claim, code: Code)
    requires Inv(db) && RejectItem(db, c, claim, code).result.Ok?
    ensures SettlesItem(db, RejectItem(db, c, claim, code).db, claim.id, c.scope.installation, claim.token)
  {
  }

  lemma MediaSettles(db: Db, c: Call, claim: MediaClaim, n: Media)
    requires MediaLeaseError(db, c, claim).None? && n.lease.None?
    ensures SettlesMedia(db, SettleMedia(db, c, claim, n), claim.id, c.scope.installation, claim.token)
  {
  }

  /** The row that a settling event names. */
  lemma SettledRow(db: Db, e: Event)
    requires Inv(db) && SettledBy(db, e).Some?
    ensures var (installation, t) := SettledBy(db, e).value;
            TokenOf(e) == None && Settling(e)
            && if SettlingMedia(e) then SettlesMedia(db, Effect(db, e), e.mediaClaim.id, installation, t)
               else SettlesItem(db, Effect(db, e), e.claim.id, installation, t)
  {
    hide Inv, SettlesItem, SettlesMedia;
    match e
    case DoRetry(c, claim, delay) => RetrySettles(db, c, claim, delay);
    case DoAcknowledge(c, claim, receipt) => AcknowledgeSettles(db, c, claim, receipt);
    case DoReject(c, claim, code) => RejectSettles(db, c, claim, code);
    case DoRetryMedia(c, claim, delay) => MediaSettles(db, c, claim, RetryMedia(db, c, claim, delay).db.media[claim.id]);
    case DoAcknowledgeManifest(c, claim, evidence, upload, ready) =>
      MediaSettles(db, c, claim, AcknowledgeManifest(db, c, claim, evidence, upload, ready).db.media[claim.id]);
    case DoAcknowledgeContent(c, claim, evidence, ready) =>
      MediaSettles(db, c, claim, AcknowledgeContent(db, c, claim, evidence, ready).db.media[claim.id]);
    case DoRejectMedia(c, claim, code) => MediaSettles(db, c, claim, RejectMedia(db, c, claim, code).db.media[claim.id]);
    case _ =>
  }

  lemma FreshIsUnleased(w: World, token: Id)
    requires Leases(w) && token !in w.issued
    ensures Unleased(w.db, token)
  {
  }

  lemma ItemSettlementUnleases(w: World, db': Db, k: Id, installation: Id, t: Id)
    requires Leases(w) && SettlesItem(w.db, db', k, installation, t)
    ensures Unleased(db', t) && t in w.issued && t !in w.settled
  {
  }

  lemma MediaSettlementUnleases(w: World, db': Db, m: Id, installation: Id, t: Id)
    requires Leases(w) && SettlesMedia(w.db, db', m, installation, t)
    ensures Unleased(db', t) && t in w.issued && t !in w.settled
  {
  }

  /** After a settlement no row is leased to its token any more. */
  lemma SettledIsUnleased(w: World, e: Event)
    requires Inv(w.db) && Leases(w) && SettledBy(w.db, e).Some?
    ensures Unleased(Effect(w.db, e), SettledBy(w.db, e).value.1)
    ensures SettledBy(w.db, e).value.1 in w.issued && SettledBy(w.db, e).value.1 !in w.settled
  {
    hide Inv, Leases, Unleased, Effect, SettledBy, SettlesItem, SettlesMedia;
    SettledRow(w.db, e);
    var (installation, t) := SettledBy(w.db, e).value;
    if SettlingMedia(e) {
      MediaSettlementUnleases(w, Effect(w.db, e), e.mediaClaim.id, installation, t);
    } else {
      ItemSettlementUnleases(w, Effect(w.db, e), e.claim.id, installation, t);
    }
  }

  /** What this event must leave of the leases, read off the world before it. */
  ghost predicate LeaseBook(w: World, e: Event) {
    && (TokenOf(e).Some? ==> LeasedAs(Effect(w.db, e), TokenOf(e).value, IssuedBy(w.db, e, w.epoch)))
    && (SettledBy(w.db, e).Some? ==>
          Unleased(Effect(w.db, e), SettledBy(w.db, e).value.1) && SettledBy(w.db, e).value.1 in w.issued)
  }

  lemma ItemLeaseKeeps(w: World, e: Event, k: Id)
    requires Leases(w) && LeaseBook(w, e) && ItemsEvolve(w.db, Effect(w.db, e), TokenOf(e))
    requires IssuedBy(w.db, e, w.epoch).Some? ==> TokenOf(e) == Some(IssuedBy(w.db, e, w.epoch).value.0)
    requires TokenOf(e).Some? ==> TokenOf(e).value !in w.issued
    requires k in Next(w, e).db.items && Next(w, e).db.items[k].lease.Some?
    ensures var w' := Next(w, e);
            var t := w'.db.items[k].lease.value.token;
            t in w'.issued && t !in w'.settled && w'.issued[t].row == k && !w'.issued[t].media
  {
    hide Effect, IssuedBy, SettledBy, TokenOf;
    if TokenOf(e) != Some(Effect(w.db, e).items[k].lease.value.token) {
      assert k in w.db.items && LeaseKept(w.db.items[k], Effect(w.db, e).items[k], TokenOf(e));
    }
  }

  lemma MediaLeaseKeeps(w: World, e: Event, m: Id)
    requires Leases(w) && LeaseBook(w, e) && MediaEvolves(w.db, Effect(w.db, e), TokenOf(e))
    requires IssuedBy(w.db, e, w.epoch).Some? ==> TokenOf(e) == Some(IssuedBy(w.db, e, w.epoch).value.0)
    requires TokenOf(e).Some? ==> TokenOf(e).value !in w.issued
    requires m in Next(w, e).db.media && Next(w, e).db.media[m].lease.Some?
    ensures var w' := Next(w, e);
            var t := w'.db.media[m].lease.value.token;
            t in w'.issued && t !in w'.settled && w'.issued[t].row == m && w'.issued[t].media
  {
    hide Effect, IssuedBy, SettledBy, TokenOf;
    if TokenOf(e) != Some(Effect(w.db, e).media[m].lease.value.token) {
      assert m in w.db.media;
      assert MediaRowEvolves(Effect(w.db, e).bindings, w.db.media[m], Effect(w.db, e).media[m], TokenOf(e));
    }
  }

  lemma LeaseBookHolds(w: World, e: Event)
    requires Inv(w.db) && Leases(w)
    requires TokenOf(e).Some? ==> TokenOf(e).value !in w.issued
    ensures LeaseBook(w, e)
  {
    hide Inv, Effect, IssuedBy, LeasedAs, Unleased;
    if TokenOf(e).Some? {
      FreshIsUnleased(w, TokenOf(e).value);
      DrawnToken(w.db, e, w.epoch);
    }
    if SettledBy(w.db, e).Some? {
      SettledIsUnleased(w, e);
    }
  }

  lemma IssuedIsDrawn(db: Db, e: Event, epoch: nat)
    ensures IssuedBy(db, e, epoch).Some? ==> TokenOf(e) == Some(IssuedBy(db, e, epoch).value.0)
  {
  }

  lemma LeasesKeeps(w: World, e: Event)
    requires Inv(w.db) && Leases(w) && Good(w.db, Effect(w.db, e), TokenOf(e))
    requires TokenOf(e).Some? ==> TokenOf(e).value !in w.issued
    ensures Leases(Next(w, e))
  {
    var w' := Next(w, e);
    LeaseBookHolds(w, e);
    IssuedIsDrawn(w.db, e, w.epoch);
    hide Inv, Effect, IssuedBy, SettledBy, ItemsEvolve, MediaEvolves, LeasedAs, Unleased;
    forall k | k in w'.db.items && w'.db.items[k].lease.Some?
      ensures var t := w'.db.items[k].lease.value.token;
              t in w'.issued && t !in w'.settled && w'.issued[t].row == k && !w'.issued[t].media
    {
      ItemLeaseKeeps(w, e, k);
    }
    forall m | m in w'.db.media && w'.db.media[m].lease.Some?
      ensures var t := w'.db.media[m].lease.value.token;
              t in w'.issued && t !in w'.settled && w'.issued[t].row == m && w'.issued[t].media
    {
      MediaLeaseKeeps(w, e, m);
    }
  }

  // ------------------------------------------------------------------ in flight

  /** A request that may still be running: issued in this epoch, neither settled nor past its lease. */
  ghost predicate Running(w: World, token: Id) {
    && token in w.issued && token !in w.settled
    && w.issued[token].epoch == w.epoch && w.issued[token].until > w.now
  }

  /** Every running request is the one its installation's reservation names. */
  ghost predicate InFlight(w: World) {
    && (forall t :: t in w.issued ==> w.issued[t].epoch <= w.epoch)
    && (forall t :: Running(w, t) ==>
          w.issued[t].installation in w.db.capacity
          && w.db.capacity[w.issued[t].installation] == Reservation(t, w.issued[t].until))
  }

  lemma ClaimReserves(db: Db, e: Event, epoch: nat)
    requires Inv(db) && IssuedBy(db, e, epoch).Some?
    ensures var (t, issue) := IssuedBy(db, e, epoch).value;
            && Some(t) == TokenOf(e) && issue.epoch == epoch && !Held(db, issue.installation, e.Time(0))
            && Effect(db, e).capacity == db.capacity[issue.installation := Reservation(t, issue.until)]
  {
    if e.DoClaim? {
      ClaimCases(db, e.c, e.leaseSeconds, e.token);
      hide Inv, ClaimItem, Takes;
    } else {
      ClaimMediaCases(db, e.c, e.leaseSeconds, e.token);
      hide Inv, ClaimMedia, IsMediaDue;
    }
  }

  lemma IdleClaim(db: Db, c: Call, leaseSeconds: int, token: Id)
    requires Inv(db)
    ensures var r := ClaimItem(db, c, leaseSeconds, token);
            (r.result.Ok? ==> r.result.value.None?) ==> r.db.capacity == db.capacity
  {
    hide Inv, ClaimItem, IsDue;
    ClaimCases(db, c, leaseSeconds, token);
  }

  lemma IdleMediaClaim(db: Db, c: Call, leaseSeconds: int, token: Id)
    ensures var r := ClaimMedia(db, c, leaseSeconds, token);
            (r.result.Ok? ==> r.result.value.None?) ==> r.db.capacity == db.capacity
  {
    hide ClaimMedia, IsMediaDue;
    ClaimMediaCases(db, c, leaseSeconds, token);
  }

  lemma IdleSettlement(db: Db, e: Event)
    requires Settling(e) && SettledBy(db, e).None?
    ensures Effect(db, e).capacity == db.capacity
  {
    hide LeaseError, MediaLeaseError, Settle, SettleMedia, Open;
  }

  lemma IdleAdmission(db: Db, e: Event, epoch: nat)
    requires Inv(db) && Admitting(e) && IssuedBy(db, e, epoch).None?
    ensures Effect(db, e).capacity == db.capacity
  {
    hide Inv, Enqueue, ClaimItem, ClaimMedia, EnqueueOverview;
    match e
    case DoEnqueue(c, o, id) => EnqueueCases(db, c, o, id);
    case DoEnqueueMedia(c, parent, frame, id) => EnqueueOverviewCases(db, c, parent, frame, id);
    case DoClaim(c, leaseSeconds, token) => IdleClaim(db, c, leaseSeconds, token);
    case DoClaimMedia(c, leaseSeconds, token) => IdleMediaClaim(db, c, leaseSeconds, token);
    case _ =>
  }

  lemma OtherCapacity(db: Db, e: Event)
    requires !Settling(e) && !Admitting(e)
    ensures Effect(db, e).capacity == db.capacity || (e.DoRestore? && MarkRestored(db, e.now).result.Ok?)
  {
    hide ChangeRows, SyncParent, PruneSet, Open;
  }

  /** No other step touches the reservations, except a restore, which drops them all. */
  lemma CapacityStays(db: Db, e: Event, epoch: nat)
    requires Inv(db) && IssuedBy(db, e, epoch).None? && SettledBy(db, e).None?
    ensures Effect(db, e).capacity == db.capacity || (e.DoRestore? && MarkRestored(db, e.now).result.Ok?)
  {
    hide Inv, Effect, IssuedBy, SettledBy, MarkRestored;
    if Settling(e) {
      IdleSettlement(db, e);
    } else if Admitting(e) {
      IdleAdmission(db, e, epoch);
    } else {
      OtherCapacity(db, e);
    }
  }

  /** The reservation table moves only with claims, settlements and restores. */
  lemma CapacityMoves(db: Db, e: Event, epoch: nat)
    requires Inv(db)
    ensures IssuedBy(db, e, epoch).Some? ==>
              var (t, issue) := IssuedBy(db, e, epoch).value;
              && Some(t) == TokenOf(e) && issue.epoch == epoch && !Held(db, issue.installation, e.Time(0))
              && Effect(db, e).capacity == db.capacity[issue.installation := Reservation(t, issue.until)]
              && !e.DoRestore? && !e.DoPauseRow? && SettledBy(db, e).None?
    ensures SettledBy(db, e).Some? ==>
              Effect(db, e).capacity == Free(db.capacity, SettledBy(db, e).value.0, SettledBy(db, e).value.1)
              && !e.DoRestore?
    ensures IssuedBy(db, e, epoch).None? && SettledBy(db, e).None? ==>
              Effect(db, e).capacity == db.capacity || (e.DoRestore? && MarkRestored(db, e.now).result.Ok?)
  {
    hide Inv, Effect, MarkRestored, Held;
    if SettledBy(db, e).Some? {
      SettledRow(db, e);
    } else if IssuedBy(db, e, epoch).Some? {
      ClaimReserves(db, e, epoch);
    } else {
      CapacityStays(db, e, epoch);
    }
  }

  /** A claim out of a free reservation takes it. */
  ghost predicate Reserves(w: World, w': World, t: Id, issue: Issue) {
    && t !in w.issued && !Held(w.db, issue.installation, w'.now)
    && w'.issued == w.issued[t := issue] && w'.settled == w.settled && w'.epoch == w.epoch == issue.epoch
    && w'.db.capacity == w.db.capacity[issue.installation := Reservation(t, issue.until)]
  }

  /** A settlement gives back its own reservation only. */
  ghost predicate GivesBack(w: World, w': World, installation: Id, t: Id) {
    && w'.issued == w.issued && w'.settled == w.settled + {t} && w'.epoch == w.epoch
    && w'.db.capacity == Free(w.db.capacity, installation, t)
  }

  /** Nothing happens to the reservations, or a restore starts a new epoch. */
  ghost predicate LeavesAlone(w: World, w': World) {
    && w'.issued == w.issued && w'.settled == w.settled
    && (w'.epoch == w.epoch + 1 || (w'.epoch == w.epoch && w'.db.capacity == w.db.capacity))
  }

  lemma FlightMoves(w: World, e: Event)
    requires Inv(w.db) && (TokenOf(e).Some? ==> TokenOf(e).value !in w.issued)
    ensures var w' := Next(w, e);
            || (IssuedBy(w.db, e, w.epoch).Some?
                && Reserves(w, w', IssuedBy(w.db, e, w.epoch).value.0, IssuedBy(w.db, e, w.epoch).value.1))
            || (SettledBy(w.db, e).Some?
                && GivesBack(w, w', SettledBy(w.db, e).value.0, SettledBy(w.db, e).value.1))
            || LeavesAlone(w, w')
  {
    CapacityMoves(w.db, e, w.epoch);
    hide Inv, Effect, IssuedBy, SettledBy, MarkRestored, TokenOf, Free;
  }

  lemma ReservesKeeps(w: World, w': World, t: Id, issue: Issue)
    requires InFlight(w) && w.now <= w'.now && Reserves(w, w', t, issue)
    ensures InFlight(w')
  {
    forall u | Running(w', u)
      ensures w'.issued[u].installation in w'.db.capacity
              && w'.db.capacity[w'.issued[u].installation] == Reservation(u, w'.issued[u].until)
    {
      assert u != t ==> Running(w, u);
    }
  }

  lemma GivesBackKeeps(w: World, w': World, installation: Id, t: Id)
    requires InFlight(w) && w.now <= w'.now && GivesBack(w, w', installation, t)
    ensures InFlight(w')
  {
    forall u | Running(w', u)
      ensures w'.issued[u].installation in w'.db.capacity
              && w'.db.capacity[w'.issued[u].installation] == Reservation(u, w'.issued[u].until)
    {
      assert Running(w, u);
    }
  }

  lemma LeavesAloneKeeps(w: World, w': World)
    requires InFlight(w) && w.now <= w'.now && LeavesAlone(w, w')
    ensures InFlight(w')
  {
    forall u | Running(w', u)
      ensures w'.issued[u].installation in w'.db.capacity
              && w'.db.capacity[w'.issued[u].installation] == Reservation(u, w'.issued[u].until)
    {
      assert Running(w, u);
    }
  }

  lemma InFlightKeeps(w: World, e: Event)
    requires Inv(w.db) && InFlight(w) && e.Time(w.now) >= w.now
    requires TokenOf(e).Some? ==> TokenOf(e).value !in w.issued
    ensures InFlight(Next(w, e))
  {
    var w' := Next(w, e);
    FlightMoves(w, e);
    assert w'.now >= w.now;
    hide Inv, Next, InFlight, Reserves, GivesBack, LeavesAlone, IssuedBy, SettledBy;
    if IssuedBy(w.db, e, w.epoch).Some?
       && Reserves(w, w', IssuedBy(w.db, e, w.epoch).value.0, IssuedBy(w.db, e, w.epoch).value.1)
    {
      ReservesKeeps(w, w', IssuedBy(w.db, e, w.epoch).value.0, IssuedBy(w.db, e, w.epoch).value.1);
    } else if LeavesAlone(w, w') {
      LeavesAloneKeeps(w, w');
    } else {
      GivesBackKeeps(w, w', SettledBy(w.db, e).value.0, SettledBy(w.db, e).value.1);
    }
  }

  // --------------------------------------------------------------------- quotas

  ghost predicate Room(db: Db, sel: Selector, pending: nat, records: nat, bytes: nat) {
    && |Records(db.bindings, db.items, sel)| <= records
    && |Waiting(db.bindings, db.items, sel)| <= pending
    && Sum(Charges(db.bindings, db.items, sel)) <= bytes
  }

  /** The limits that one selection of rows is held to. */
  ghost predicate Within(db: Db, limits: Limits, sel: Selector) {
    match sel
    case OfBinding(_) => Room(db, sel, limits.pendingPerBinding, limits.recordsPerBinding, limits.bytesPerBinding)
    case OfInstallation(_) =>
      Room(db, sel, limits.pendingPerInstallation, limits.recordsPerInstallation, limits.bytesPerInstallation)
  }

  lemma SelectionStays(db: Db, db': Db, token: Option<Id>, sel: Selector, k: Id)
    requires Inv(db) && Good(db, db', token) && k in db.items && k in db'.items
    requires Selected(db'.bindings, sel, db'.items[k])
    ensures Selected(db.bindings, sel, db.items[k])
    ensures Charge(db'.items[k]) <= Charge(db.items[k])
    ensures CountsPending(db'.items[k]) ==> CountsPending(db.items[k])
  {
    assert RowOk(db.bindings, k, db.items[k]) && RowEvolves(db.items[k], db'.items[k]);
    assert BindingEvolves(db.bindings[db.items[k].binding], db'.bindings[db.items[k].binding]);
  }

  /** A step that adds no row raises no count and no charge. */
  lemma RoomStays(db: Db, db': Db, token: Option<Id>, sel: Selector)
    requires Inv(db) && Good(db, db', token) && db'.items.Keys <= db.items.Keys
    ensures |Records(db'.bindings, db'.items, sel)| <= |Records(db.bindings, db.items, sel)|
    ensures |Waiting(db'.bindings, db'.items, sel)| <= |Waiting(db.bindings, db.items, sel)|
    ensures Sum(Charges(db'.bindings, db'.items, sel)) <= Sum(Charges(db.bindings, db.items, sel))
  {
    forall k | k in db'.items && Selected(db'.bindings, sel, db'.items[k])
      ensures k in Records(db.bindings, db.items, sel)
              && Charge(db'.items[k]) <= Charge(db.items[k])
              && (CountsPending(db'.items[k]) ==> CountsPending(db.items[k]))
    {
      SelectionStays(db, db', token, sel, k);
    }
    SubsetSize(Records(db'.bindings, db'.items, sel), Records(db.bindings, db.items, sel));
    SubsetSize(Waiting(db'.bindings, db'.items, sel), Waiting(db.bindings, db.items, sel));
    SumAtMost(Charges(db'.bindings, db'.items, sel), Charges(db.bindings, db.items, sel));
  }

  lemma SelectionAfterTouch(db: Db, c: Call, sel: Selector, i: Item)
    requires Open(db, c).Ok?
    ensures Selected(Touch(db, c).bindings, sel, i) <==> Selected(db.bindings, sel, i)
  {
  }

  /** A new row adds itself to the selections it belongs to. */
  lemma OneMoreRecord(bindings: map<Id, Binding>, bindings': map<Id, Binding>, items: map<Id, Item>, id: Id, i: Item,
                      sel: Selector)
    requires id !in items
    requires forall j :: Selected(bindings', sel, j) <==> Selected(bindings, sel, j)
    ensures |Records(bindings', items[id := i], sel)|
              == |Records(bindings, items, sel)| + (if Selected(bindings, sel, i) then 1 else 0)
  {
    hide Selected;
    if Selected(bindings, sel, i) {
      assert Records(bindings', items[id := i], sel) == Records(bindings, items, sel) + {id};
    } else {
      assert Records(bindings', items[id := i], sel) == Records(bindings, items, sel);
    }
  }

  lemma OneMoreWaiting(bindings: map<Id, Binding>, bindings': map<Id, Binding>, items: map<Id, Item>, id: Id, i: Item,
                       sel: Selector)
    requires id !in items
    requires forall j :: Selected(bindings', sel, j) <==> Selected(bindings, sel, j)
    ensures |Waiting(bindings', items[id := i], sel)|
              == |Waiting(bindings, items, sel)| + (if Selected(bindings, sel, i) && CountsPending(i) then 1 else 0)
  {
    hide Selected, CountsPending;
    if Selected(bindings, sel, i) && CountsPending(i) {
      assert Waiting(bindings', items[id := i], sel) == Waiting(bindings, items, sel) + {id};
    } else {
      assert Waiting(bindings', items[id := i], sel) == Waiting(bindings, items, sel);
    }
  }

  lemma OneMoreCharge(bindings: map<Id, Binding>, bindings': map<Id, Binding>, items: map<Id, Item>, id: Id, i: Item,
                      sel: Selector)
    requires id !in items
    requires forall j :: Selected(bindings', sel, j) <==> Selected(bindings, sel, j)
    ensures Sum(Charges(bindings', items[id := i], sel))
              == Sum(Charges(bindings, items, sel)) + (if Selected(bindings, sel, i) then Charge(i) else 0)
  {
    hide Selected, Charge, Sum;
    var before := Charges(bindings, items, sel);
    if Selected(bindings, sel, i) {
      assert Charges(bindings', items[id := i], sel) == before[id := Charge(i)];
      SumInsert(before, id, Charge(i));
    } else {
      assert Charges(bindings', items[id := i], sel) == before;
    }
  }

  /** An enqueue that passed the quota check stays within the limits. */
  lemma AdmissionFits(db: Db, c: Call, o: MappedObservation, id: Id, sel: Selector)
    requires Open(db, c).Ok? && id !in db.items && o.body.ObservationBody?
    requires QuotaError(db, c, o.body.size + SEAL_OVERHEAD).None? && Within(db, c.limits, sel)
    ensures Within(Touch(db, c).(items := db.items[id := NewItem(c, o, id)]), c.limits, sel)
  {
    var i := NewItem(c, o, id);
    forall j ensures Selected(Touch(db, c).bindings, sel, j) <==> Selected(db.bindings, sel, j) {
      SelectionAfterTouch(db, c, sel, j);
    }
    OneMoreRecord(db.bindings, Touch(db, c).bindings, db.items, id, i, sel);
    OneMoreWaiting(db.bindings, Touch(db, c).bindings, db.items, id, i, sel);
    OneMoreCharge(db.bindings, Touch(db, c).bindings, db.items, id, i, sel);
    assert Charge(i) == Max(o.body.size + SEAL_OVERHEAD, WITHDRAWAL_RESERVE);
    if Selected(db.bindings, sel, i) {
      assert sel == OfBinding(c.ref.id) || sel == OfInstallation(c.scope.installation);
    }
  }

  lemma RoomStaysWithin(db: Db, db': Db, limits: Limits, token: Option<Id>, sel: Selector)
    requires Inv(db) && Good(db, db', token) && db'.items.Keys <= db.items.Keys && Within(db, limits, sel)
    ensures Within(db', limits, sel)
  {
    RoomStays(db, db', token, sel);
  }

  lemma EnqueueWithin(db: Db, c: Call, o: MappedObservation, id: Id, sel: Selector)
    requires Inv(db) && id !in db.items && Within(db, c.limits, sel)
    ensures Within(Enqueue(db, c, o, id).db, c.limits, sel)
  {
    hide Within, QuotaError, Enqueue, IsRow, NewItem, Inv, Good, Touch;
    EnqueueCases(db, c, o, id);
    var db' := Enqueue(db, c, o, id).db;
    if db' == db {
    } else if db' == Touch(db, c) {
      TouchKeeps(db, c);
      TouchRows(db, c);
      RoomStaysWithin(db, db', c.limits, None, sel);
    } else {
      AdmissionFits(db, c, o, id, sel);
    }
  }

  lemma TouchRows(db: Db, c: Call)
    requires c.ref.id in db.bindings
    ensures Touch(db, c).items == db.items
  {
  }

  lemma WithinKeeps(w: World, e: Event, limits: Limits, sel: Selector)
    requires Inv(w.db) && Within(w.db, limits, sel)
    requires e.DoEnqueue? ==> e.id !in w.db.items && e.c.limits == limits
    requires Good(w.db, Effect(w.db, e), TokenOf(e))
    ensures Within(Effect(w.db, e), limits, sel)
  {
    hide Within, Inv, Good, Enqueue;
    NewRows(w.db, e);
    if e.DoEnqueue? {
      EnqueueWithin(w.db, e.c, e.o, e.id, sel);
    } else {
      RoomStaysWithin(w.db, Effect(w.db, e), limits, TokenOf(e), sel);
    }
  }

  // -------------------------------------------------------------- sliding window

  /** The rows of a binding that were created within the day that ends at `t`. */
  ghost function CreatedWithinDay(created: map<Id, Creation>, binding: Id, t: int): set<Id> {
    set k | k in created && created[k].binding == binding && t - DAY_MS < created[k].at <= t
  }

  ghost predicate DailyQuota(w: World, limits: Limits) {
    forall b, t :: |CreatedWithinDay(w.created, b, t)| <= limits.dailyPerBinding
  }

  lemma DeletedIsOld(w: World, c: Call)
    requires Tracked(w) && Open(w.db, c).Ok? && w.db.bindings[c.ref.id].Live()
    ensures forall k :: k in w.pruned && w.created[k].binding == c.ref.id ==> w.created[k].at <= c.now - 31 * DAY_MS
  {
    forall k | k in w.pruned && w.created[k].binding == c.ref.id ensures w.created[k].at <= c.now - 31 * DAY_MS {
      assert Gone(w.db.bindings, w.pruned[k]);
    }
  }

  /** At an admission, every row created in the last day is still in the table. */
  lemma RecentIsRetained(w: World, c: Call)
    requires Tracked(w) && Open(w.db, c).Ok? && w.db.bindings[c.ref.id].Live()
    ensures forall k :: k in w.created && w.created[k].binding == c.ref.id && w.created[k].at > c.now - DAY_MS ==>
              k in CreatedSince(w.db.items, c.ref.id, c.now - DAY_MS)
  {
    DeletedIsOld(w, c);
  }

  lemma AdmissionInWindow(w: World, c: Call, id: Id, created: map<Id, Creation>, t: int)
    requires Tracked(w) && Open(w.db, c).Ok? && w.db.bindings[c.ref.id].Live()
    requires created == w.created[id := Creation(c.ref.id, c.now)] && t - DAY_MS < c.now <= t
    requires |CreatedSince(w.db.items, c.ref.id, c.now - DAY_MS)| < c.limits.dailyPerBinding
    ensures |CreatedWithinDay(created, c.ref.id, t)| <= c.limits.dailyPerBinding
  {
    RecentIsRetained(w, c);
    var recent := CreatedSince(w.db.items, c.ref.id, c.now - DAY_MS);
    SubsetSize(CreatedWithinDay(created, c.ref.id, t), recent + {id});
  }

  /** The row that an enqueue adds, if it adds one. */
  lemma AddedRow(db: Db, e: Event)
    requires Inv(db) && (e.DoEnqueue? ==> e.id !in db.items)
    ensures || Effect(db, e).items.Keys <= db.items.Keys
            || (e.DoEnqueue? && Open(db, e.c).Ok? && db.bindings[e.c.ref.id].Live()
                && |CreatedSince(db.items, e.c.ref.id, e.c.now - DAY_MS)| < e.c.limits.dailyPerBinding
                && Effect(db, e).items == db.items[e.id := NewItem(e.c, e.o, e.id)])
  {
    NewRows(db, e);
    if e.DoEnqueue? {
      EnqueueCases(db, e.c, e.o, e.id);
      hide Inv, Enqueue;
    }
  }

  lemma NoCreation(items: map<Id, Item>, items': map<Id, Item>)
    requires items'.Keys <= items.Keys
    ensures Creations(items, items') == map[]
  {
  }

  lemma OneCreation(items: map<Id, Item>, id: Id, i: Item)
    requires id !in items
    ensures Creations(items, items[id := i]) == map[id := Creation(i.binding, i.created)]
  {
  }

  lemma NextCreated(w: World, e: Event)
    ensures Next(w, e).created == w.created + Creations(w.db.items, Effect(w.db, e).items)
  {
    hide Effect, Creations, IssuedBy, SettledBy, MarkRestored;
  }

  lemma NewItemRow(c: Call, o: MappedObservation, id: Id)
    ensures NewItem(c, o, id).binding == c.ref.id && NewItem(c, o, id).created == c.now
  {
  }

  /** What an event adds to the record of created rows. */
  lemma CreatedGrows(w: World, e: Event)
    requires Inv(w.db) && (e.DoEnqueue? ==> e.id !in w.db.items)
    ensures var w' := Next(w, e);
            || w'.created == w.created
            || (e.DoEnqueue? && Open(w.db, e.c).Ok? && w.db.bindings[e.c.ref.id].Live()
                && |CreatedSince(w.db.items, e.c.ref.id, e.c.now - DAY_MS)| < e.c.limits.dailyPerBinding
                && w'.created == w.created[e.id := Creation(e.c.ref.id, e.c.now)])
  {
    hide *;
    AddedRow(w.db, e);
    NextCreated(w, e);
    if Effect(w.db, e).items.Keys <= w.db.items.Keys {
      NoCreation(w.db.items, Effect(w.db, e).items);
    } else {
      NewItemRow(e.c, e.o, e.id);
      OneCreation(w.db.items, e.id, NewItem(e.c, e.o, e.id));
    }
  }

  lemma OutsideWindow(created: map<Id, Creation>, id: Id, creation: Creation, b: Id, t: int)
    requires id !in created && !(b == creation.binding && t - DAY_MS < creation.at <= t)
    ensures CreatedWithinDay(created[id := creation], b, t) == CreatedWithinDay(created, b, t)
  {
  }

  lemma AdmissionKeepsWindow(w: World, c: Call, id: Id, created: map<Id, Creation>, b: Id, t: int)
    requires Tracked(w) && Open(w.db, c).Ok? && w.db.bindings[c.ref.id].Live() && id !in w.created
    requires created == w.created[id := Creation(c.ref.id, c.now)]
    requires |CreatedSince(w.db.items, c.ref.id, c.now - DAY_MS)| < c.limits.dailyPerBinding
    requires |CreatedWithinDay(w.created, b, t)| <= c.limits.dailyPerBinding
    ensures |CreatedWithinDay(created, b, t)| <= c.limits.dailyPerBinding
  {
    hide CreatedWithinDay, Tracked, Open, CreatedSince;
    if b == c.ref.id && t - DAY_MS < c.now <= t {
      AdmissionInWindow(w, c, id, created, t);
    } else {
      OutsideWindow(w.created, id, Creation(c.ref.id, c.now), b, t);
    }
  }

  lemma WindowKeeps(w: World, e: Event, limits: Limits, b: Id, t: int)
    requires Inv(w.db) && Tracked(w)
    requires e.DoEnqueue? ==> e.id !in w.created && e.id !in w.db.items && e.c.limits == limits
    requires |CreatedWithinDay(w.created, b, t)| <= limits.dailyPerBinding
    ensures |CreatedWithinDay(Next(w, e).created, b, t)| <= limits.dailyPerBinding
  {
    hide *;
    CreatedGrows(w, e);
    if Next(w, e).created != w.created {
      AdmissionKeepsWindow(w, e.c, e.id, Next(w, e).created, b, t);
    }
  }

  // ---------------------------------------------------------------- succession

  /** A new row is younger than every deleted row of its live binding. */
  lemma NewIsYounger(w: World, e: Event, k: Id, j: Id)
    requires Inv(w.db) && AllGone(w) && k in w.pruned
    requires (e.DoEnqueue? ==> e.id !in w.db.items)
    requires j in Effect(w.db, e).items && j !in w.db.items
    requires w.pruned[k].binding == Effect(w.db, e).items[j].binding
    ensures w.pruned[k].created + 31 * DAY_MS <= Effect(w.db, e).items[j].created
  {
    AddedRow(w.db, e);
    hide Inv, Effect;
    assert Gone(w.db.bindings, w.pruned[k]);
  }

  /** A row deleted by this event has no successor in the table yet. */
  lemma DeletedIsAlone(w: World, e: Event, k: Id, j: Id)
    requires Inv(w.db) && ItemsEvolve(w.db, Effect(w.db, e), TokenOf(e))
    requires (e.DoEnqueue? ==> e.id !in w.db.items)
    requires k in w.db.items && k !in Effect(w.db, e).items && j in Effect(w.db, e).items
    ensures w.db.items[k].binding != Effect(w.db, e).items[j].binding
            || w.db.items[k].entity != Effect(w.db, e).items[j].entity
  {
    AddedRow(w.db, e);
    hide Effect, RowOk;
    if j in w.db.items {
      assert RowEvolves(w.db.items[j], Effect(w.db, e).items[j]);
    }
  }

  lemma SucceedsKeeps(w: World, e: Event)
    requires Inv(w.db) && Tracked(w) && Succeeds(w)
    requires e.DoEnqueue? ==> e.id !in w.created
    requires ItemsEvolve(w.db, Effect(w.db, e), TokenOf(e))
    ensures Succeeds(Next(w, e))
  {
    var w' := Next(w, e);
    hide Inv, Effect, IssuedBy, SettledBy, Gone;
    forall k, j | k in w'.pruned && j in w'.db.items && w'.pruned[k].binding == w'.db.items[j].binding
                  && w'.pruned[k].entity == w'.db.items[j].entity
      ensures w'.pruned[k].created + 31 * DAY_MS <= w'.db.items[j].created
    {
      if k !in w.pruned {
        DeletedIsAlone(w, e, k, j);
      } else if j in w.db.items {
        assert RowEvolves(w.db.items[j], w'.db.items[j]);
      } else {
        NewIsYounger(w, e, k, j);
      }
    }
  }

  // ------------------------------------------------------------- terminal instants

  /** No media row became terminal later than now. */
  ghost predicate MediaTimely(media: map<Id, Media>, now: int) {
    forall m :: m in media && media[m].terminal.Some? ==> media[m].terminal.value <= now
  }

  predicate TouchesMedia(e: Event) {
    e.DoRestore? || e.DoEnqueueMedia? || e.DoClaimMedia? || e.DoReconcile? || SettlingMedia(e)
  }

  lemma MediaUntouched(db: Db, e: Event)
    requires !TouchesMedia(e)
    ensures Effect(db, e).media == db.media
  {
    hide ChangeRows, ObservationError, QuotaError, PruneSet, Decodes, LeaseError, WithdrawRow, AcknowledgeRow, DueKeys;
  }

  lemma MirroringIsTimely(db: Db, binding: Id, now: int)
    requires MediaTimely(db.media, now)
    ensures MediaTimely(SyncParent(db, binding, now), now)
  {
  }

  lemma RestoringIsTimely(db: Db, now: int)
    requires MediaTimely(db.media, now)
    ensures MediaTimely(MarkRestored(db, now).db.media, now)
  {
    hide RestoreRow, RestoreBinding;
  }

  lemma MediaClaimIsTimely(db: Db, c: Call, leaseSeconds: int, token: Id)
    requires MediaTimely(db.media, c.now)
    ensures MediaTimely(ClaimMedia(db, c, leaseSeconds, token).db.media, c.now)
  {
    hide SyncParent;
    MirroringIsTimely(db, c.ref.id, c.now);
    assert MediaTimely(ReclaimMedia(SyncParent(db, c.ref.id, c.now), c.ref.id, c.now), c.now);
  }

  lemma MediaSettlementIsTimely(db: Db, e: Event)
    requires SettlingMedia(e) && MediaTimely(db.media, e.c.now)
    ensures MediaTimely(Effect(db, e).media, e.c.now)
  {
  }

  lemma MediaTimelyKeeps(db: Db, e: Event, now: int)
    requires MediaTimely(db.media, now) && e.Time(now) >= now
    ensures MediaTimely(Effect(db, e).media, e.Time(now))
  {
    hide SyncParent, ClaimMedia, MarkRestored, SettleMedia, CreateBinding, SetPaused, Disconnect, PauseRow, Enqueue,
         WithdrawItem, ExpireItems, ClaimItem, RetryItem, AcknowledgeItem, RejectItem, PruneTerminal,
         RetryMedia, AcknowledgeManifest, AcknowledgeContent, RejectMedia;
    assert MediaTimely(db.media, e.Time(now));
    if e.DoRestore? {
      RestoringIsTimely(db, e.now);
    } else if e.DoClaimMedia? {
      MediaClaimIsTimely(db, e.c, e.leaseSeconds, e.token);
    } else if e.DoReconcile? {
      MirroringIsTimely(db, e.c.ref.id, e.c.now);
    } else if SettlingMedia(e) {
      MediaSettlementIsTimely(db, e);
    } else if !e.DoEnqueueMedia? {
      MediaUntouched(db, e);
    }
  }

  lemma NextNow(w: World, e: Event)
    ensures Next(w, e).now == e.Time(w.now)
  {
  }

  // ------------------------------------------------------------ the whole world

  ghost predicate WorldInv(w: World, limits: Limits) {
    && Inv(w.db) && Tracked(w) && Succeeds(w) && Leases(w) && InFlight(w) && DailyQuota(w, limits)
    && (forall sel :: Within(w.db, limits, sel))
    && MediaTimely(w.db.media, w.now)
  }

  lemma StartIsGood(limits: Limits)
    ensures WorldInv(START, limits)
  {
    forall sel ensures Within(START.db, limits, sel) {
      assert Records(START.db.bindings, START.db.items, sel) == {};
      assert Waiting(START.db.bindings, START.db.items, sel) == {};
      assert Charges(START.db.bindings, START.db.items, sel) == map[];
    }
    forall b, t ensures |CreatedWithinDay(START.created, b, t)| <= limits.dailyPerBinding {
      assert CreatedWithinDay(START.created, b, t) == {};
    }
  }

  /** What the bookkeeping of a world says about an allowed event. */
  lemma AllowedMeans(w: World, e: Event, limits: Limits)
    requires Recorded(w) && Allowed(w, e, limits)
    ensures e.DoEnqueue? ==> e.id !in w.created && e.id !in w.db.items && e.c.limits == limits
    ensures e.DoEnqueueMedia? ==> e.id !in w.db.media
    ensures TokenOf(e).Some? ==> TokenOf(e).value !in w.issued
    ensures e.Time(w.now) >= w.now
  {
  }

  lemma NewRowsAreNew(w: World, e: Event)
    requires Inv(w.db) && (e.DoEnqueue? ==> e.id !in w.created)
    ensures forall k :: k in Effect(w.db, e).items && k !in w.db.items ==> k !in w.created
  {
    hide Inv, Effect;
    NewRows(w.db, e);
  }

  lemma GoodEvolves(db: Db, db': Db, token: Option<Id>)
    requires Good(db, db', token)
    ensures Inv(db') && ItemsEvolve(db, db', token)
  {
    hide Inv, ItemsEvolve;
  }

  lemma NextDb(w: World, e: Event)
    ensures Next(w, e).db == Effect(w.db, e)
  {
    hide Effect, Creations, IssuedBy, SettledBy, MarkRestored;
  }

  lemma NextKeeps(w: World, e: Event, limits: Limits)
    requires WorldInv(w, limits) && Allowed(w, e, limits)
    ensures WorldInv(Next(w, e), limits)
    ensures Good(w.db, Next(w, e).db, TokenOf(e))
  {
    hide Inv, Good, Next, Recorded, AllGone, Succeeds, Leases, InFlight, Within, Effect, CreatedWithinDay, Allowed,
         TokenOf, ItemsEvolve, MediaTimely;
    AllowedMeans(w, e, limits);
    EffectKeeps(w.db, e);
    NextDb(w, e);
    NextNow(w, e);
    MediaTimelyKeeps(w.db, e, w.now);
    GoodEvolves(w.db, Effect(w.db, e), TokenOf(e));
    NewRowsAreNew(w, e);
    TrackedKeeps(w, e);
    SucceedsKeeps(w, e);
    LeasesKeeps(w, e);
    InFlightKeeps(w, e);
    forall b, t ensures |CreatedWithinDay(Next(w, e).created, b, t)| <= limits.dailyPerBinding {
      WindowKeeps(w, e, limits, b, t);
    }
    forall sel ensures Within(Next(w, e).db, limits, sel) {
      WithinKeeps(w, e, limits, sel);
    }
  }

  /** Every reachable world is a good one. */
  lemma {:induction false} RunKeeps(w: World, es: seq<Event>, limits: Limits)
    requires WorldInv(w, limits) && AllAllowed(w, es, limits)
    ensures WorldInv(Run(w, es), limits)
    decreases |es|
  {
    hide WorldInv, Next, Allowed;
    if es != [] {
      NextKeeps(w, es[0], limits);
      RunKeeps(Next(w, es[0]), es[1..], limits);
    }
  }
}
