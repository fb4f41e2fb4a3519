/** The promises of the outbox, over every run. */
module OutboxTheorems {
  import opened Basics
  import opened OutboxModel
  import opened MediaModel
  import opened OutboxInvariant
  import opened OutboxSteps
  import opened MediaSteps
  import opened OutboxRuns
  import opened OutboxHistory

  // ----------------------------------------------------------- runs from the start

  lemma {:induction false} RunAppend(w: World, es: seq<Event>, more: seq<Event>, limits: Limits)
    ensures Run(w, es + more) == Run(Run(w, es), more)
    ensures AllAllowed(w, es + more, limits) <==> AllAllowed(w, es, limits) && AllAllowed(Run(w, es), more, limits)
    decreases |es|
  {
    hide Next, Allowed;
    if es == [] {
      assert es + more == more;
    } else {
      assert (es + more)[0] == es[0] && (es + more)[1..] == es[1..] + more;
      RunAppend(Next(w, es[0]), es[1..], more, limits);
    }
  }

  /** The world after a first part of a run from the empty database, and the rest of that run. */
  lemma Reached(es: seq<Event>, more: seq<Event>, limits: Limits)
    requires AllAllowed(START, es + more, limits)
    ensures WorldInv(Run(START, es), limits) && AllAllowed(Run(START, es), more, limits)
    ensures Run(START, es + more) == Run(Run(START, es), more)
  {
    hide WorldInv, Run, AllAllowed;
    RunAppend(START, es, more, limits);
    StartIsGood(limits);
    RunKeeps(START, es, limits);
  }

  lemma StartsWith(w: World, e: Event, more: seq<Event>, limits: Limits)
    requires AllAllowed(w, [e] + more, limits)
    ensures Allowed(w, e, limits) && AllAllowed(Next(w, e), more, limits)
    ensures Run(w, [e] + more) == Run(Next(w, e), more)
  {
    hide Next, Allowed;
    assert ([e] + more)[1..] == more;
  }

  lemma InvInWorld(w: World, limits: Limits)
    requires WorldInv(w, limits)
    ensures Inv(w.db)
  {
    hide Inv;
  }

  lemma ReachableInv(es: seq<Event>, limits: Limits)
    requires AllAllowed(START, es, limits)
    ensures Inv(Run(START, es).db)
  {
    hide Run, AllAllowed, WorldInv, Inv;
    StartIsGood(limits);
    RunKeeps(START, es, limits);
    InvInWorld(Run(START, es), limits);
  }

  // ------------------------------------------------------ obligations are kept

  /** A sent row is still here in an open or receipted state, or left with its withdrawal receipt. */
  ghost predicate Obliged(w: World, id: Id, withdrawing: bool) {
    || (id in w.db.items && w.db.items[id].everAttempted && (withdrawing ==> w.db.items[id].operation.Withdrawal?))
    || (id in w.pruned && Acknowledged(w.pruned[id]))
  }

  lemma ObligedStays(w: World, e: Event, limits: Limits, id: Id, withdrawing: bool)
    requires WorldInv(w, limits) && Allowed(w, e, limits) && Obliged(w, id, withdrawing)
    ensures Obliged(Next(w, e), id, withdrawing)
  {
    NextKeeps(w, e, limits);
    assert Recorded(w);
    if id in w.db.items {
      ObligedRow(w.db, Effect(w.db, e), TokenOf(e), id);
    }
    hide WorldInv, Effect, IssuedBy, SettledBy, Creations;
  }

  lemma ObligedRow(db: Db, db': Db, token: Option<Id>, id: Id)
    requires ItemsEvolve(db, db', token) && id in db.items && db.items[id].everAttempted
    ensures if id in db'.items
            then db'.items[id].everAttempted
                 && (db.items[id].operation.Withdrawal? ==> db'.items[id].operation.Withdrawal?)
            else Acknowledged(db.items[id])
  {
    hide RowEvolves;
    if id in db'.items {
      EvolvedRow(db.items[id], db'.items[id]);
    }
  }

  lemma EvolvedRow(i: Item, j: Item)
    requires RowEvolves(i, j)
    ensures i.everAttempted ==> j.everAttempted
    ensures i.operation.Withdrawal? ==> j.operation.Withdrawal?
  {
  }

  lemma {:induction false} ObligedForever(w: World, es: seq<Event>, limits: Limits, id: Id, withdrawing: bool)
    requires WorldInv(w, limits) && AllAllowed(w, es, limits) && Obliged(w, id, withdrawing)
    ensures Obliged(Run(w, es), id, withdrawing)
    decreases |es|
  {
    hide WorldInv, Next, Allowed, Obliged;
    if es != [] {
      NextKeeps(w, es[0], limits);
      ObligedStays(w, es[0], limits, id, withdrawing);
      ObligedForever(Next(w, es[0]), es[1..], limits, id, withdrawing);
    }
  }

  /** The row is open, received, blocked or receipted, or was deleted after its withdrawal's receipt. */
  ghost predicate StillOwed(w: World, id: Id, withdrawing: bool) {
    if id in w.db.items then
      var j := w.db.items[id];
      && j.everAttempted
      && (withdrawing ==> j.operation.Withdrawal?)
      && if j.operation.Observation? then j.state.Pending? || j.state.Leased? || j.state.Received?
         else j.state.Pending? || j.state.Leased? || j.state.Blocked? || Acknowledged(j)
    else id in w.pruned && Acknowledged(w.pruned[id])
  }

  lemma ObligedMeans(w: World, limits: Limits, id: Id, withdrawing: bool)
    requires WorldInv(w, limits) && Obliged(w, id, withdrawing)
    ensures StillOwed(w, id, withdrawing)
  {
    if id in w.db.items {
      RowInWorld(w, limits, id);
    }
    assert Recorded(w);
  }

  /** Once a row was sent, every later world of the run either still holds it, waiting, leased, received
      or blocked but never cancelled or expired, or deleted it after its withdrawal was receipted.
      A withdrawal never turns back into an observation. */
  lemma SentIsNeverForgotten(es: seq<Event>, more: seq<Event>, limits: Limits, id: Id)
    requires AllAllowed(START, es + more, limits)
    requires id in Run(START, es).db.items && Run(START, es).db.items[id].everAttempted
    ensures StillOwed(Run(START, es + more), id, Run(START, es).db.items[id].operation.Withdrawal?)
  {
    hide WorldInv, Run, AllAllowed, StillOwed;
    var w := Run(START, es);
    Reached(es, more, limits);
    ObligedForever(w, more, limits, id, w.db.items[id].operation.Withdrawal?);
    RunKeeps(w, more, limits);
    ObligedMeans(Run(w, more), limits, id, w.db.items[id].operation.Withdrawal?);
  }

  lemma RowInWorld(w: World, limits: Limits, id: Id)
    requires WorldInv(w, limits) && id in w.db.items
    ensures RowShape(w.db.items[id]) && RowOk(w.db.bindings, id, w.db.items[id])
  {
    assert RowOk(w.db.bindings, id, w.db.items[id]);
  }

  // ------------------------------------------------------- one request in flight

  /** Two requests of one installation never run at the same time, whichever queue, binding or
      generation issued them, and the one that runs is the one the reservation names. */
  lemma OneRequestInFlight(es: seq<Event>, limits: Limits, t: Id, u: Id)
    requires AllAllowed(START, es, limits)
    requires Running(Run(START, es), t) && Running(Run(START, es), u)
    requires Run(START, es).issued[t].installation == Run(START, es).issued[u].installation
    ensures t == u
    ensures var w := Run(START, es);
            w.issued[t].installation in w.db.capacity && w.db.capacity[w.issued[t].installation].token == t
  {
    hide Run, AllAllowed, Inv, Tracked, Succeeds, Leases, Within, CreatedWithinDay;
    StartIsGood(limits);
    RunKeeps(START, es, limits);
  }

  // ------------------------------------------------------------ storage is bounded

  function Stored(bindings: map<Id, Binding>, items: map<Id, Item>, sel: Selector): map<Id, nat> {
    map k | k in items && Selected(bindings, sel, items[k]) :: StoredBytes(items[k])
  }

  lemma StoredIsCharged(db: Db, sel: Selector)
    requires Inv(db)
    ensures Sum(Stored(db.bindings, db.items, sel)) <= Sum(Charges(db.bindings, db.items, sel))
  {
    forall k | k in db.items ensures StoredBytes(db.items[k]) <= Charge(db.items[k]) {
      assert RowOk(db.bindings, k, db.items[k]);
    }
    SumAtMost(Stored(db.bindings, db.items, sel), Charges(db.bindings, db.items, sel));
  }

  function BytesLimit(limits: Limits, sel: Selector): nat {
    if sel.OfBinding? then limits.bytesPerBinding else limits.bytesPerInstallation
  }

  function RecordsLimit(limits: Limits, sel: Selector): nat {
    if sel.OfBinding? then limits.recordsPerBinding else limits.recordsPerInstallation
  }

  function WaitingLimit(limits: Limits, sel: Selector): nat {
    if sel.OfBinding? then limits.pendingPerBinding else limits.pendingPerInstallation
  }

  /** In every reachable world the ciphertext that is really stored, for any binding and any
      installation, is within the limit, although only an enqueue ever asks. */
  lemma StorageIsBounded(es: seq<Event>, limits: Limits, sel: Selector)
    requires AllAllowed(START, es, limits)
    ensures Sum(Stored(Run(START, es).db.bindings, Run(START, es).db.items, sel)) <= BytesLimit(limits, sel)
  {
    hide Run, AllAllowed, Inv, Tracked, Succeeds, Leases, InFlight, CreatedWithinDay, Stored, Charges, Records, Waiting;
    StartIsGood(limits);
    RunKeeps(START, es, limits);
    StoredIsCharged(Run(START, es).db, sel);
    assert Within(Run(START, es).db, limits, sel);
  }

  /** One more row of this charge fits in. */
  ghost predicate HasRoom(db: Db, limits: Limits, sel: Selector, charge: nat) {
    && |Records(db.bindings, db.items, sel)| + 1 <= RecordsLimit(limits, sel)
    && |Waiting(db.bindings, db.items, sel)| + 1 <= WaitingLimit(limits, sel)
    && Sum(Charges(db.bindings, db.items, sel)) + charge <= BytesLimit(limits, sel)
  }

  /** A new row is refused for its quota exactly when it would break one of the limits. */
  lemma QuotaIsExact(db: Db, c: Call, size: nat)
    ensures QuotaError(db, c, size).None? <==>
              && HasRoom(db, c.limits, OfBinding(c.ref.id), Max(size, WITHDRAWAL_RESERVE))
              && HasRoom(db, c.limits, OfInstallation(c.scope.installation), Max(size, WITHDRAWAL_RESERVE))
              && |CreatedSince(db.items, c.ref.id, c.now - DAY_MS)| + 1 <= c.limits.dailyPerBinding
  {
    hide Records, Waiting, Charges, CreatedSince, Sum;
  }

  /** So are its records and its waiting observations. */
  lemma RowsAreBounded(es: seq<Event>, limits: Limits, sel: Selector)
    requires AllAllowed(START, es, limits)
    ensures |Records(Run(START, es).db.bindings, Run(START, es).db.items, sel)| <= RecordsLimit(limits, sel)
    ensures |Waiting(Run(START, es).db.bindings, Run(START, es).db.items, sel)| <= WaitingLimit(limits, sel)
  {
    hide Run, AllAllowed, Inv, Tracked, Succeeds, Leases, InFlight, CreatedWithinDay, Charges, Records, Waiting;
    StartIsGood(limits);
    RunKeeps(START, es, limits);
    assert Within(Run(START, es).db, limits, sel);
  }

  lemma MoreBindings(db: Db, e: Event, installation: Id)
    requires Inv(db) && Inv(Effect(db, e)) && BindingsEvolve(db.bindings, Effect(db, e).bindings)
    ensures BindingsOf(Effect(db, e).bindings, installation) == BindingsOf(db.bindings, installation)
            || (e.DoCreate? && |BindingsOf(Effect(db, e).bindings, installation)| <= e.c.limits.bindingsPerInstallation)
  {
    hide Inv, Effect;
    if e.DoCreate? {
      OneMoreBinding(db, e.c, e.expected, e.target, installation);
      CreatedNow(db, e);
    } else {
      NoOtherBindings(db, e);
      forall b | b in db.bindings ensures Effect(db, e).bindings[b].scope == db.bindings[b].scope {
        assert BindingEvolves(db.bindings[b], Effect(db, e).bindings[b]);
      }
    }
  }

  lemma CreatedNow(db: Db, e: Event)
    requires e.DoCreate?
    ensures Effect(db, e) == CreateBinding(db, e.c, e.expected, e.target).db
  {
    hide CreateBinding;
  }

  lemma OneMoreBinding(db: Db, c: Call, expected: int, target: Target, installation: Id)
    ensures var db' := CreateBinding(db, c, expected, target).db;
            BindingsOf(db'.bindings, installation) == BindingsOf(db.bindings, installation)
            || |BindingsOf(db'.bindings, installation)| <= c.limits.bindingsPerInstallation
  {
    var db' := CreateBinding(db, c, expected, target).db;
    if db' != db {
      var before := BindingsOf(db.bindings, installation);
      assert BindingsOf(db'.bindings, installation)
          == if installation == c.scope.installation then before + {c.ref.id} else before;
    }
  }

  lemma NoOtherBindings(db: Db, e: Event)
    requires Inv(db) && !e.DoCreate?
    ensures Effect(db, e).bindings.Keys == db.bindings.Keys
  {
    hide Inv, ChangeRows, ClaimItem, ClaimMedia, Enqueue, EnqueueOverview, IsDue, LeaseEnd, WithdrawRow, AcknowledgeRow, RejectRow,
         SyncParent, PruneSet, RestoreRow, RestoreMedia;
    match e
    case DoClaim(c, leaseSeconds, token) => ClaimCases(db, c, leaseSeconds, token);
    case DoClaimMedia(c, leaseSeconds, token) => ClaimMediaCases(db, c, leaseSeconds, token);
    case DoEnqueue(c, o, id) => EnqueueCases(db, c, o, id);
    case DoEnqueueMedia(c, parent, frame, id) => EnqueueOverviewCases(db, c, parent, frame, id);
    case _ =>
  }

  lemma {:induction false} BindingsStayBounded(w: World, es: seq<Event>, limits: Limits, installation: Id)
    requires WorldInv(w, limits) && AllAllowed(w, es, limits)
    requires |BindingsOf(w.db.bindings, installation)| <= limits.bindingsPerInstallation
    ensures |BindingsOf(Run(w, es).db.bindings, installation)| <= limits.bindingsPerInstallation
    decreases |es|
  {
    hide WorldInv, Next, Effect, Inv, ItemsEvolve, MediaEvolves, BindingsOf, TokenOf;
    if es != [] {
      NextKeeps(w, es[0], limits);
      NextDb(w, es[0]);
      InvInWorld(w, limits);
      MoreBindings(w.db, es[0], installation);
      BindingsStayBounded(Next(w, es[0]), es[1..], limits, installation);
    }
  }

  /** In every reachable world no installation has more bindings than its limit, closed ones included. */
  lemma BindingsAreBounded(es: seq<Event>, limits: Limits, installation: Id)
    requires AllAllowed(START, es, limits)
    ensures |BindingsOf(Run(START, es).db.bindings, installation)| <= limits.bindingsPerInstallation
  {
    hide Run, AllAllowed, WorldInv;
    StartIsGood(limits);
    assert BindingsOf(START.db.bindings, installation) == {};
    BindingsStayBounded(START, es, limits, installation);
  }

  /** A binding is created exactly when its name and target are new, its installation has no live binding and has
      room for one more; it is paused, of the first generation and without rows. */
  lemma CreatedExactly(db: Db, c: Call, expected: int, target: Target)
    ensures var r := CreateBinding(db, c, expected, target);
            && (r.result.Ok? <==>
                  && expected == 0 && ValidClock(c.now) && c.ref.id !in db.bindings
                  && |BindingsOf(db.bindings, c.scope.installation)| + 1 <= c.limits.bindingsPerInstallation
                  && (forall b :: b in db.bindings ==>
                        !(db.bindings[b].target.origin == target.origin && db.bindings[b].target.device == target.device))
                  && (forall b :: b in db.bindings && db.bindings[b].scope.installation == c.scope.installation ==>
                        !db.bindings[b].Live()))
            && (r.result.Ok? ==>
                  && c.ref.id in r.db.bindings && r.db.bindings[c.ref.id].state.Paused? && r.result.value == Ref(c.ref.id, 1)
                  && r.db.bindings[c.ref.id].generation == 1 && r.db.bindings[c.ref.id].key == c.key
                  && r.db == db.(bindings := db.bindings[c.ref.id := r.db.bindings[c.ref.id]]))
  {
    hide BindingsOf;
  }

  /** At every instant, at most the daily number of rows was created in the day before it,
      rows that have been deleted since included. */
  lemma DailyLimitSlides(es: seq<Event>, limits: Limits, binding: Id, t: int)
    requires AllAllowed(START, es, limits)
    ensures |CreatedWithinDay(Run(START, es).created, binding, t)| <= limits.dailyPerBinding
  {
    hide Run, AllAllowed, Inv, Tracked, Succeeds, Leases, InFlight, Within, CreatedWithinDay;
    StartIsGood(limits);
    RunKeeps(START, es, limits);
  }

  // -------------------------------------------------------------------- fencing

  /** A settlement with a token that no row is leased to changes no row: retry and reject are
      refused, and an acknowledgement is refused or replays the very receipt it already left. */
  lemma StaleSettlementChangesNothing(db: Db, c: Call, claim: Claim, delay: int, receipt: Id, code: Code)
    requires Unleased(db, claim.token)
    ensures RetryItem(db, c, claim, delay).result.Err? && RetryItem(db, c, claim, delay).db == db
    ensures RejectItem(db, c, claim, code).result.Err? && RejectItem(db, c, claim, code).db == db
    ensures var r := AcknowledgeItem(db, c, claim, receipt);
            && r.db.items == db.items && r.db.capacity == db.capacity
            && (r.result.Ok? <==> Open(db, c).Ok? && claim.binding == c.ref && claim.id in db.items
                                  && db.items[claim.id].binding == c.ref.id && Replays(db.items[claim.id], claim)
                                  && db.items[claim.id].receipt == Some(receipt))
  {
  }

  lemma StaleMediaSettlementChangesNothing(
    db: Db, c: Call, claim: MediaClaim, delay: int, evidence: Id, upload: bool, ready: bool, code: Code)
    requires Unleased(db, claim.token)
    ensures RetryMedia(db, c, claim, delay).result.Err? && RetryMedia(db, c, claim, delay).db == db
    ensures RejectMedia(db, c, claim, code).result.Err? && RejectMedia(db, c, claim, code).db == db
    ensures AcknowledgeManifest(db, c, claim, evidence, upload, ready).result.Err?
            && AcknowledgeManifest(db, c, claim, evidence, upload, ready).db == db
    ensures AcknowledgeContent(db, c, claim, evidence, ready).result.Err?
            && AcknowledgeContent(db, c, claim, evidence, ready).db == db
  {
  }

  /** After an acknowledgement the same receipt is accepted again without effect, and any other conflicts. */
  lemma AcknowledgementReplays(db: Db, c: Call, claim: Claim, receipt: Id, again: Call, other: Id)
    requires Inv(db) && AcknowledgeItem(db, c, claim, receipt).result.Ok?
    requires again == c.(now := again.now) && c.now <= again.now && ValidClock(again.now)
    ensures var db' := AcknowledgeItem(db, c, claim, receipt).db;
            var r := AcknowledgeItem(db', again, claim, other);
            && r.result == (if other == receipt then Ok(()) else Err(ReceiptConflict))
            && r.db.items == db'.items && r.db.capacity == db'.capacity && r.db.media == db'.media
  {
    hide Inv;
  }

  lemma TokensAreKnown(w: World, e: Event, limits: Limits, t: Id)
    requires WorldInv(w, limits) && Allowed(w, e, limits) && t in w.issued
    ensures TokenOf(e) != Some(t) && t in Next(w, e).issued
    ensures t in w.settled ==> t in Next(w, e).settled
  {
    hide WorldInv, Effect, IssuedBy, SettledBy, Creations;
  }

  /** Once no row is leased to an issued token, no row ever will be again. */
  lemma {:induction false} FencedForever(w: World, es: seq<Event>, limits: Limits, t: Id)
    requires WorldInv(w, limits) && AllAllowed(w, es, limits) && t in w.issued && Unleased(w.db, t)
    ensures t in Run(w, es).issued && Unleased(Run(w, es).db, t)
    ensures t in w.settled ==> t in Run(w, es).settled
    decreases |es|
  {
    hide WorldInv, Next, Allowed, Unleased, Good, ItemsEvolve, TokenOf, Effect;
    if es != [] {
      NextKeeps(w, es[0], limits);
      TokensAreKnown(w, es[0], limits, t);
      GoodUnleases(w.db, Next(w, es[0]).db, TokenOf(es[0]), t);
      FencedForever(Next(w, es[0]), es[1..], limits, t);
    }
  }

  lemma GoodUnleases(db: Db, db': Db, drawn: Option<Id>, t: Id)
    requires Good(db, db', drawn) && Unleased(db, t) && drawn != Some(t)
    ensures Unleased(db', t)
  {
    hide Inv, ItemsEvolve, MediaEvolves, Unleased;
    UnleasedStays(db, db', t, drawn);
  }

  lemma SettledTokens(w: World, limits: Limits, t: Id)
    requires WorldInv(w, limits) && t in w.settled
    ensures t in w.issued && Unleased(w.db, t)
  {
    hide Inv, Tracked, Succeeds, InFlight, Within;
  }

  lemma SettlingIsUnsettled(w: World, e: Event, limits: Limits)
    requires WorldInv(w, limits) && SettledBy(w.db, e).Some?
    ensures SettledBy(w.db, e).value.1 !in w.settled
  {
    hide Inv, Tracked, Succeeds, InFlight, Within, SettledBy, Effect, Unleased, Leases;
    SettledIsUnleased(w, e);
  }

  /** A token settles at most once: after the event that settles it, no event of the run does. */
  lemma SettlesAtMostOnce(es: seq<Event>, e: Event, more: seq<Event>, e': Event, limits: Limits)
    requires AllAllowed(START, es + [e] + more, limits)
    requires SettledBy(Run(START, es).db, e).Some? && SettledBy(Run(START, es + [e] + more).db, e').Some?
    ensures SettledBy(Run(START, es).db, e).value.1 != SettledBy(Run(START, es + [e] + more).db, e').value.1
  {
    hide WorldInv, Run, AllAllowed, Allowed, Unleased, Effect, SettledBy, IssuedBy, Creations;
    var w, mid := Run(START, es), Run(START, es + [e]);
    var t := SettledBy(w.db, e).value.1;
    Reached(es + [e], more, limits);
    assert es + [e] + more == es + ([e] + more);
    Reached(es, [e] + more, limits);
    RunAppend(w, [e], more, limits);
    RunAppend(START, es, [e], limits);
    RunOne(w, e);
    assert t in mid.settled;
    SettledTokens(mid, limits, t);
    FencedForever(mid, more, limits, t);
    RunKeeps(mid, more, limits);
    SettlingIsUnsettled(Run(mid, more), e', limits);
  }

  lemma RunOne(w: World, e: Event)
    ensures Run(w, [e]) == Next(w, e)
  {
    assert [e][1..] == [];
  }

  // ------------------------------------------------------- what drops the leases

  ghost predicate BindingUnleased(db: Db, binding: Id) {
    forall k :: k in db.items && db.items[k].binding == binding ==> db.items[k].lease.None?
  }

  /** Pause, resume, disconnect and the keyless stop leave no lease in the binding. */
  lemma StopsDropLeases(db: Db, c: Call, paused: bool, restored: bool)
    requires Inv(db) && Open(db, c).Ok? && db.bindings[c.ref.id].Live()
    ensures SetPaused(db, c, paused).result.Ok? && SetPaused(db, c, paused).result.value != c.ref ==>
              BindingUnleased(SetPaused(db, c, paused).db, c.ref.id)
    ensures Disconnect(db, c, restored).result.Ok? ==> BindingUnleased(Disconnect(db, c, restored).db, c.ref.id)
    ensures BindingUnleased(PauseRow(db, c.ref.id).db, c.ref.id)
  {
    hide Inv, ChangeRows;
    ReleasedRows(db, c.ref.id);
    DisconnectedRows(db, c);
  }

  lemma ReleasedRows(db: Db, binding: Id)
    requires Inv(db)
    ensures BindingUnleased(db.(items := ChangeRows(db.items, binding, Release)), binding)
  {
    forall k | k in db.items && db.items[k].binding == binding ensures ReleaseRow(db.items[k]).lease.None? {
      assert RowOk(db.bindings, k, db.items[k]);
    }
  }

  lemma DisconnectedRows(db: Db, c: Call)
    requires Inv(db)
    ensures var change := Withdraw(c.key, c.scope, LocalExportRemoved, c.now);
            BindingUnleased(db.(items := ChangeRows(ChangeRows(db.items, c.ref.id, change), c.ref.id, Release)), c.ref.id)
  {
    hide Inv, WithdrawRow, ReleaseRow, RowShape;
    forall k | k in db.items && db.items[k].binding == c.ref.id
      ensures ReleaseRow(WithdrawRow(c.key, c.scope, k, db.items[k], LocalExportRemoved, c.now)).lease.None?
      ensures WithdrawRow(c.key, c.scope, k, db.items[k], LocalExportRemoved, c.now).binding == c.ref.id
    {
      ShapeInDb(db, k);
      WithdrawnRow(db.items[k], c.key, c.scope, k, LocalExportRemoved, c.now);
      ReleasedLease(WithdrawRow(c.key, c.scope, k, db.items[k], LocalExportRemoved, c.now));
    }
    ReleasedPlaces();
  }

  lemma ReleasedPlaces()
    ensures forall i {:trigger ReleaseRow(i)} :: ReleaseRow(i).binding == i.binding
  {
  }

  lemma ReleasedLease(i: Item)
    requires i.lease.Some? ==> i.state.Leased?
    ensures ReleaseRow(i).lease.None?
  {
  }

  /** Withdrawing an observation, or its expiry, drops its lease at once; so does the sweep
      of a claim for every lease that has run out. */
  lemma WithdrawalDropsLease(db: Db, c: Call, id: Id, reason: Reason)
    requires Inv(db) && Open(db, c).Ok? && id in db.items && db.items[id].binding == c.ref.id
    ensures db.items[id].operation.Observation? ==> WithdrawItem(db, c, id, reason).db.items[id].lease.None?
    ensures db.items[id].operation.Observation? && db.items[id].deadline <= c.now ==>
              ExpireItems(db, c).db.items[id].lease.None?
    ensures db.items[id].lease.Some? && db.items[id].lease.value.until <= c.now ==> Sweep(db, c).items[id].lease.None?
  {
    hide Inv, WithdrawRow, RowShape;
    ShapeInDb(db, id);
    WithdrawnRow(db.items[id], c.key, c.scope, id, reason, c.now);
    WithdrawnRow(db.items[id], c.key, c.scope, id, LocalExpired, c.now);
  }

  lemma WithdrawnRow(i: Item, key: Id, scope: Scope, id: Id, reason: Reason, now: int)
    requires RowShape(i)
    ensures WithdrawRow(key, scope, id, i, reason, now).binding == i.binding
    ensures i.operation.Observation? ==> WithdrawRow(key, scope, id, i, reason, now).lease.None?
    ensures i.operation.Withdrawal? ==> WithdrawRow(key, scope, id, i, reason, now) == i
    ensures i.state.Cancelled? || i.state.Expired? ==> i.lease.None?
    ensures i.lease.Some? ==> i.state.Leased?
    ensures var j := WithdrawRow(key, scope, id, i, reason, now); j.lease.Some? ==> j.state.Leased?
  {
  }

  /** No stop of a binding fences its media by itself: after the keyless stop, a pause, resume or disconnection
      the queue accepts exactly the media settlements it accepted before. Only a caller that asks with the
      binding's new reference is refused: a lease settles under its own generation alone. */
  lemma PauseDoesNotFenceMedia(db: Db, stop: Call, paused: bool, restored: bool, c: Call, claim: MediaClaim)
    ensures MediaLeaseError(PauseRow(db, stop.ref.id).db, c, claim) == MediaLeaseError(db, c, claim)
    ensures MediaLeaseError(SetPaused(db, stop, paused).db, c, claim) == MediaLeaseError(db, c, claim)
    ensures MediaLeaseError(Disconnect(db, stop, restored).db, c, claim) == MediaLeaseError(db, c, claim)
    ensures SetPaused(db, stop, paused).result == Ok(c.ref) && c.ref != stop.ref && claim.binding == stop.ref
            && ValidClock(c.now) ==>
              MediaLeaseError(SetPaused(db, stop, paused).db, c, claim) == Some(StaleLease)
    ensures ValidClock(c.now) && claim.id in db.media && db.media[claim.id].lease.Some?
            && db.media[claim.id].lease.value.generation != c.ref.generation ==>
              MediaLeaseError(db, c, claim) == Some(StaleLease)
  {
    hide ChangeRows;
  }

  // ------------------------------------------------------------- re-admission

  /** An enqueue of a retained source changes no row: it returns the one row it has exactly when an active
      binding gets the same observation again, and any other observation of that source conflicts. */
  lemma EnqueueIsIdempotent(db: Db, c: Call, o: MappedObservation, id: Id, k: Id)
    requires Inv(db) && IsRow(db, c.ref.id, o.entity, k)
    ensures var r := Enqueue(db, c, o, id);
            && r.db.items == db.items
            && (r.result.Ok? <==>
                  Open(db, c).Ok? && db.bindings[c.ref.id].state.Active? && ObservationError(c, o).None?
                  && db.items[k].fingerprint == (o.body, o.deadline) && db.items[k].admitted == o.admitted)
            && (r.result.Ok? ==> r.result == Ok(k))
            && (r.result.Err? && Open(db, c).Ok? && db.bindings[c.ref.id].state.Active? && ObservationError(c, o).None? ==>
                  r.result == Err(ObservationConflict))
  {
    forall j | IsRow(db, c.ref.id, o.entity, j) ensures j == k {}
  }

  lemma EqualFingerprints(w: World, limits: Limits, k: Id, j: Id)
    requires WorldInv(w, limits) && k in w.pruned && j in w.db.items
    requires w.pruned[k].binding == w.db.items[j].binding && w.pruned[k].entity == w.db.items[j].entity
    ensures w.pruned[k].deadline != w.db.items[j].deadline
  {
    RowInWorld(w, limits, j);
    assert Gone(w.db.bindings, w.pruned[k]);
    hide Inv, Leases, InFlight, Within;
  }

  lemma NoEqualRow(w: World, limits: Limits, k: Id, c: Call, o: MappedObservation)
    requires WorldInv(w, limits) && k in w.pruned
    requires c.ref.id == w.pruned[k].binding && o.entity == w.pruned[k].entity
    requires o.deadline == w.pruned[k].deadline
    ensures forall j :: IsRow(w.db, c.ref.id, o.entity, j) ==> w.db.items[j].fingerprint != (o.body, o.deadline)
  {
    hide WorldInv;
    forall j | IsRow(w.db, c.ref.id, o.entity, j) ensures w.db.items[j].fingerprint != (o.body, o.deadline) {
      EqualFingerprints(w, limits, k, j);
      RowInWorld(w, limits, j);
    }
  }

  lemma DeletedIsLate(w: World, limits: Limits, k: Id, c: Call)
    requires WorldInv(w, limits) && k in w.pruned && Open(w.db, c).Ok?
    requires c.ref.id == w.pruned[k].binding && w.db.bindings[c.ref.id].Live()
    ensures w.pruned[k].deadline < c.now
  {
    assert Gone(w.db.bindings, w.pruned[k]);
  }

  /** What the enqueue of an observation is refused for before its deadline is looked at. */
  ghost function EarlierRefusal(db: Db, c: Call, o: MappedObservation): Option<Error> {
    match Open(db, c)
    case Err(e) => Some(e)
    case Ok(b) =>
      if !b.state.Active? then Some(BindingNotActive)
      else if ObservationError(c, o).Some? then ObservationError(c, o)
      else if exists k :: IsRow(db, c.ref.id, o.entity, k) then Some(ObservationConflict)
      else if o.admitted < b.activated then Some(StaleAdmission)
      else None
  }

  lemma LateIsRefused(db: Db, c: Call, o: MappedObservation, id: Id)
    requires forall j :: IsRow(db, c.ref.id, o.entity, j) ==> db.items[j].fingerprint != (o.body, o.deadline)
    requires Open(db, c).Ok? && db.bindings[c.ref.id].state.Active? ==> o.deadline <= c.now
    ensures Enqueue(db, c, o, id).result
         == Err(if EarlierRefusal(db, c, o).Some? then EarlierRefusal(db, c, o).value else ObservationExpired)
    ensures Enqueue(db, c, o, id).db == db
  {
    hide QuotaError, ObservationError;
  }

  /** The observation that a deleted row was made from. */
  ghost predicate SameObservation(i: Item, c: Call, o: MappedObservation) {
    c.ref.id == i.binding && o.entity == i.entity && o.admitted == i.admitted && o.deadline == i.deadline
  }

  /** After a row was deleted, its observation is refused as expired in that and every later world of the run,
      unless something else refuses it first, a newer row of the same source among them. */
  lemma DeletedIsNeverReadmitted(es: seq<Event>, more: seq<Event>, limits: Limits, k: Id, c: Call,
                                 o: MappedObservation, id: Id)
    requires AllAllowed(START, es + more, limits) && k in Run(START, es).pruned
    requires SameObservation(Run(START, es).pruned[k], c, o)
    ensures var db := Run(START, es + more).db;
            && Enqueue(db, c, o, id).db == db
            && Enqueue(db, c, o, id).result
               == Err(if EarlierRefusal(db, c, o).Some? then EarlierRefusal(db, c, o).value else ObservationExpired)
  {
    hide WorldInv, Run, AllAllowed, Enqueue, EarlierRefusal;
    var w := Run(START, es + more);
    Reached(es, more, limits);
    DeletedForever(Run(START, es), more, limits, k);
    StartIsGood(limits);
    RunKeeps(START, es + more, limits);
    NoEqualRow(w, limits, k, c, o);
    if Open(w.db, c).Ok? && w.db.bindings[c.ref.id].Live() {
      DeletedIsLate(w, limits, k, c);
    }
    LateIsRefused(w.db, c, o, id);
  }

  /** A deleted row stays deleted, as it was when it left. */
  lemma {:induction false} DeletedForever(w: World, es: seq<Event>, limits: Limits, k: Id)
    requires WorldInv(w, limits) && AllAllowed(w, es, limits) && k in w.pruned
    ensures k in Run(w, es).pruned && Run(w, es).pruned[k] == w.pruned[k]
    decreases |es|
  {
    hide WorldInv, Next, Allowed;
    if es != [] {
      NextKeeps(w, es[0], limits);
      DeletedOnce(w, es[0], limits, k);
      DeletedForever(Next(w, es[0]), es[1..], limits, k);
    }
  }

  lemma DeletedOnce(w: World, e: Event, limits: Limits, k: Id)
    requires WorldInv(w, limits) && k in w.pruned
    ensures k in Next(w, e).pruned && Next(w, e).pruned[k] == w.pruned[k]
  {
    hide Inv, Effect, IssuedBy, SettledBy, Creations, Succeeds, Leases, InFlight, Within;
  }

  // -------------------------------------------------------------------- deletion

  /** The rows that a deletion at this time may take. */
  function Deletable(db: Db, c: Call): set<Id> {
    set k | k in db.items && Prunable(db.items[k], c.ref.id, c.now - 31 * DAY_MS)
  }

  /** Settled earlier, or at the same time under a smaller identifier. */
  predicate SettledBefore(db: Db, k: Id, j: Id)
    requires k in db.items && j in db.items
  {
    db.items[k].terminal.Some? && db.items[j].terminal.Some?
    && (db.items[k].terminal.value < db.items[j].terminal.value
        || (db.items[k].terminal.value == db.items[j].terminal.value && k < j))
  }

  lemma PruneSetIds(db: Db, c: Call, limit: nat)
    ensures PruneSet(db, c, limit) == IdsOf(First(PruneKeys(db.items, c.ref.id, c.now - 31 * DAY_MS), limit))
    ensures First(PruneKeys(db.items, c.ref.id, c.now - 31 * DAY_MS), limit)
         <= PruneKeys(db.items, c.ref.id, c.now - 31 * DAY_MS)
  {
    hide PruneKeys, Below;
  }

  lemma KeyIds(db: Db, c: Call)
    ensures IdsOf(PruneKeys(db.items, c.ref.id, c.now - 31 * DAY_MS)) == Deletable(db, c)
  {
    hide Prunable, PruneKeys, Deletable;
    KeysAreTerminal(db, c);
    var keys := PruneKeys(db.items, c.ref.id, c.now - 31 * DAY_MS);
    forall k | k in Deletable(db, c) ensures k in IdsOf(keys) {
      assert Key(0, db.items[k].terminal.value, k) in keys;
    }
  }

  lemma PruneSetSize(db: Db, c: Call, limit: nat)
    ensures |PruneSet(db, c, limit)| == Min(|Deletable(db, c)|, limit)
  {
    hide Prunable, PruneKeys, PruneSet, First, Deletable, IdsOf;
    var keys := PruneKeys(db.items, c.ref.id, c.now - 31 * DAY_MS);
    FirstSize(keys, limit);
    KeysAreTerminal(db, c);
    KeyIds(db, c);
    PruneSetIds(db, c, limit);
    IdsSize(keys);
    IdsSize(First(keys, limit));
  }

  lemma PruneSetIsOldest(db: Db, c: Call, limit: nat, k: Id, j: Id)
    requires k in PruneSet(db, c, limit) && j in Deletable(db, c) && j !in PruneSet(db, c, limit)
    ensures k in Deletable(db, c) && SettledBefore(db, k, j)
  {
    hide Prunable, First;
    var keys := PruneKeys(db.items, c.ref.id, c.now - 31 * DAY_MS);
    var x :| x in First(keys, limit) && x.id == k;
    KeysAreTerminal(db, c);
    var y := Key(0, db.items[j].terminal.value, j);
    FirstComesFirst(keys, limit, x, y);
    SelectedOnlyByItsKey(keys, limit, y);
  }

  lemma KeysAreTerminal(db: Db, c: Call)
    ensures forall x :: x in PruneKeys(db.items, c.ref.id, c.now - 31 * DAY_MS) ==>
              x.id in Deletable(db, c) && db.items[x.id].terminal.Some? && x == Key(0, db.items[x.id].terminal.value, x.id)
    ensures forall j :: j in Deletable(db, c) ==>
              j in db.items && db.items[j].terminal.Some?
              && Key(0, db.items[j].terminal.value, j) in PruneKeys(db.items, c.ref.id, c.now - 31 * DAY_MS)
  {
  }

  lemma SelectedOnlyByItsKey(keys: set<Key>, limit: nat, y: Key)
    ensures y in First(keys, limit) ==> y.id in (set k | k in First(keys, limit) :: k.id)
  {
  }

  lemma FirstComesFirst(keys: set<Key>, limit: nat, x: Key, y: Key)
    requires x in First(keys, limit) && y in keys
    ensures x in keys && (y !in First(keys, limit) ==> Before(x, y))
  {
    if Before(y, x) {
      assert Below(keys, y) <= Below(keys, x);
      SubsetSize(Below(keys, y), Below(keys, x));
    }
  }

  /** A committed deletion takes as many deletable rows as there are, up to its limit, the ones settled first, and
      leaves all other rows as they are. */
  lemma PruneTakesOldest(db: Db, c: Call, limit: int)
    requires PruneTerminal(db, c, limit).result.Ok?
    ensures var r := PruneTerminal(db, c, limit);
            && r.db.items.Keys <= db.items.Keys && (forall k :: k in r.db.items ==> r.db.items[k] == db.items[k])
            && (forall k :: k in db.items && k !in r.db.items ==> k in Deletable(db, c))
            && (forall k, j | k in db.items && k !in r.db.items && j in Deletable(db, c) && j in r.db.items ::
                  SettledBefore(db, k, j))
            && r.result.value == |db.items.Keys - r.db.items.Keys| == Min(|Deletable(db, c)|, limit)
            && r.db.media == db.media && r.db.capacity == db.capacity
  {
    hide PruneSet, Prunable, Deletable, SettledBefore, Open;
    var r := PruneTerminal(db, c, limit);
    PruneSetSize(db, c, limit);
    SelectedIsDeletable(db, c, limit);
    assert db.items.Keys - r.db.items.Keys == PruneSet(db, c, limit);
    forall k, j | k in PruneSet(db, c, limit) && j in Deletable(db, c) && j in r.db.items ensures SettledBefore(db, k, j) {
      PruneSetIsOldest(db, c, limit, k, j);
    }
  }

  lemma SelectedIsDeletable(db: Db, c: Call, limit: nat)
    ensures PruneSet(db, c, limit) <= Deletable(db, c) <= db.items.Keys
  {
  }

  // ------------------------------------------------------------------ deadlines

  /** Every claim ends within its lease, and a claim of an observation before its deadline,
      at most a day after its admission. */
  lemma ClaimEndsInTime(db: Db, c: Call, leaseSeconds: int, token: Id)
    requires Inv(db)
    requires ClaimItem(db, c, leaseSeconds, token).result.Ok?
    requires ClaimItem(db, c, leaseSeconds, token).result.value.Some?
    ensures var cl := ClaimItem(db, c, leaseSeconds, token).result.value.value;
            && c.now < cl.until <= c.now + leaseSeconds * 1000
            && (cl.operation.Observation? ==> cl.until <= cl.deadline <= cl.admitted + DAY_MS)
  {
    ClaimCases(db, c, leaseSeconds, token);
    var cl := ClaimItem(db, c, leaseSeconds, token).result.value.value;
    SweptIsFresh(db, c, cl.id);
    TakenRowFits(db, c, cl.id);
    hide Inv, ClaimItem, Sweep;
  }

  /** An observation's receipt is always recorded strictly before its deadline. */
  lemma ReceiptsAreInTime(es: seq<Event>, limits: Limits, id: Id)
    requires AllAllowed(START, es, limits) && id in Run(START, es).db.items
    requires Run(START, es).db.items[id].state.Received?
    ensures Run(START, es).db.items[id].receiptAt.Some?
    ensures Run(START, es).db.items[id].receiptAt.value < Run(START, es).db.items[id].deadline
  {
    hide Run, AllAllowed, WorldInv, RowOk;
    StartIsGood(limits);
    RunKeeps(START, es, limits);
    RowInWorld(Run(START, es), limits, id);
  }

  /** The row waits in this binding, its pause is over, and it may be sent in the binding's state. */
  ghost predicate MayGo(db: Db, c: Call, k: Id)
    requires c.ref.id in db.bindings
  {
    var swept := Sweep(db, c).items;
    && k in swept && swept[k].binding == c.ref.id && swept[k].state.Pending? && swept[k].next <= c.now
    && (swept[k].operation.Observation? ==> db.bindings[c.ref.id].state.Active? && c.now < swept[k].deadline)
  }

  /** Withdrawals go first, then what was created first, then the smaller identifier. */
  predicate GoesBefore(id: Id, i: Item, k: Id, j: Item) {
    if i.operation != j.operation then i.operation.Withdrawal?
    else i.created < j.created || (i.created == j.created && id < k)
  }

  lemma DueMeansMayGo(db: Db, c: Call, k: Id)
    requires Inv(db) && Open(db, c).Ok? && k in Sweep(db, c).items
    ensures IsDue(Sweep(db, c).items[k], c.ref.id, db.bindings[c.ref.id].state, c.now) <==> MayGo(db, c, k)
  {
    SweepKeepsPlace(db, c, k);
    if db.items[k].binding == c.ref.id {
      SweptIsFresh(db, c, k);
    }
    hide Inv, Sweep;
  }

  lemma KeysGoBefore(id: Id, i: Item, k: Id, j: Item)
    requires Before(DueKey(id, i), DueKey(k, j)) && k != id
    ensures GoesBefore(id, i, k, j)
  {
  }

  /** A live binding's claim succeeds exactly when no reservation is held and some row may go; it takes the one
      that goes before every other, as it was after expiry and reclaim. */
  lemma ClaimTakesFirst(db: Db, c: Call, leaseSeconds: int, token: Id)
    requires Inv(db) && Open(db, c).Ok? && db.bindings[c.ref.id].Live() && 1 <= leaseSeconds <= 60
    ensures var r := ClaimItem(db, c, leaseSeconds, token).result;
            && r.Ok?
            && (r.value.Some? <==> !Held(db, c.scope.installation, c.now) && exists k :: MayGo(db, c, k))
            && (r.value.Some? ==>
                  var id, swept := r.value.value.id, Sweep(db, c).items;
                  && MayGo(db, c, id) && r.value.value.operation == swept[id].operation
                  && (forall k :: MayGo(db, c, k) && k != id ==> GoesBefore(id, swept[id], k, swept[k])))
  {
    hide Inv, Sweep, Decodes, MayGo, IsDue, GoesBefore;
    ClaimAlwaysDecodes(db, c, leaseSeconds, token);
    var state, swept := db.bindings[c.ref.id].state, Sweep(db, c).items;
    var due := DueKeys(swept, c.ref.id, state, c.now);
    forall k | k in swept && (MayGo(db, c, k) || IsDue(swept[k], c.ref.id, state, c.now))
      ensures MayGo(db, c, k) && DueKey(k, swept[k]) in due
    {
      DueMeansMayGo(db, c, k);
    }
    MayGoIsSwept(db, c);
    if due != {} {
      var first := Least(due);
      DueKeyRow(swept, c.ref.id, state, c.now);
      assert MayGo(db, c, first.id);
      forall k | MayGo(db, c, k) && k != first.id ensures GoesBefore(first.id, swept[first.id], k, swept[k]) {
        KeysGoBefore(first.id, swept[first.id], k, swept[k]);
      }
    }
  }

  lemma MayGoIsSwept(db: Db, c: Call)
    requires c.ref.id in db.bindings
    ensures forall k :: MayGo(db, c, k) ==> k in Sweep(db, c).items
  {
  }

  /** In every reachable world a claim carries what was queued: an observation as it was enqueued, or the withdrawal
      of that source for the row's reason. */
  lemma ClaimCarriesRow(es: seq<Event>, limits: Limits, c: Call, leaseSeconds: int, token: Id)
    requires AllAllowed(START, es, limits)
    requires ClaimItem(Run(START, es).db, c, leaseSeconds, token).result.Ok?
    requires ClaimItem(Run(START, es).db, c, leaseSeconds, token).result.value.Some?
    ensures var r := ClaimItem(Run(START, es).db, c, leaseSeconds, token);
            var cl := r.result.value.value;
            && cl.id in r.db.items
            && var j := r.db.items[cl.id];
               && cl.operation == j.operation && cl.source == j.source == SourceId(c.scope, c.ref.id, j.entity)
               && cl.binding == c.ref && j.lease == Some(Lease(token, cl.until, c.ref.generation)) && cl.token == token
               && cl.admitted == j.admitted && cl.deadline == j.deadline
               && cl.until == (if cl.operation.Observation? then Min(c.now + leaseSeconds * 1000, j.deadline)
                               else c.now + leaseSeconds * 1000)
               && r.db.capacity == Run(START, es).db.capacity[c.scope.installation := Reservation(token, cl.until)]
               && (cl.operation.Observation? ==> (cl.body, cl.deadline) == j.fingerprint)
               && (cl.operation.Withdrawal? ==> j.reason.Some? && cl.body == WithdrawalBody(j.source, j.reason.value))
  {
    hide Run, AllAllowed, ClaimItem, Sweep, Inv;
    var db := Run(START, es).db;
    ReachableInv(es, limits);
    ClaimCases(db, c, leaseSeconds, token);
    var cl := ClaimItem(db, c, leaseSeconds, token).result.value.value;
    ClaimReads(db, c, leaseSeconds, token);
    SweepKeepsReservations(db, c);
    TakenRowFits(db, c, cl.id);
  }

  lemma SweepKeepsReservations(db: Db, c: Call)
    requires c.ref.id in db.bindings
    ensures Sweep(db, c).capacity == db.capacity
  {
  }

  lemma ClaimReads(db: Db, c: Call, leaseSeconds: int, token: Id)
    requires ClaimItem(db, c, leaseSeconds, token).result.Ok?
    requires ClaimItem(db, c, leaseSeconds, token).result.value.Some?
    ensures var cl := ClaimItem(db, c, leaseSeconds, token).result.value.value;
            && c.ref.id in db.bindings && cl.id in Sweep(db, c).items
            && var i := Sweep(db, c).items[cl.id];
               i.payload.Some? && cl.body == i.payload.value.body && cl.source == i.source && i.binding == c.ref.id
  {
    hide Sweep, Decodes, LeaseRow, LeaseEnd;
    var due := DueKeys(Sweep(db, c).items, c.ref.id, db.bindings[c.ref.id].state, c.now);
    if due != {} {
      DueKeyRow(Sweep(db, c).items, c.ref.id, db.bindings[c.ref.id].state, c.now);
    }
    DecodesPayload(c.key, c.scope, Least(due).id, Sweep(db, c).items[Least(due).id]);
  }

  lemma DecodesPayload(key: Id, scope: Scope, id: Id, i: Item)
    ensures Decodes(key, scope, id, i) ==> i.payload.Some?
  {
  }

  // -------------------------------------------------------------------- restore

  /** Nothing of this row can be sent, and an attempt without receipt is left for management. */
  ghost predicate Fenced(i: Item, j: Item) {
    && j.payload.None? && j.lease.None?
    && (i.everAttempted && !Acknowledged(i) ==>
          j.operation.Withdrawal? && j.state.Blocked? && j.error == Some(RequiresManagement))
    && (!i.everAttempted ==> j.state.Cancelled?)
    && (Acknowledged(i) ==> Acknowledged(j) && j.receipt == i.receipt)
  }

  /** Media that was ever sent is left for management unless it was withdrawn, and the rest is cancelled. */
  ghost predicate MediaFenced(m: Media, n: Media) {
    && n.lease.None?
    && (m.state.MediaWithdrawn? ==> n == m)
    && (!m.state.MediaWithdrawn? && m.everAttempted ==> n.state.MediaBlocked? && n.error == Some(RequiresManagement))
    && (!m.state.MediaWithdrawn? && !m.everAttempted ==> n.state.MediaCancelled?)
  }

  /** A restore leaves nothing that can be sent: no live binding, no lease, no waiting row and no
      ciphertext, and every row that shows an attempt is blocked for management or was receipted. */
  lemma RestoreFences(db: Db, now: int)
    requires Inv(db) && MarkRestored(db, now).result.Ok?
    ensures var db' := MarkRestored(db, now).db;
            && db'.capacity == map[] && db'.bindings.Keys == db.bindings.Keys
            && (forall b :: b in db'.bindings ==> db'.bindings[b].state.Restored?)
            && (forall b :: b in db.bindings && !db.bindings[b].state.Restored? ==>
                  db'.bindings[b].generation == db.bindings[b].generation + 1)
            && (forall c :: Open(db, c).Ok? && !db.bindings[c.ref.id].state.Restored? ==>
                  Open(db', c) == Err(StaleGeneration))
            && (forall k :: k in db.items ==> k in db'.items && Fenced(db.items[k], db'.items[k]))
            && (forall m :: m in db.media ==> m in db'.media && MediaFenced(db.media[m], db'.media[m]))
  {
    hide RestoreRow, RestoreMedia, Fenced, MediaFenced, RowOk, RowShape, UniqueEntities, UniqueParents;
    forall k | k in db.items ensures Fenced(db.items[k], RestoreRow(db.items[k], now)) {
      ShapeInDb(db, k);
      RestoredRowIsFenced(db.items[k], now);
    }
    forall m | m in db.media ensures MediaFenced(db.media[m], RestoreMedia(db.media[m], now)) {
      assert MediaOk(db.items, db.media[m]);
      RestoredMediaIsFenced(db.items[db.media[m].parent], db.media[m], now);
    }
  }

  lemma RestoredRowIsFenced(i: Item, now: int)
    requires RowShape(i)
    ensures Fenced(i, RestoreRow(i, now))
  {
  }

  lemma RestoredMediaIsFenced(p: Item, m: Media, now: int)
    requires MediaFits(p, m)
    ensures MediaFenced(m, RestoreMedia(m, now))
  {
  }

  /** A second restore, at any later time, changes no item and no binding. */
  lemma RestoreIsIdempotent(db: Db, now: int, later: int)
    requires Inv(db) && MarkRestored(db, now).result.Ok? && ValidClock(later)
    ensures var db' := MarkRestored(db, now).db;
            MarkRestored(db', later).result.Ok?
            && MarkRestored(db', later).db.items == db'.items && MarkRestored(db', later).db.bindings == db'.bindings
  {
    hide RestoreRow, RestoreMedia, RowOk, MediaOk;
    var db' := MarkRestored(db, now).db;
    forall k | k in db.items ensures RestoreRow(db'.items[k], later) == db'.items[k] {
      ShapeInDb(db, k);
      RestoreRowTwice(db.items[k], now, later);
    }
  }

  lemma ShapeInDb(db: Db, k: Id)
    requires Inv(db) && k in db.items
    ensures RowShape(db.items[k])
  {
    assert RowOk(db.bindings, k, db.items[k]);
  }

  lemma RestoreRowTwice(i: Item, now: int, later: int)
    requires RowShape(i)
    ensures RestoreRow(RestoreRow(i, now), later) == RestoreRow(i, now)
  {
  }

  ghost predicate Closed(w: World, binding: Id) {
    binding in w.db.bindings && !w.db.bindings[binding].Live()
  }

  lemma {:induction false} ClosedForever(w: World, es: seq<Event>, limits: Limits, binding: Id)
    requires WorldInv(w, limits) && AllAllowed(w, es, limits) && Closed(w, binding)
    ensures Closed(Run(w, es), binding)
    decreases |es|
  {
    hide WorldInv, Next, Allowed, ItemsEvolve, MediaEvolves, Inv;
    if es != [] {
      NextKeeps(w, es[0], limits);
      assert BindingEvolves(w.db.bindings[binding], Next(w, es[0]).db.bindings[binding]);
      ClosedForever(Next(w, es[0]), es[1..], limits, binding);
    }
  }

  /** A row of a closed binding, a restored one above all, is never claimed in any later world of the run,
      and neither is a media row of it. */
  lemma ClosedIsNeverClaimed(es: seq<Event>, more: seq<Event>, limits: Limits, k: Id, c: Call, leaseSeconds: int,
                             token: Id)
    requires AllAllowed(START, es + more, limits)
    requires k in Run(START, es).created && Closed(Run(START, es), Run(START, es).created[k].binding)
    ensures var r := ClaimItem(Run(START, es + more).db, c, leaseSeconds, token).result;
            r.Ok? && r.value.Some? ==> r.value.value.id != k
    ensures var db := Run(START, es + more).db;
            var r := ClaimMedia(db, c, leaseSeconds, token).result;
            r.Ok? && r.value.Some? ==>
              r.value.value.id in db.media
              && db.media[r.value.value.id].binding != Run(START, es).created[k].binding
              && db.media[r.value.value.id].parent != k
  {
    hide WorldInv, Run, AllAllowed, ClaimItem, ClaimMedia;
    var w := Run(START, es);
    Reached(es, more, limits);
    ClosedForever(w, more, limits, w.created[k].binding);
    RunKeeps(w, more, limits);
    CreatedForever(w, more, limits, k);
    ClaimedIsLive(Run(w, more), limits, c, leaseSeconds, token);
    ClaimedMediaIsLive(Run(w, more), limits, c, leaseSeconds, token);
  }

  lemma ClaimedMediaIsLive(w: World, limits: Limits, c: Call, leaseSeconds: int, token: Id)
    requires WorldInv(w, limits)
    ensures var r := ClaimMedia(w.db, c, leaseSeconds, token).result;
            r.Ok? && r.value.Some? ==>
              var id := r.value.value.id;
              && id in w.db.media && w.db.media[id].parent in w.created
              && w.created[w.db.media[id].parent].binding == w.db.media[id].binding
              && w.db.media[id].binding in w.db.bindings && w.db.bindings[w.db.media[id].binding].Live()
  {
    hide ClaimMedia, Succeeds, Leases, InFlight, Within, RowShape, IsMediaDue, MediaTimely;
    var r := ClaimMedia(w.db, c, leaseSeconds, token).result;
    if r.Ok? && r.value.Some? {
      var id := r.value.value.id;
      ClaimMediaCases(w.db, c, leaseSeconds, token);
      assert MediaOk(w.db.items, w.db.media[id]);
      DueMedia(SweptMedia(w.db, c), SweptMedia(w.db, c).media[id], c.ref.id, c.now);
      SweptRow(w.db, c, id);
    }
  }

  lemma DueMedia(db: Db, m: Media, binding: Id, now: int)
    requires IsMediaDue(db, m, binding, now)
    ensures m.binding == binding
  {
  }

  lemma ClaimedIsLive(w: World, limits: Limits, c: Call, leaseSeconds: int, token: Id)
    requires WorldInv(w, limits)
    ensures var r := ClaimItem(w.db, c, leaseSeconds, token).result;
            r.Ok? && r.value.Some? ==>
              r.value.value.id in w.created && w.created[r.value.value.id].binding in w.db.bindings
              && w.db.bindings[w.created[r.value.value.id].binding].Live()
  {
    ClaimCases(w.db, c, leaseSeconds, token);
    hide ClaimItem, Inv, Sweep;
  }

  lemma {:induction false} CreatedForever(w: World, es: seq<Event>, limits: Limits, k: Id)
    requires WorldInv(w, limits) && AllAllowed(w, es, limits) && k in w.created
    ensures k in Run(w, es).created && Run(w, es).created[k] == w.created[k]
    decreases |es|
  {
    hide WorldInv, Next, Allowed;
    if es != [] {
      NextKeeps(w, es[0], limits);
      CreatedOnce(w, es[0], limits, k);
      CreatedForever(Next(w, es[0]), es[1..], limits, k);
    }
  }

  lemma CreatedOnce(w: World, e: Event, limits: Limits, k: Id)
    requires WorldInv(w, limits) && Allowed(w, e, limits) && k in w.created
    ensures k in Next(w, e).created && Next(w, e).created[k] == w.created[k]
  {
    hide Effect, Creations, Inv, Succeeds, Leases, InFlight, Within;
    AllowedMeans(w, e, limits);
    NextCreated(w, e);
    CreationsAreNew(w, e);
  }

  lemma CreationsAreNew(w: World, e: Event)
    requires Inv(w.db) && (e.DoEnqueue? ==> e.id !in w.created)
    ensures forall k :: k in Creations(w.db.items, Effect(w.db, e).items) ==> k !in w.created
  {
    hide Inv, Effect;
    NewRowsAreNew(w, e);
  }
}
