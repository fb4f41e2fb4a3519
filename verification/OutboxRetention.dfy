/** How long media stays, over whole runs: when a pass of the sender can be refused because a
    reference outlived its parent, when it cannot, and what follows from a refusal. */
module OutboxRetention {
  import opened Basics
  import opened OutboxModel
  import opened MediaModel
  import opened OutboxInvariant
  import opened OutboxSteps
  import opened MediaSteps
  import opened OutboxRuns
  import opened OutboxHistory
  import opened OutboxTheorems

  // ------------------------------------------------------------- evidence of media

  /** In every reachable world a media row belongs to a retained item of its binding and source, content and
      readiness have an acknowledged manifest, a sent reference has a sent parent, and what is still to be
      sent is not terminal. */
  lemma MediaStates(es: seq<Event>, limits: Limits, m: Id)
    requires AllAllowed(START, es, limits) && m in Run(START, es).db.media
    ensures var db := Run(START, es).db;
            var n := db.media[m];
            && n.parent in db.items && db.items[n.parent].binding == n.binding && db.items[n.parent].source == n.source
            && (n.state.PendingContent? || n.state.LeasedContent? || n.state.MediaReady? ==> n.evidence.Some?)
            && (n.evidence.Some? || n.state.MediaReady? || n.state.MediaBlocked? ==> n.everAttempted)
            && (n.everAttempted ==> db.items[n.parent].everAttempted)
            && (n.lease.Some? ==> IsLeased(n) && n.lease.value.until <= db.items[n.parent].deadline)
            && (n.state.PendingManifest? || n.state.PendingContent? || IsLeased(n) ==> n.terminal.None?)
  {
    hide Run, AllAllowed, RowShape, BindingsOk, ItemsOk;
    ReachableInv(es, limits);
    assert MediaOk(Run(START, es).db.items, Run(START, es).db.media[m]);
  }

  // -------------------------------------------------- media of a settled parent

  /** The parent's obligation is over, and it is known since when. */
  ghost predicate Settled(db: Db, m: Id) {
    && m in db.media && db.media[m].parent in db.items
    && Spent(db.items[db.media[m].parent]) && db.items[db.media[m].parent].terminal.Some?
  }

  /** The media row became terminal within a day of its spent parent. */
  ghost predicate Mirrored(db: Db, m: Id) {
    && Settled(db, m)
    && db.media[m].terminal.Some?
    && db.media[m].terminal.value <= db.items[db.media[m].parent].terminal.value + DAY_MS
  }

  /** A reconciliation within a day of the parent's settlement mirrors every media row of it that it keeps. */
  lemma ReconcileMirrors(w: World, limits: Limits, c: Call, m: Id)
    requires WorldInv(w, limits) && ValidClock(c.now) && w.now <= c.now
    requires m in w.db.media && w.db.media[m].binding == c.ref.id && Settled(w.db, m)
    requires c.now <= w.db.items[w.db.media[m].parent].terminal.value + DAY_MS
    ensures m in Reconcile(w.db, c).db.media ==> Mirrored(Reconcile(w.db, c).db, m)
  {
    hide Tracked, Succeeds, Leases, InFlight, Within, RowShape, BindingsOk;
    var p := w.db.items[w.db.media[m].parent];
    assert MediaOk(w.db.items, w.db.media[m]);
    RowInWorld(w, limits, w.db.media[m].parent);
    SyncRowKeeps(p, w.db.media[m], c.now);
  }

  lemma MirroredStays(db: Db, db': Db, token: Option<Id>, m: Id)
    requires Good(db, db', token) && Mirrored(db, m)
    requires m in db'.media && db.media[m].binding in db'.bindings
    requires !db'.bindings[db.media[m].binding].state.Restored?
    ensures Mirrored(db', m) && db'.media[m].binding == db.media[m].binding
  {
    assert MediaRowEvolves(db'.bindings, db.media[m], db'.media[m], token);
    assert MediaOk(db'.items, db'.media[m]);
    assert RowEvolves(db.items[db.media[m].parent], db'.items[db.media[m].parent]);
  }

  ghost predicate OpenBinding(db: Db, binding: Id) {
    binding in db.bindings && !db.bindings[binding].state.Restored?
  }

  lemma {:induction false} WasOpen(w: World, es: seq<Event>, limits: Limits, binding: Id)
    requires WorldInv(w, limits) && AllAllowed(w, es, limits)
    requires binding in w.db.bindings && OpenBinding(Run(w, es).db, binding)
    ensures OpenBinding(w.db, binding)
    decreases |es|
  {
    hide WorldInv, Next, Allowed, ItemsEvolve, MediaEvolves, Inv;
    if es != [] {
      NextKeeps(w, es[0], limits);
      assert BindingEvolves(w.db.bindings[binding], Next(w, es[0]).db.bindings[binding]);
      WasOpen(Next(w, es[0]), es[1..], limits, binding);
    }
  }

  lemma MediaBinding(w: World, limits: Limits, m: Id)
    requires WorldInv(w, limits) && m in w.db.media
    ensures w.db.media[m].binding in w.db.bindings
  {
    assert MediaOk(w.db.items, w.db.media[m]);
    assert RowOk(w.db.bindings, w.db.media[m].parent, w.db.items[w.db.media[m].parent]);
  }

  lemma AbsentStaysAbsent(w: World, e: Event, limits: Limits, m: Id)
    requires WorldInv(w, limits) && m !in w.db.media
    requires e.DoEnqueueMedia? ==> e.id != m
    ensures m !in Next(w, e).db.media
  {
    hide Inv, Next, Effect, Tracked, Succeeds, Leases, InFlight, Within;
    NextDb(w, e);
    NewRows(w.db, e);
  }

  /** A mirrored media row stays mirrored until it is deleted, as long as nothing is restored. */
  lemma {:induction false} MirroredUntilDeleted(w: World, es: seq<Event>, limits: Limits, m: Id, binding: Id)
    requires WorldInv(w, limits) && AllAllowed(w, es, limits)
    requires m in w.db.media ==> Mirrored(w.db, m) && w.db.media[m].binding == binding
    requires binding in w.db.bindings && OpenBinding(Run(w, es).db, binding)
    requires forall i :: 0 <= i < |es| && es[i].DoEnqueueMedia? ==> es[i].id != m
    ensures m in Run(w, es).db.media ==> Mirrored(Run(w, es).db, m)
    decreases |es|
  {
    hide WorldInv, Next, Allowed, Mirrored, Inv, ItemsEvolve, MediaEvolves, OpenBinding;
    if es != [] {
      var w' := Next(w, es[0]);
      NextKeeps(w, es[0], limits);
      assert BindingEvolves(w.db.bindings[binding], w'.db.bindings[binding]);
      WasOpen(w', es[1..], limits, binding);
      OpenMeans(w'.db, binding);
      if m !in w.db.media {
        AbsentStaysAbsent(w, es[0], limits, m);
      } else if m in w'.db.media {
        MirroredStays(w.db, w'.db, TokenOf(es[0]), m);
      }
      MirroredUntilDeleted(w', es[1..], limits, m, binding);
    }
  }

  lemma OpenMeans(db: Db, binding: Id)
    requires OpenBinding(db, binding)
    ensures binding in db.bindings && !db.bindings[binding].state.Restored?
  {
  }

  // ----------------------------------------------------------- reconciled in time

  ghost predicate ReconcilesInTime(db: Db, c: Call, m: Id) {
    && Settled(db, m) && db.media[m].binding == c.ref.id
    && c.now <= db.items[db.media[m].parent].terminal.value + DAY_MS
  }

  /** The event number `i` of the run reconciled the reference within a day of its parent's
      settlement, and the reference was not enqueued anew after that. */
  ghost predicate ReconciledInTime(es: seq<Event>, i: int, m: Id, binding: Id) {
    && 0 <= i < |es| && es[i].DoReconcile? && ValidClock(es[i].c.now) && es[i].c.ref.id == binding
    && ReconcilesInTime(Run(START, es[..i]).db, es[i].c, m)
    && (forall j :: i < j < |es| && es[j].DoEnqueueMedia? ==> es[j].id != m)
  }

  lemma ReconcileThenRest(es: seq<Event>, limits: Limits, i: int)
    requires AllAllowed(START, es, limits) && 0 <= i < |es|
    ensures var w := Run(START, es[..i]);
            && WorldInv(w, limits) && Allowed(w, es[i], limits)
            && AllAllowed(Next(w, es[i]), es[i + 1..], limits)
            && Run(START, es) == Run(Next(w, es[i]), es[i + 1..])
  {
    hide WorldInv, Next, Allowed;
    var rest := es[i..];
    assert es == es[..i] + rest && rest[0] == es[i] && rest[1..] == es[i + 1..];
    Reached(es[..i], rest, limits);
  }

  /** A reference that was reconciled in time is mirrored for as long as it exists, unless its binding is restored. */
  lemma ReconciledIsMirrored(es: seq<Event>, limits: Limits, i: int, m: Id, binding: Id)
    requires AllAllowed(START, es, limits) && ReconciledInTime(es, i, m, binding)
    requires OpenBinding(Run(START, es).db, binding)
    ensures m in Run(START, es).db.media ==> Mirrored(Run(START, es).db, m)
  {
    hide WorldInv, Run, AllAllowed, Allowed, Mirrored, Settled, Reconcile, Good, OpenBinding;
    var w, e, rest := Run(START, es[..i]), es[i], es[i + 1..];
    ReconcileThenRest(es, limits, i);
    SettledRow(w.db, m);
    MediaBinding(w, limits, m);
    AllowedTime(w, e, limits);
    ReconcileMirrors(w, limits, e.c, m);
    NextKeeps(w, e, limits);
    ReconciledNext(w, e, m);
    MirroredUntilDeleted(Next(w, e), rest, limits, m, e.c.ref.id);
  }

  lemma SettledRow(db: Db, m: Id)
    requires Settled(db, m)
    ensures m in db.media && db.media[m].parent in db.items && db.items[db.media[m].parent].terminal.Some?
  {
  }

  lemma AllowedTime(w: World, e: Event, limits: Limits)
    requires Allowed(w, e, limits) && e.DoReconcile?
    ensures w.now <= e.c.now
  {
  }

  lemma ReconciledNext(w: World, e: Event, m: Id)
    requires e.DoReconcile? && m in w.db.media
    ensures Next(w, e).db == Reconcile(w.db, e.c).db && Next(w, e).db.bindings == w.db.bindings
    ensures m in Next(w, e).db.media ==> Next(w, e).db.media[m].binding == w.db.media[m].binding
  {
  }

  /** The pass that selects its parent drops a reference that was reconciled in time. */
  lemma ReferenceIsDropped(es: seq<Event>, limits: Limits, i: int, m: Id, binding: Id, c: Call, limit: int)
    requires AllAllowed(START, es, limits) && ReconciledInTime(es, i, m, binding)
    requires OpenBinding(Run(START, es).db, binding)
    requires Open(Run(START, es).db, c).Ok? && m in Run(START, es).db.media
    requires limit >= 0 && Run(START, es).db.media[m].parent in PruneSet(Run(START, es).db, c, limit)
    ensures m !in Reconcile(Run(START, es).db, c).db.media
  {
    hide WorldInv, Run, AllAllowed, ReconciledInTime, PruneSet, Reconcile, Open, OpenBinding;
    var db := Run(START, es).db;
    ReconciledIsMirrored(es, limits, i, m, binding);
    ReachableInv(es, limits);
    PruneSetIsPrunable(db, c, limit, db.media[m].parent);
    SpentParentReference(db, c, m);
  }

  /** Every reference to one of these parents was reconciled in time. */
  ghost predicate AllReconciledInTime(es: seq<Event>, doomed: set<Id>, binding: Id) {
    forall m | m in Run(START, es).db.media && Run(START, es).db.media[m].parent in doomed ::
      exists i :: ReconciledInTime(es, i, m, binding)
  }

  /** In every reachable world the sender's pass over an open binding is accepted, if every reference to the
      parents it selects was reconciled within a day of its parent's settlement. */
  lemma ReconciledPassIsAccepted(es: seq<Event>, limits: Limits, c: Call, limit: int)
    requires AllAllowed(START, es, limits) && OpenBinding(Run(START, es).db, c.ref.id)
    requires Open(Run(START, es).db, c).Ok? && 1 <= limit <= 1000
    requires AllReconciledInTime(es, PruneSet(Run(START, es).db, c, limit), c.ref.id)
    ensures ReconcileThenPrune(Run(START, es).db, c, limit).result.Ok?
  {
    hide WorldInv, Run, AllAllowed, ReconciledInTime, PruneSet, Open, OpenBinding, ReconcileThenPrune;
    var db := Run(START, es).db;
    ReachableInv(es, limits);
    forall m | m in db.media && db.media[m].parent in PruneSet(db, c, limit)
      ensures db.media[m].parent in db.items && MirroredWithinADay(db.items[db.media[m].parent], db.media[m])
    {
      var i :| ReconciledInTime(es, i, m, c.ref.id);
      ReconciledIsMirrored(es, limits, i, m, c.ref.id);
    }
    PruneNeverBlocked(db, c, limit);
  }

  // ------------------------------------------------------------- refused for good

  /** A later pass selects the row again, as long as nothing was pruned. */
  lemma StaysSelected(db: Db, c: Call, later: Call, limit: nat, k: Id)
    requires later.ref.id == c.ref.id && c.now <= later.now && k in PruneSet(db, c, limit)
    ensures k in PruneSet(db, later, limit)
  {
    var keys := PruneKeys(db.items, c.ref.id, c.now - 31 * DAY_MS);
    var laterKeys := PruneKeys(db.items, c.ref.id, later.now - 31 * DAY_MS);
    var x :| x in First(keys, limit) && x.id == k;
    SubsetSize(Below(laterKeys, x), Below(keys, x));
    assert x in First(laterKeys, limit);
  }

  /** A selected parent with a reference that nobody mirrored refuses this pass and every later one. */
  lemma BlockedForGood(db: Db, c: Call, later: Call, limit: int, m: Id)
    requires Inv(db) && Open(db, c).Ok? && Open(db, later).Ok? && 1 <= limit <= 1000
    requires later.ref.id == c.ref.id && c.now <= later.now
    requires m in db.media && db.media[m].terminal.None? && db.media[m].parent in PruneSet(db, c, limit)
    ensures ReconcileThenPrune(db, later, limit).result == Err(ForeignKeyHeld)
  {
    hide Inv, PruneSet, ReconcileThenPrune, Open;
    StaysSelected(db, c, later, limit, db.media[m].parent);
    PruneBlockedExactly(db, later, limit);
  }
}
