/** What every operation keeps: the shape of each row, the constraints between
    rows, and how a row may differ after one step. */
module OutboxInvariant {
  import opened Basics
  import opened OutboxModel
  import opened MediaModel

  // ------------------------------------------------------------- the invariant

  /** Facts about one row alone. */
  ghost predicate RowShape(i: Item) {
    && i.admitted < i.deadline <= i.admitted + DAY_MS
    && i.admitted <= i.created < i.deadline && i.fingerprint.1 == i.deadline
    && (i.payload.Some? <==> i.state.Pending? || i.state.Leased?)
    && (i.lease.Some? <==> i.state.Leased?)
    && (i.everAttempted <==> i.attempts > 0)
    && (i.state.Leased? ==> i.everAttempted)
    && (i.operation.Observation? ==>
          i.state.Pending? || i.state.Leased? || i.state.Received? || i.state.Cancelled? || i.state.Expired?)
    && (i.operation.Withdrawal? ==>
          i.everAttempted && i.reason.Some?
          && (i.state.Pending? || i.state.Leased? || i.state.Blocked? || i.state.Withdrawn?))
    && (i.everAttempted ==> !i.state.Cancelled? && !i.state.Expired?)
    && (i.receipt.Some? || i.observationReceipt.Some? ==> i.everAttempted)
    && (i.operation.Observation? && (i.receipt.Some? || i.observationReceipt.Some?) ==> i.state.Received?)
    && (i.state.Received? ==>
          i.everAttempted && i.receipt.Some? && i.observationReceipt == i.receipt
          && i.receiptAt.Some? && i.receiptAt.value < i.deadline)
    && (i.state.Withdrawn? ==> i.receipt.Some?)
    && (i.settled.Some? ==> i.state.Received? || i.state.Withdrawn?)
    && (i.state.Received? || i.state.Withdrawn? || i.state.Cancelled? || i.state.Expired? ==> i.terminal.Some?)
    && (i.operation.Observation? && i.state.Leased? ==> i.lease.value.until <= i.deadline)
    && (i.error == Some(RequiresManagement) ==> i.state.Blocked?)
  }

  /** A row's ciphertext opens under its binding's key, has a bounded size and holds what was queued, or its withdrawal. */
  ghost predicate RowSealed(b: Binding, k: Id, i: Item) {
    i.payload.Some? ==>
      Decodes(b.key, b.scope, k, i) && PlainLength(i.payload.value.body) <= MAX_PLAINTEXT
      && (i.operation.Withdrawal? ==> i.reason.Some? && i.payload.value.body == WithdrawalBody(i.source, i.reason.value))
      && (i.operation.Observation? ==> i.payload.value.body == i.fingerprint.0)
  }

  /** A row within its binding: leases belong to the current generation of a live binding,
      and a binding that is no longer live has no observation left to send. */
  ghost predicate RowPlaced(b: Binding, i: Item) {
    && i.created <= b.clock
    && i.source == SourceId(b.scope, i.binding, i.entity)
    && (i.state.Leased? ==> b.Live() && i.lease.Some? && i.lease.value.generation == b.generation)
    && (b.Live() && i.terminal.Some? ==> i.created <= i.terminal.value)
    && (i.terminal.Some? ==> i.terminal.value <= b.clock)
    && (!b.Live() && i.operation.Observation? ==> i.state.Cancelled? || i.state.Expired?)
  }

  ghost predicate RowFits(b: Binding, k: Id, i: Item) {
    RowShape(i) && RowSealed(b, k, i) && RowPlaced(b, i)
  }

  ghost predicate RowOk(bindings: map<Id, Binding>, k: Id, i: Item) {
    i.binding in bindings && RowFits(bindings[i.binding], k, i)
  }

  ghost predicate MediaFits(p: Item, m: Media) {
    && m.binding == p.binding && m.source == p.source && m.entity == p.entity && m.deadline == p.deadline
    && (m.lease.Some? <==> IsLeased(m))
    && (m.everAttempted <==> m.attempts > 0)
    && (m.everAttempted ==> p.everAttempted)
    && ((m.state.LeasedManifest? || m.state.PendingContent? || m.state.LeasedContent?
         || m.state.MediaReady? || m.state.MediaBlocked?) ==> m.everAttempted)
    && (m.state.PendingContent? || m.state.LeasedContent? || m.state.MediaReady? ==> m.evidence.Some?)
    && (m.evidence.Some? ==> m.everAttempted)
    && (IsLeased(m) ==> m.lease.value.until <= m.deadline)
    && (m.state.MediaReady? || m.state.MediaCancelled? || m.state.MediaExpired? || m.state.MediaWithdrawn? ==>
          m.terminal.Some?)
    && (m.state.PendingManifest? || m.state.PendingContent? || IsLeased(m) ==> m.terminal.None?)
  }

  ghost predicate MediaOk(items: map<Id, Item>, m: Media) {
    m.parent in items && MediaFits(items[m.parent], m)
  }

  ghost predicate OneLive(bindings: map<Id, Binding>) {
    forall a, b | a in bindings && b in bindings && bindings[a].Live() && bindings[b].Live()
                  && bindings[a].scope.installation == bindings[b].scope.installation :: a == b
  }

  ghost predicate UniqueTargets(bindings: map<Id, Binding>) {
    forall a, b | a in bindings && b in bindings
                  && bindings[a].target.origin == bindings[b].target.origin
                  && bindings[a].target.device == bindings[b].target.device :: a == b
  }

  ghost predicate UniqueEntities(items: map<Id, Item>) {
    forall a, b | a in items && b in items && items[a].binding == items[b].binding
                  && items[a].entity == items[b].entity :: a == b
  }

  ghost predicate UniqueParents(media: map<Id, Media>) {
    forall a, b | a in media && b in media && media[a].parent == media[b].parent :: a == b
  }

  ghost predicate BindingsOk(bindings: map<Id, Binding>) {
    && (forall b :: b in bindings ==> 1 <= bindings[b].generation <= MAX_GENERATION)
    && OneLive(bindings) && UniqueTargets(bindings)
  }

  ghost predicate ItemsOk(bindings: map<Id, Binding>, items: map<Id, Item>) {
    && (forall k :: k in items ==> RowOk(bindings, k, items[k]))
    && UniqueEntities(items)
  }

  ghost predicate AllMediaOk(items: map<Id, Item>, media: map<Id, Media>) {
    && (forall m :: m in media ==> MediaOk(items, media[m]))
    && UniqueParents(media)
  }

  ghost predicate Inv(db: Db) {
    && BindingsOk(db.bindings)
    && ItemsOk(db.bindings, db.items)
    && AllMediaOk(db.items, db.media)
  }

  // ------------------------------------------------------- how one step evolves

  ghost predicate SameIdentity(i: Item, j: Item) {
    && i.binding == j.binding && i.entity == j.entity && i.source == j.source && i.fingerprint == j.fingerprint
    && i.admitted == j.admitted && i.deadline == j.deadline && i.created == j.created
  }

  /** An attempt is never forgotten, a withdrawal never undone, and no step but enqueue costs quota. */
  ghost predicate RowEvolves(i: Item, j: Item) {
    && SameIdentity(i, j)
    && (i.everAttempted ==> j.everAttempted)
    && (i.operation.Withdrawal? ==> j.operation.Withdrawal?)
    && (i.observationReceipt.Some? ==> j.observationReceipt == i.observationReceipt)
    && (Acknowledged(i) ==> Acknowledged(j) && j.receipt == i.receipt)
    && (Spent(i) ==> Spent(j))
    && (Spent(i) && i.terminal.Some? ==> j.terminal.Some? && i.terminal.value <= j.terminal.value)
    && Charge(j) <= Charge(i)
    && (CountsPending(j) ==> CountsPending(i))
  }

  /** A lease survives a step only unchanged; a new one carries the token that the step issued. */
  ghost predicate LeaseKept(i: Item, j: Item, token: Option<Id>) {
    j.lease.Some? ==> token == Some(j.lease.value.token) || (i.lease == j.lease && i.operation == j.operation)
  }

  ghost predicate MediaLeaseKept(m: Media, n: Media, token: Option<Id>) {
    n.lease.Some? ==> token == Some(n.lease.value.token) || (m.lease == n.lease && m.state == n.state)
  }

  ghost predicate BindingEvolves(b: Binding, d: Binding) {
    && d.scope == b.scope && d.target == b.target && d.key == b.key && d.created == b.created
    && d.generation >= b.generation
    && d.clock >= b.clock
    && (d.Live() ==> b.Live())
    && (b.state.Restored? ==> d.state.Restored?)
  }

  /** A row leaves the table only when it is spent and 31 days old. */
  ghost predicate Forgotten(b: Binding, d: Binding, i: Item) {
    Spent(i) && (b.Live() ==> i.created <= d.clock - 31 * DAY_MS)
  }

  ghost predicate BindingsEvolve(bindings: map<Id, Binding>, bindings': map<Id, Binding>) {
    forall b :: b in bindings ==> b in bindings' && BindingEvolves(bindings[b], bindings'[b])
  }

  ghost predicate ItemsEvolve(db: Db, db': Db, token: Option<Id>) {
    && (forall k :: k in db.items && k in db'.items ==>
          RowEvolves(db.items[k], db'.items[k]) && LeaseKept(db.items[k], db'.items[k], token))
    && (forall k :: k in db.items && k !in db'.items ==>
          db.items[k].binding in db.bindings && db.items[k].binding in db'.bindings
          && Forgotten(db.bindings[db.items[k].binding], db'.bindings[db.items[k].binding], db.items[k]))
    && (forall k :: k in db'.items && k !in db.items ==> db'.items[k].lease.None?)
  }

  /** Only a restore moves the instant at which a media row became terminal. */
  ghost predicate MediaRowEvolves(bindings: map<Id, Binding>, m: Media, n: Media, token: Option<Id>) {
    && n.parent == m.parent && n.binding == m.binding
    && MediaLeaseKept(m, n, token)
    && (m.terminal.Some? ==>
          n.terminal == m.terminal || (m.binding in bindings && bindings[m.binding].state.Restored?))
  }

  ghost predicate MediaEvolves(db: Db, db': Db, token: Option<Id>) {
    && (forall m :: m in db.media && m in db'.media ==>
          MediaRowEvolves(db'.bindings, db.media[m], db'.media[m], token))
    && (forall m :: m in db'.media && m !in db.media ==> db'.media[m].lease.None?)
  }

  ghost predicate Evolves(db: Db, db': Db, token: Option<Id>) {
    BindingsEvolve(db.bindings, db'.bindings) && ItemsEvolve(db, db', token) && MediaEvolves(db, db', token)
  }

  /** One good step: the invariant is kept and the rows evolve. */
  ghost predicate Good(db: Db, db': Db, token: Option<Id>) {
    Inv(db') && Evolves(db, db', token)
  }

  // ------------------------------------------------------------------- one row

  /** Every withdrawal ciphertext fits in the space each row keeps for it. */
  lemma WithdrawalFits(key: Id, context: Context, source: SourceId, r: Reason)
    ensures SealedLength(Sealed(key, context, WithdrawalBody(source, r))) <= 128 < WITHDRAWAL_RESERVE
  {
    var uuid := seq(36, _ => '0');
    assert |uuid| == 36;
    assert |ReasonText(r)| <= 20;
    assert |WithdrawalJson(uuid, r)| == 34 + |ReasonText(r)| + 36;
  }

  /** The change was made with the binding's own key and scope, at or after its clock. */
  ghost predicate ChangeFits(b: Binding, change: Change) {
    match change
    case Release => true
    case Reclaim(now) => b.clock <= now
    case Withdraw(key, scope, reason, now) => key == b.key && scope == b.scope && b.clock <= now
    case Expire(key, scope, now) => key == b.key && scope == b.scope && b.clock <= now
  }

  lemma WithdrawRowKeeps(b: Binding, k: Id, i: Item, reason: Reason, now: int)
    requires RowFits(b, k, i) && b.clock <= now
    ensures var j := WithdrawRow(b.key, b.scope, k, i, reason, now);
            RowFits(b.(clock := now), k, j) && RowEvolves(i, j) && LeaseKept(i, j, None)
            && (i.operation.Observation? ==> j.lease.None?)
            && (j.operation.Observation? ==> j.state.Cancelled? || j.state.Expired?)
  {
    var w := i.(operation := Withdrawal);
    WithdrawalFits(b.key, RowContext(b.scope, k, w), i.source, reason);
  }

  /** The binding once the change has written its clock. */
  ghost function ChangedAt(b: Binding, change: Change): Binding {
    match change
    case Release => b
    case Reclaim(now) => b.(clock := now)
    case Withdraw(_, _, _, now) => b.(clock := now)
    case Expire(_, _, now) => b.(clock := now)
  }

  lemma ChangeRowKeeps(b: Binding, k: Id, i: Item, change: Change)
    requires RowFits(b, k, i) && ChangeFits(b, change)
    ensures var j := ChangeRow(change, k, i);
            RowFits(ChangedAt(b, change), k, j) && RowEvolves(i, j) && LeaseKept(i, j, None)
            && (change.Withdraw? && j.operation.Observation? ==> j.state.Cancelled? || j.state.Expired?)
  {
    match change
    case Release =>
    case Reclaim(now) =>
    case Withdraw(key, scope, reason, now) => WithdrawRowKeeps(b, k, i, reason, now);
    case Expire(key, scope, now) => WithdrawRowKeeps(b, k, i, LocalExpired, now);
  }

  /** The binding may move on as long as it keeps or drops this row's lease with it,
      and may close once the row is no longer an observation to send. */
  lemma BindingMovesOn(b: Binding, d: Binding, k: Id, i: Item)
    requires RowFits(b, k, i) && BindingEvolves(b, d)
    requires i.state.Leased? ==> d.Live() && d.generation == b.generation
    requires b.Live() && !d.Live() && i.operation.Observation? ==> i.state.Cancelled? || i.state.Expired?
    ensures RowFits(d, k, i)
  {
  }

  lemma RestoreRowKeeps(b: Binding, k: Id, i: Item, now: int)
    requires RowFits(b, k, i)
    ensures var j := RestoreRow(i, now);
            RowFits(RestoreBinding(b, now), k, j) && RowEvolves(i, j) && LeaseKept(i, j, None)
  {
  }

  // ---------------------------------------------------------------- whole tables

  lemma RowsEvolveRefl(i: Item)
    ensures RowEvolves(i, i) && LeaseKept(i, i, None)
  {
  }

  lemma MediaFollowsParents(items: map<Id, Item>, items': map<Id, Item>, media: map<Id, Media>)
    requires AllMediaOk(items, media)
    requires forall m :: m in media ==> media[m].parent in items'
    requires forall k :: k in items && k in items' ==> RowEvolves(items[k], items'[k])
    ensures AllMediaOk(items', media)
  {
    forall m | m in media ensures MediaOk(items', media[m]) {
      assert MediaOk(items, media[m]);
      assert RowEvolves(items[media[m].parent], items'[media[m].parent]);
    }
  }

  lemma EntitiesStayUnique(items: map<Id, Item>, items': map<Id, Item>)
    requires UniqueEntities(items) && items'.Keys <= items.Keys
    requires forall k :: k in items' ==> SameIdentity(items[k], items'[k])
    ensures UniqueEntities(items')
  {
    forall a, b | a in items' && b in items' && items'[a].binding == items'[b].binding
                  && items'[a].entity == items'[b].entity
      ensures a == b
    {
      assert SameIdentity(items[a], items'[a]) && SameIdentity(items[b], items'[b]);
    }
  }

  lemma BindingsStayOk(bindings: map<Id, Binding>, bindings': map<Id, Binding>, b: Id)
    requires BindingsOk(bindings) && b in bindings && bindings'.Keys == bindings.Keys
    requires forall a :: a in bindings && a != b ==> bindings'[a] == bindings[a]
    requires BindingEvolves(bindings[b], bindings'[b]) && bindings'[b].generation <= MAX_GENERATION
    ensures BindingsOk(bindings') && BindingsEvolve(bindings, bindings')
  {
    forall a | a in bindings ensures BindingEvolves(bindings[a], bindings'[a]) {}
  }

  ghost predicate RowsStep(db: Db, db': Db, b: Id, token: Option<Id>) {
    && db'.items.Keys == db.items.Keys && b in db'.bindings
    && (forall k :: k in db.items && db.items[k].binding != b ==> db'.items[k] == db.items[k])
    && (forall k :: k in db.items && db.items[k].binding == b ==>
          RowFits(db'.bindings[b], k, db'.items[k]) && RowEvolves(db.items[k], db'.items[k])
          && LeaseKept(db.items[k], db'.items[k], token))
  }

  lemma RowStep(db: Db, db': Db, b: Id, token: Option<Id>, k: Id)
    requires ItemsOk(db.bindings, db.items) && k in db.items && RowsStep(db, db', b, token)
    requires forall a :: a in db.bindings && a != b ==> a in db'.bindings && db'.bindings[a] == db.bindings[a]
    ensures RowOk(db'.bindings, k, db'.items[k]) && RowEvolves(db.items[k], db'.items[k])
            && LeaseKept(db.items[k], db'.items[k], token)
  {
    assert RowOk(db.bindings, k, db.items[k]);
    if db.items[k].binding != b {
      RowsEvolveRefl(db.items[k]);
    }
  }

  lemma ItemsStep(db: Db, db': Db, b: Id, token: Option<Id>)
    requires ItemsOk(db.bindings, db.items) && RowsStep(db, db', b, token)
    requires forall a :: a in db.bindings && a != b ==> a in db'.bindings && db'.bindings[a] == db.bindings[a]
    ensures ItemsOk(db'.bindings, db'.items) && ItemsEvolve(db, db', token)
  {
    forall k | k in db.items
      ensures RowOk(db'.bindings, k, db'.items[k]) && SameIdentity(db.items[k], db'.items[k])
    {
      RowStep(db, db', b, token, k);
    }
    forall k | k in db.items
      ensures RowEvolves(db.items[k], db'.items[k]) && LeaseKept(db.items[k], db'.items[k], token)
    {
      RowStep(db, db', b, token, k);
    }
    EntitiesStayUnique(db.items, db'.items);
  }

  lemma MediaStays(db: Db, db': Db, token: Option<Id>)
    requires AllMediaOk(db.items, db.media) && ItemsEvolve(db, db', token)
    requires db'.media == db.media && db'.items.Keys == db.items.Keys
    ensures AllMediaOk(db'.items, db'.media) && MediaEvolves(db, db', token)
  {
    forall m | m in db.media ensures db.media[m].parent in db'.items {
      assert MediaOk(db.items, db.media[m]);
    }
    MediaFollowsParents(db.items, db'.items, db.media);
  }

  /** The common shape of a step on one binding: its rows and the binding itself move together. */
  lemma StepOnBinding(db: Db, db': Db, b: Id, token: Option<Id>)
    requires Inv(db) && b in db.bindings
    requires db'.bindings.Keys == db.bindings.Keys && db'.media == db.media
    requires forall a :: a in db.bindings && a != b ==> db'.bindings[a] == db.bindings[a]
    requires BindingEvolves(db.bindings[b], db'.bindings[b]) && db'.bindings[b].generation <= MAX_GENERATION
    requires RowsStep(db, db', b, token)
    ensures Good(db, db', token)
  {
    BindingsStayOk(db.bindings, db'.bindings, b);
    ItemsStep(db, db', b, token);
    MediaStays(db, db', token);
  }

  /** A binding that admits the call can take the clock write. */
  lemma TouchEvolves(db: Db, c: Call)
    requires Open(db, c).Ok?
    ensures var b := db.bindings[c.ref.id];
            BindingEvolves(b, b.(clock := c.now)) && b.key == c.key && b.scope == c.scope && b.clock <= c.now
  {
  }

  lemma Untouched(db: Db)
    requires Inv(db)
    ensures Good(db, db, None)
  {
    forall k | k in db.items ensures RowEvolves(db.items[k], db.items[k]) {
      RowsEvolveRefl(db.items[k]);
    }
  }

  lemma TouchKeeps(db: Db, c: Call)
    requires Inv(db) && Open(db, c).Ok?
    ensures Good(db, Touch(db, c), None)
  {
    hide RowShape, RowSealed;
    var b := db.bindings[c.ref.id];
    TouchEvolves(db, c);
    forall k | k in db.items && db.items[k].binding == c.ref.id
      ensures RowFits(b.(clock := c.now), k, db.items[k])
    {
      assert RowOk(db.bindings, k, db.items[k]);
      BindingMovesOn(b, b.(clock := c.now), k, db.items[k]);
    }
    StepOnBinding(db, Touch(db, c), c.ref.id, None);
  }

  /** One row of the caller's binding is rewritten. */
  lemma RewriteKeeps(db: Db, c: Call, id: Id, j: Item, capacity: map<Id, Reservation>, token: Option<Id>)
    requires Inv(db) && Open(db, c).Ok?
    requires id in db.items && db.items[id].binding == c.ref.id
    requires RowFits(db.bindings[c.ref.id].(clock := c.now), id, j)
    requires RowEvolves(db.items[id], j) && LeaseKept(db.items[id], j, token)
    ensures Good(db, Touch(db, c).(items := db.items[id := j], capacity := capacity), token)
  {
    var b := db.bindings[c.ref.id];
    TouchEvolves(db, c);
    var db' := Touch(db, c).(items := db.items[id := j], capacity := capacity);
    forall k | k in db.items && db.items[k].binding == c.ref.id
      ensures RowFits(db'.bindings[c.ref.id], k, db'.items[k]) && RowEvolves(db.items[k], db'.items[k])
              && LeaseKept(db.items[k], db'.items[k], token)
    {
      assert RowOk(db.bindings, k, db.items[k]);
      if k != id {
        BindingMovesOn(b, b.(clock := c.now), k, db.items[k]);
      }
    }
    StepOnBinding(db, db', c.ref.id, token);
  }

  /** The rows of one binding go through a change, and then the binding moves on. */
  lemma ChangeKeeps(db: Db, id: Id, d: Binding, change: Change)
    requires Inv(db) && id in db.bindings
    requires ChangeFits(db.bindings[id], change) && BindingEvolves(ChangedAt(db.bindings[id], change), d)
    requires d.generation <= MAX_GENERATION && (d.Live() <==> db.bindings[id].Live())
    requires change.Release? || d.generation == db.bindings[id].generation
    ensures Good(db, db.(bindings := db.bindings[id := d], items := ChangeRows(db.items, id, change)), None)
  {
    var b := db.bindings[id];
    var db' := db.(bindings := db.bindings[id := d], items := ChangeRows(db.items, id, change));
    forall k | k in db.items && db.items[k].binding == id
      ensures RowFits(d, k, db'.items[k]) && RowEvolves(db.items[k], db'.items[k])
              && LeaseKept(db.items[k], db'.items[k], None)
    {
      assert RowOk(db.bindings, k, db.items[k]);
      ChangeRowKeeps(b, k, db.items[k], change);
      BindingMovesOn(ChangedAt(b, change), d, k, ChangeRow(change, k, db.items[k]));
    }
    StepOnBinding(db, db', id, None);
  }
}
