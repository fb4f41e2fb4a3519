/** Every operation of the two queues keeps the invariant and moves each row forward. */
module OutboxSteps {
  import opened Basics
  import opened OutboxModel
  import opened MediaModel
  import opened OutboxInvariant

  // --------------------------------------------------------------- composition

  lemma Weaken(db: Db, db': Db, token: Option<Id>)
    requires Good(db, db', None)
    ensures Good(db, db', token)
  {
    forall k | k in db.items && k in db'.items ensures LeaseKept(db.items[k], db'.items[k], token) {
      assert LeaseKept(db.items[k], db'.items[k], None);
    }
    forall m | m in db.media && m in db'.media
      ensures MediaRowEvolves(db'.bindings, db.media[m], db'.media[m], token)
    {
      assert MediaRowEvolves(db'.bindings, db.media[m], db'.media[m], None);
    }
  }

  lemma RowChain(i: Item, j: Item, l: Item, token: Option<Id>)
    requires RowEvolves(i, j) && LeaseKept(i, j, None)
    requires RowEvolves(j, l) && LeaseKept(j, l, token)
    ensures RowEvolves(i, l) && LeaseKept(i, l, token)
  {
  }

  ghost predicate SameRows(db: Db, db': Db) {
    db'.items.Keys == db.items.Keys && db'.media.Keys == db.media.Keys
  }

  lemma BindingsChain(a: map<Id, Binding>, b: map<Id, Binding>, c: map<Id, Binding>)
    requires BindingsEvolve(a, b) && BindingsEvolve(b, c)
    ensures BindingsEvolve(a, c)
  {
    forall k | k in a ensures k in c && BindingEvolves(a[k], c[k]) {
      assert BindingEvolves(a[k], b[k]) && BindingEvolves(b[k], c[k]);
    }
  }

  lemma ItemsChain(db: Db, mid: Db, db': Db, token: Option<Id>)
    requires mid.items.Keys == db.items.Keys == db'.items.Keys
    requires ItemsEvolve(db, mid, None) && ItemsEvolve(mid, db', token)
    ensures ItemsEvolve(db, db', token)
  {
    forall k | k in db.items
      ensures RowEvolves(db.items[k], db'.items[k]) && LeaseKept(db.items[k], db'.items[k], token)
    {
      RowChain(db.items[k], mid.items[k], db'.items[k], token);
    }
  }

  lemma MediaChain(db: Db, mid: Db, db': Db, token: Option<Id>)
    requires mid.media.Keys == db.media.Keys == db'.media.Keys && BindingsEvolve(mid.bindings, db'.bindings)
    requires MediaEvolves(db, mid, None) && MediaEvolves(mid, db', token)
    ensures MediaEvolves(db, db', token)
  {
    forall m | m in db.media ensures MediaRowEvolves(db'.bindings, db.media[m], db'.media[m], token) {
      assert MediaRowEvolves(mid.bindings, db.media[m], mid.media[m], None);
      assert MediaRowEvolves(db'.bindings, mid.media[m], db'.media[m], token);
      if db.media[m].binding in mid.bindings {
        assert BindingEvolves(mid.bindings[db.media[m].binding], db'.bindings[db.media[m].binding]);
      }
    }
  }

  lemma GoodChain(db: Db, mid: Db, db': Db, token: Option<Id>)
    requires Good(db, mid, None) && Good(mid, db', token)
    requires SameRows(db, mid) && SameRows(mid, db')
    ensures Good(db, db', token)
  {
    BindingsChain(db.bindings, mid.bindings, db'.bindings);
    ItemsChain(db, mid, db', token);
    MediaChain(db, mid, db', token);
  }

  /** A binding that ends as `d` after two updates of its rows: it closes only behind a withdrawal. */
  ghost predicate ChangesFit(b: Binding, first: Change, d: Binding, second: Change) {
    && ChangeFits(b, first) && ChangeFits(ChangedAt(b, first), second)
    && BindingEvolves(ChangedAt(ChangedAt(b, first), second), d) && BindingEvolves(b, d)
    && (second.Release? || d.generation == b.generation)
    && ((d.Live() <==> b.Live()) || (first.Withdraw? && second.Release?))
  }

  /** Two updates over one binding's rows, in one transaction. */
  lemma TwoChanges(db: Db, id: Id, first: Change, d: Binding, second: Change)
    requires Inv(db) && id in db.bindings
    requires d.generation <= MAX_GENERATION && ChangesFit(db.bindings[id], first, d, second)
    ensures Good(db, db.(bindings := db.bindings[id := d],
                         items := ChangeRows(ChangeRows(db.items, id, first), id, second)), None)
  {
    var b := db.bindings[id];
    var db' := db.(bindings := db.bindings[id := d],
                   items := ChangeRows(ChangeRows(db.items, id, first), id, second));
    forall k | k in db.items && db.items[k].binding == id
      ensures RowFits(d, k, db'.items[k]) && RowEvolves(db.items[k], db'.items[k])
              && LeaseKept(db.items[k], db'.items[k], None)
    {
      assert RowOk(db.bindings, k, db.items[k]);
      TwoRowChanges(b, d, k, db.items[k], first, second);
    }
    OtherRowsStay(db.items, id, first, second);
    StepOnBinding(db, db', id, None);
  }

  lemma OtherRowsStay(items: map<Id, Item>, id: Id, first: Change, second: Change)
    ensures forall k :: k in items && items[k].binding != id ==>
              ChangeRows(ChangeRows(items, id, first), id, second)[k] == items[k]
  {
  }

  lemma TwoRowChanges(b: Binding, d: Binding, k: Id, i: Item, first: Change, second: Change)
    requires RowFits(b, k, i) && ChangesFit(b, first, d, second)
    ensures var l := ChangeRow(second, k, ChangeRow(first, k, i));
            ChangeRow(first, k, i).binding == i.binding
            && RowFits(d, k, l) && RowEvolves(i, l) && LeaseKept(i, l, None)
  {
    var j := ChangeRow(first, k, i);
    var c := ChangedAt(b, first);
    ChangeRowKeeps(b, k, i, first);
    ChangeRowKeeps(c, k, j, second);
    RowChain(i, j, ChangeRow(second, k, j), None);
    BindingMovesOn(ChangedAt(c, second), d, k, ChangeRow(second, k, j));
  }

  // ------------------------------------------------------------------ bindings

  lemma MoreBindings(db: Db, bindings: map<Id, Binding>)
    requires Inv(db) && BindingsOk(bindings)
    requires forall b :: b in db.bindings ==> b in bindings && bindings[b] == db.bindings[b]
    ensures Good(db, db.(bindings := bindings), None)
  {
    Untouched(db);
    forall k | k in db.items ensures RowOk(bindings, k, db.items[k]) {
      assert RowOk(db.bindings, k, db.items[k]);
    }
  }

  lemma CreateBindingKeeps(db: Db, c: Call, expected: int, target: Target)
    requires Inv(db)
    ensures Good(db, CreateBinding(db, c, expected, target).db, None)
  {
    var r := CreateBinding(db, c, expected, target);
    if r.result.Ok? {
      NewBindingOk(db.bindings, c, target);
      MoreBindings(db, r.db.bindings);
    } else {
      Untouched(db);
    }
  }

  lemma NewBindingOk(bindings: map<Id, Binding>, c: Call, target: Target)
    requires BindingsOk(bindings) && c.ref.id !in bindings
    requires !TargetTaken(bindings, target) && !HasLive(bindings, c.scope.installation)
    ensures BindingsOk(bindings[c.ref.id := Binding(c.scope, 1, target, c.key, Paused, c.now, c.now, c.now)])
  {
  }

  lemma SetPausedKeeps(db: Db, c: Call, paused: bool)
    requires Inv(db)
    ensures Good(db, SetPaused(db, c, paused).db, None)
  {
    Untouched(db);
    if Open(db, c).Ok? {
      TouchKeeps(db, c);
      var db' := SetPaused(db, c, paused).db;
      if db' != db && db' != Touch(db, c) {
        ChangeKeeps(db, c.ref.id, db'.bindings[c.ref.id], Release);
      }
    }
  }

  lemma GenerationsAreCounted(db: Db, b: Id)
    requires Inv(db) && b in db.bindings
    ensures 1 <= db.bindings[b].generation <= MAX_GENERATION
  {
  }

  lemma DisconnectKeeps(db: Db, c: Call, restored: bool)
    requires Inv(db)
    ensures Good(db, Disconnect(db, c, restored).db, None)
  {
    hide Inv, Good, ChangeRows;
    Untouched(db);
    if Open(db, c).Ok? {
      TouchKeeps(db, c);
      GenerationsAreCounted(db, c.ref.id);
      var db' := Disconnect(db, c, restored).db;
      if db' != db && db' != Touch(db, c) {
        TwoChanges(db, c.ref.id, Withdraw(c.key, c.scope, LocalExportRemoved, c.now),
                   db'.bindings[c.ref.id], Release);
      }
    }
  }

  lemma PauseRowKeeps(db: Db, binding: Id)
    requires Inv(db)
    ensures Good(db, PauseRow(db, binding).db, None)
  {
    Untouched(db);
    if binding in db.bindings && db.bindings[binding].Live() {
      ChangeKeeps(db, binding, PauseRow(db, binding).db.bindings[binding], Release);
    }
  }

  // ------------------------------------------------------------------- enqueue

  lemma NewItemFits(b: Binding, c: Call, o: MappedObservation, id: Id)
    requires ObservationError(c, o).None? && c.now < o.deadline && b.key == c.key && b.scope == c.scope && b.Live()
    ensures RowFits(b.(clock := c.now), id, NewItem(c, o, id))
  {
  }

  lemma {:induction false} InsertKeeps(db: Db, db': Db, id: Id, i: Item)
    requires Inv(db) && id !in db.items && RowOk(db.bindings, id, i) && i.lease.None?
    requires forall k :: k in db.items && db.items[k].binding == i.binding ==> db.items[k].entity != i.entity
    requires db' == db.(items := db.items[id := i])
    ensures Good(db, db', None)
  {
    hide RowFits, MediaFits, RowEvolves, BindingsOk, MediaRowEvolves;
    Untouched(db);
    forall k | k in db.items ensures RowOk(db'.bindings, k, db'.items[k]) {
      assert RowOk(db.bindings, k, db.items[k]);
    }
    forall a, b | a in db'.items && b in db'.items && db'.items[a].binding == db'.items[b].binding
                  && db'.items[a].entity == db'.items[b].entity
      ensures a == b
    {
    }
    forall m | m in db.media ensures MediaOk(db'.items, db.media[m]) {
      assert MediaOk(db.items, db.media[m]);
    }
  }

  /** The three things an enqueue can do to the tables. */
  lemma EnqueueCases(db: Db, c: Call, o: MappedObservation, id: Id)
    ensures var r := Enqueue(db, c, o, id);
            || r.db == db
            || (Open(db, c).Ok? && r.db == Touch(db, c))
            || (Open(db, c).Ok? && db.bindings[c.ref.id].state.Active?
                && ObservationError(c, o).None? && c.now < o.deadline
                && (forall k :: !IsRow(db, c.ref.id, o.entity, k))
                && QuotaError(db, c, o.body.size + SEAL_OVERHEAD).None?
                && r.result == Ok(id)
                && r.db == Touch(db, c).(items := db.items[id := NewItem(c, o, id)]))
  {
  }

  lemma AdmittedRow(mid: Db, b: Binding, c: Call, o: MappedObservation, id: Id)
    requires Inv(mid) && id !in mid.items && c.ref.id in mid.bindings && mid.bindings[c.ref.id] == b.(clock := c.now)
    requires b.key == c.key && b.scope == c.scope && b.Live()
    requires ObservationError(c, o).None? && c.now < o.deadline
    requires forall k :: !IsRow(mid, c.ref.id, o.entity, k)
    ensures Good(mid, mid.(items := mid.items[id := NewItem(c, o, id)]), None)
  {
    hide Inv, RowFits, ObservationError, Good;
    NewItemFits(b, c, o, id);
    forall k | k in mid.items && mid.items[k].binding == c.ref.id ensures mid.items[k].entity != o.entity {
      assert !IsRow(mid, c.ref.id, o.entity, k);
    }
    InsertKeeps(mid, mid.(items := mid.items[id := NewItem(c, o, id)]), id, NewItem(c, o, id));
  }

  lemma TouchShape(db: Db, c: Call)
    requires Open(db, c).Ok?
    ensures var b := db.bindings[c.ref.id];
            var mid := Touch(db, c);
            && mid.items == db.items && mid.media == db.media && SameRows(db, mid)
            && c.ref.id in mid.bindings && mid.bindings[c.ref.id] == b.(clock := c.now)
            && b.key == c.key && b.scope == c.scope
            && (forall binding, entity, k :: IsRow(mid, binding, entity, k) <==> IsRow(db, binding, entity, k))
  {
  }

  lemma GoodInv(db: Db, db': Db, token: Option<Id>)
    requires Good(db, db', token)
    ensures Inv(db')
  {
    hide Inv, Evolves;
  }

  lemma EnqueuedKeeps(db: Db, c: Call, o: MappedObservation, id: Id)
    requires Inv(db) && id !in db.items && Open(db, c).Ok? && db.bindings[c.ref.id].Live()
    requires ObservationError(c, o).None? && c.now < o.deadline
    requires forall k :: !IsRow(db, c.ref.id, o.entity, k)
    ensures Good(db, Touch(db, c).(items := db.items[id := NewItem(c, o, id)]), None)
  {
    hide Inv, Good, Touch, IsRow, NewItem, ObservationError, SameRows;
    var mid := Touch(db, c);
    TouchShape(db, c);
    TouchKeeps(db, c);
    GoodInv(db, mid, None);
    AdmittedRow(mid, db.bindings[c.ref.id], c, o, id);
    EnqueueChain(db, mid, mid.(items := db.items[id := NewItem(c, o, id)]), id);
  }

  lemma EnqueueKeeps(db: Db, c: Call, o: MappedObservation, id: Id)
    requires Inv(db) && id !in db.items
    ensures Good(db, Enqueue(db, c, o, id).db, None)
    ensures Enqueue(db, c, o, id).db.media == db.media
  {
    var db' := Enqueue(db, c, o, id).db;
    EnqueueCases(db, c, o, id);
    if db' == db {
      Untouched(db);
    } else if db' == Touch(db, c) {
      TouchKeeps(db, c);
    } else {
      EnqueuedKeeps(db, c, o, id);
    }
  }

  lemma EnqueueChain(db: Db, mid: Db, db': Db, id: Id)
    requires Good(db, mid, None) && Good(mid, db', None)
    requires SameRows(db, mid) && db'.media == mid.media
    requires id !in db.items && db'.items.Keys == db.items.Keys + {id}
    requires forall k :: k in mid.items ==> db'.items[k] == mid.items[k]
    ensures Good(db, db', None)
  {
    BindingsChain(db.bindings, mid.bindings, db'.bindings);
    MediaChain(db, mid, db', None);
    assert ItemsEvolve(db, mid, None) && ItemsEvolve(mid, db', None);
    forall k | k in db.items
      ensures RowEvolves(db.items[k], db'.items[k]) && LeaseKept(db.items[k], db'.items[k], None)
    {
      assert db'.items[k] == mid.items[k];
    }
  }

  // ------------------------------------------------- withdraw, expire and claim

  lemma WithdrawItemKeeps(db: Db, c: Call, id: Id, reason: Reason)
    requires Inv(db)
    ensures Good(db, WithdrawItem(db, c, id, reason).db, None)
  {
    Untouched(db);
    if Open(db, c).Ok? && id in db.items && db.items[id].binding == c.ref.id {
      var b := db.bindings[c.ref.id];
      assert RowOk(db.bindings, id, db.items[id]);
      TouchEvolves(db, c);
      WithdrawRowKeeps(b, id, db.items[id], reason, c.now);
      var j := WithdrawRow(c.key, c.scope, id, db.items[id], reason, c.now);
      RewriteKeeps(db, c, id, j, db.capacity, None);
    }
  }

  lemma ExpireItemsKeeps(db: Db, c: Call)
    requires Inv(db)
    ensures Good(db, ExpireItems(db, c).db, None)
  {
    Untouched(db);
    if Open(db, c).Ok? {
      var b := db.bindings[c.ref.id];
      TouchEvolves(db, c);
      var first := Expire(c.key, c.scope, c.now);
      forall k | k in db.items && db.items[k].binding == c.ref.id
        ensures RowFits(b.(clock := c.now), k, ChangeRow(first, k, db.items[k]))
                && RowEvolves(db.items[k], ChangeRow(first, k, db.items[k]))
                && LeaseKept(db.items[k], ChangeRow(first, k, db.items[k]), None)
      {
        assert RowOk(db.bindings, k, db.items[k]);
        ChangeRowKeeps(b, k, db.items[k], first);
      }
      StepOnBinding(db, ExpireItems(db, c).db, c.ref.id, None);
    }
  }

  lemma SweepKeeps(db: Db, c: Call)
    requires Inv(db) && Open(db, c).Ok? && db.bindings[c.ref.id].Live()
    ensures Good(db, Sweep(db, c), None) && SameRows(db, Sweep(db, c))
  {
    var b := db.bindings[c.ref.id];
    TouchEvolves(db, c);
    TwoChanges(db, c.ref.id, Expire(c.key, c.scope, c.now), b.(clock := c.now), Reclaim(c.now));
  }

  /** After the sweep no observation of the binding is past its deadline and still sendable. */
  lemma SweptIsFresh(db: Db, c: Call, k: Id)
    requires Inv(db) && Open(db, c).Ok? && k in db.items && db.items[k].binding == c.ref.id
    ensures var i := Sweep(db, c).items[k];
            i.binding == c.ref.id && (i.operation.Observation? && i.state.Pending? ==> c.now < i.deadline)
  {
    hide Inv, WithdrawRow;
    WithdrawnIsClosed(c.key, c.scope, k, db.items[k], c.now);
  }

  lemma WithdrawnIsClosed(key: Id, scope: Scope, k: Id, i: Item, now: int)
    ensures var j := WithdrawRow(key, scope, k, i, LocalExpired, now);
            j.binding == i.binding && (j.operation.Observation? ==> j.state.Expired?)
  {
  }

  lemma LeaseRowKeeps(b: Binding, k: Id, i: Item, token: Id, until: int)
    requires RowFits(b, k, i) && i.state.Pending? && b.Live()
    requires i.operation.Observation? ==> until <= i.deadline
    ensures var j := LeaseRow(i, token, until, b.generation);
            RowFits(b, k, j) && RowEvolves(i, j) && LeaseKept(i, j, Some(token))
  {
  }

  /** The row a claim takes, when there is one. */
  ghost predicate Takes(db: Db, c: Call, id: Id) {
    && Open(db, c).Ok? && db.bindings[c.ref.id].Live()
    && id in db.items && db.items[id].binding == c.ref.id
    && IsDue(Sweep(db, c).items[id], c.ref.id, db.bindings[c.ref.id].state, c.now)
  }

  lemma DueKeyRow(items: map<Id, Item>, binding: Id, state: BindingState, now: int)
    requires DueKeys(items, binding, state, now) != {}
    ensures var id := Least(DueKeys(items, binding, state, now)).id;
            id in items && IsDue(items[id], binding, state, now)
  {
    assert Least(DueKeys(items, binding, state, now)) in DueKeys(items, binding, state, now);
  }

  lemma TakenRowFits(db: Db, c: Call, id: Id)
    requires Inv(db) && Takes(db, c, id)
    ensures RowFits(Sweep(db, c).bindings[c.ref.id], id, Sweep(db, c).items[id])
    ensures Decodes(c.key, c.scope, id, Sweep(db, c).items[id])
  {
    var b := db.bindings[c.ref.id];
    assert RowOk(db.bindings, id, db.items[id]);
    TouchEvolves(db, c);
    TwoRowChanges(b, b.(clock := c.now), id, db.items[id], Expire(c.key, c.scope, c.now), Reclaim(c.now));
  }

  /** The tables after a claim took row `id`. */
  ghost function Claimed(db: Db, c: Call, leaseSeconds: int, token: Id, id: Id): Db
    requires c.ref.id in db.bindings && id in db.items
  {
    var swept := Sweep(db, c);
    var row := swept.items[id];
    var until := LeaseEnd(row, c.now, leaseSeconds);
    swept.(items := swept.items[id := LeaseRow(row, token, until, c.ref.generation)],
           capacity := swept.capacity[c.scope.installation := Reservation(token, until)])
  }

  /** The four things a claim can do to the tables. */
  lemma ClaimCases(db: Db, c: Call, leaseSeconds: int, token: Id)
    requires Inv(db)
    ensures var r := ClaimItem(db, c, leaseSeconds, token);
            || (r.db == db && r.result.Err?)
            || (r.result == Ok(None) && Open(db, c).Ok? && !db.bindings[c.ref.id].Live() && r.db == Touch(db, c))
            || (r.result == Ok(None) && Open(db, c).Ok? && db.bindings[c.ref.id].Live() && r.db == Sweep(db, c))
            || (r.result.Ok? && r.result.value.Some?
                && var cl := r.result.value.value;
                   && Takes(db, c, cl.id) && 1 <= leaseSeconds && !Held(db, c.scope.installation, c.now)
                   && r.db == Claimed(db, c, leaseSeconds, token, cl.id)
                   && cl.binding == c.ref && cl.token == token
                   && cl.operation == Sweep(db, c).items[cl.id].operation
                   && cl.until == LeaseEnd(Sweep(db, c).items[cl.id], c.now, leaseSeconds)
                   && cl.admitted == Sweep(db, c).items[cl.id].admitted
                   && cl.deadline == Sweep(db, c).items[cl.id].deadline)
  {
    hide Inv, Sweep, DueKeys, Decodes, LeaseRow, LeaseEnd;
    if Open(db, c).Ok? && db.bindings[c.ref.id].Live()
       && DueKeys(Sweep(db, c).items, c.ref.id, db.bindings[c.ref.id].state, c.now) != {}
    {
      var id := Least(DueKeys(Sweep(db, c).items, c.ref.id, db.bindings[c.ref.id].state, c.now)).id;
      DueKeyRow(Sweep(db, c).items, c.ref.id, db.bindings[c.ref.id].state, c.now);
      SweepKeepsPlace(db, c, id);
    }
  }

  lemma SweepKeepsPlace(db: Db, c: Call, id: Id)
    requires c.ref.id in db.bindings && id in Sweep(db, c).items
    ensures id in db.items && Sweep(db, c).items[id].binding == db.items[id].binding
  {
  }

  lemma TakenRowKeeps(db: Db, c: Call, leaseSeconds: int, token: Id, id: Id)
    requires Inv(db) && Takes(db, c, id)
    ensures var i := Sweep(db, c).items[id];
            var j := Claimed(db, c, leaseSeconds, token, id).items[id];
            RowFits(Sweep(db, c).bindings[c.ref.id], id, j) && RowEvolves(i, j) && LeaseKept(i, j, Some(token))
  {
    TakenRowFits(db, c, id);
    var row := Sweep(db, c).items[id];
    LeaseRowKeeps(Sweep(db, c).bindings[c.ref.id], id, row, token, LeaseEnd(row, c.now, leaseSeconds));
  }

  ghost predicate Clocked(mid: Db, c: Call, id: Id) {
    && Open(mid, c).Ok? && mid.bindings[c.ref.id].clock == c.now
    && id in mid.items && mid.items[id].binding == c.ref.id
  }

  lemma ClockedRewrite(mid: Db, c: Call, id: Id, j: Item, capacity: map<Id, Reservation>, token: Option<Id>)
    requires Inv(mid) && Clocked(mid, c, id)
    requires RowFits(mid.bindings[c.ref.id], id, j)
    requires RowEvolves(mid.items[id], j) && LeaseKept(mid.items[id], j, token)
    ensures Good(mid, mid.(items := mid.items[id := j], capacity := capacity), token)
  {
    assert Touch(mid, c) == mid;
    RewriteKeeps(mid, c, id, j, capacity, token);
  }

  /** A rewrite of one row after a step that already wrote the clock. */
  lemma ThenRewrite(db: Db, mid: Db, db': Db, token: Option<Id>)
    requires Good(db, mid, None) && Good(mid, db', token)
    requires db'.media == mid.media && SameRows(db, mid) && db'.items.Keys == mid.items.Keys
    ensures Good(db, db', token)
  {
    GoodChain(db, mid, db', token);
  }

  lemma RewriteAfter(db: Db, mid: Db, c: Call, id: Id, j: Item, capacity: map<Id, Reservation>, token: Option<Id>)
    requires Inv(mid) && Good(db, mid, None) && SameRows(db, mid) && Clocked(mid, c, id)
    requires RowFits(mid.bindings[c.ref.id], id, j)
    requires RowEvolves(mid.items[id], j) && LeaseKept(mid.items[id], j, token)
    ensures Good(db, mid.(items := mid.items[id := j], capacity := capacity), token)
  {
    var db' := mid.(items := mid.items[id := j], capacity := capacity);
    assert id in mid.items && c.ref.id in mid.bindings;
    assert db'.items.Keys == mid.items.Keys;
    hide *;
    ClockedRewrite(mid, c, id, j, capacity, token);
    ThenRewrite(db, mid, db', token);
  }

  lemma SweepOpens(db: Db, c: Call, id: Id)
    requires Takes(db, c, id)
    ensures Clocked(Sweep(db, c), c, id)
  {
  }

  lemma ClaimedKeeps(db: Db, c: Call, leaseSeconds: int, token: Id, id: Id)
    requires Inv(db) && Takes(db, c, id)
    ensures Good(db, Claimed(db, c, leaseSeconds, token, id), Some(token))
  {
    var db' := Claimed(db, c, leaseSeconds, token, id);
    SweepOpens(db, c, id);
    SweepKeeps(db, c);
    TakenRowKeeps(db, c, leaseSeconds, token, id);
    RewriteAfter(db, Sweep(db, c), c, id, db'.items[id], db'.capacity, Some(token));
  }

  lemma ClaimItemKeeps(db: Db, c: Call, leaseSeconds: int, token: Id)
    requires Inv(db)
    ensures Good(db, ClaimItem(db, c, leaseSeconds, token).db, Some(token))
  {
    var r := ClaimItem(db, c, leaseSeconds, token);
    ClaimCases(db, c, leaseSeconds, token);
    if r.result.Ok? && r.result.value.Some? {
      ClaimedKeeps(db, c, leaseSeconds, token, r.result.value.value.id);
    } else {
      if r.db == db {
        Untouched(db);
      } else if r.db == Touch(db, c) {
        TouchKeeps(db, c);
      } else {
        SweepKeeps(db, c);
      }
      Weaken(db, r.db, Some(token));
    }
  }

  /** No reachable row makes a claim fail on its ciphertext. */
  lemma ClaimAlwaysDecodes(db: Db, c: Call, leaseSeconds: int, token: Id)
    requires Inv(db)
    ensures ClaimItem(db, c, leaseSeconds, token).result != Err(CiphertextInvalid)
  {
    if Open(db, c).Ok? && db.bindings[c.ref.id].Live()
       && DueKeys(Sweep(db, c).items, c.ref.id, db.bindings[c.ref.id].state, c.now) != {}
    {
      DueKeyRow(Sweep(db, c).items, c.ref.id, db.bindings[c.ref.id].state, c.now);
      TakenRowFits(db, c, Least(DueKeys(Sweep(db, c).items, c.ref.id, db.bindings[c.ref.id].state, c.now)).id);
    }
  }

  // ---------------------------------------------------------------- settlement

  lemma SettleKeeps(db: Db, c: Call, claim: Claim, j: Item)
    requires Inv(db) && LeaseError(db, c, claim).None?
    requires RowFits(db.bindings[c.ref.id].(clock := c.now), claim.id, j)
    requires RowEvolves(db.items[claim.id], j) && j.lease.None?
    ensures Good(db, Settle(db, c, claim, j), None)
  {
    RewriteKeeps(db, c, claim.id, j, Free(db.capacity, c.scope.installation, claim.token), None);
  }

  /** The leased row that a settlement works on, with the clock already written. */
  lemma HeldRowFits(db: Db, c: Call, claim: Claim)
    requires Inv(db) && LeaseError(db, c, claim).None?
    ensures Open(db, c).Ok? && claim.id in db.items && Holds(db.items[claim.id], c, claim)
    ensures RowFits(db.bindings[c.ref.id].(clock := c.now), claim.id, db.items[claim.id])
    ensures RowFits(db.bindings[c.ref.id], claim.id, db.items[claim.id])
  {
    var b := db.bindings[c.ref.id];
    assert RowOk(db.bindings, claim.id, db.items[claim.id]);
    TouchEvolves(db, c);
    BindingMovesOn(b, b.(clock := c.now), claim.id, db.items[claim.id]);
  }

  lemma RetryItemKeeps(db: Db, c: Call, claim: Claim, delaySeconds: int)
    requires Inv(db)
    ensures Good(db, RetryItem(db, c, claim, delaySeconds).db, None)
  {
    Untouched(db);
    if RetryItem(db, c, claim, delaySeconds).result.Ok? {
      HeldRowFits(db, c, claim);
      SettleKeeps(db, c, claim, RetryItem(db, c, claim, delaySeconds).db.items[claim.id]);
    }
  }

  lemma AcknowledgeRowFits(b: Binding, k: Id, i: Item, token: Id, receipt: Id, now: int)
    requires RowFits(b, k, i) && i.state.Leased? && i.lease.value.until > now == b.clock
    ensures var j := AcknowledgeRow(i, token, receipt, now);
            RowFits(b, k, j) && RowEvolves(i, j) && j.lease.None?
  {
  }

  lemma AcknowledgeItemKeeps(db: Db, c: Call, claim: Claim, receipt: Id)
    requires Inv(db)
    ensures Good(db, AcknowledgeItem(db, c, claim, receipt).db, None)
  {
    Untouched(db);
    if AcknowledgeItem(db, c, claim, receipt).result.Ok? {
      TouchKeeps(db, c);
      if !Replays(db.items[claim.id], claim) {
        HeldRowFits(db, c, claim);
        AcknowledgeRowFits(db.bindings[c.ref.id].(clock := c.now), claim.id, db.items[claim.id],
                           claim.token, receipt, c.now);
        SettleKeeps(db, c, claim, AcknowledgeRow(db.items[claim.id], claim.token, receipt, c.now));
      }
    }
  }

  lemma RejectRowFits(b: Binding, c: Call, k: Id, i: Item, code: Code)
    requires RowFits(b, k, i) && i.state.Leased? && b.key == c.key && b.scope == c.scope && b.clock <= c.now
    requires !code.RequiresManagement?
    ensures var j := RejectRow(c, k, i, code);
            RowFits(b.(clock := c.now), k, j) && RowEvolves(i, j) && j.lease.None?
  {
    WithdrawRowKeeps(b, k, i, LocalExportRemoved, c.now);
  }

  lemma RejectItemKeeps(db: Db, c: Call, claim: Claim, code: Code)
    requires Inv(db)
    ensures Good(db, RejectItem(db, c, claim, code).db, None)
  {
    Untouched(db);
    if RejectItem(db, c, claim, code).result.Ok? {
      HeldRowFits(db, c, claim);
      TouchEvolves(db, c);
      RejectRowFits(db.bindings[c.ref.id], c, claim.id, db.items[claim.id], code);
      SettleKeeps(db, c, claim, RejectRow(c, claim.id, db.items[claim.id], code));
    }
  }

  // ----------------------------------------------------------- prune and restore

  lemma PruneSetIsPrunable(db: Db, c: Call, limit: nat, k: Id)
    requires k in PruneSet(db, c, limit)
    ensures k in db.items && Prunable(db.items[k], c.ref.id, c.now - 31 * DAY_MS)
  {
  }

  lemma DeleteKeeps(db: Db, c: Call, doomed: set<Id>)
    requires Inv(db) && Open(db, c).Ok?
    requires forall k :: k in doomed ==> k in db.items && Prunable(db.items[k], c.ref.id, c.now - 31 * DAY_MS)
    requires forall k :: k in doomed ==> !Referenced(db, k)
    ensures Good(db, Touch(db, c).(items := db.items - doomed), None)
  {
    var db' := Touch(db, c).(items := db.items - doomed);
    TouchKeeps(db, c);
    assert ItemsEvolve(db, Touch(db, c), None);
    forall k | k in db'.items ensures RowOk(db'.bindings, k, db'.items[k]) {
      assert RowOk(Touch(db, c).bindings, k, db.items[k]);
    }
    forall k | k in db.items && k !in db'.items
      ensures db.items[k].binding == c.ref.id
              && Forgotten(db.bindings[c.ref.id], db'.bindings[c.ref.id], db.items[k])
    {
      assert RowOk(db.bindings, k, db.items[k]);
    }
    forall m | m in db.media ensures db.media[m].parent in db'.items {
      assert MediaOk(db.items, db.media[m]);
      assert Referenced(db, db.media[m].parent);
    }
    MediaFollowsParents(db.items, db'.items, db.media);
  }

  lemma PruneTerminalKeeps(db: Db, c: Call, limit: int)
    requires Inv(db)
    ensures Good(db, PruneTerminal(db, c, limit).db, None)
  {
    Untouched(db);
    if PruneTerminal(db, c, limit).result.Ok? {
      forall k | k in PruneSet(db, c, limit)
        ensures k in db.items && Prunable(db.items[k], c.ref.id, c.now - 31 * DAY_MS)
      {
        PruneSetIsPrunable(db, c, limit, k);
      }
      DeleteKeeps(db, c, PruneSet(db, c, limit));
    }
  }

  lemma RestoreMediaKeeps(p: Item, m: Media, now: int)
    requires RowShape(p) && MediaFits(p, m)
    ensures MediaFits(RestoreRow(p, now), RestoreMedia(m, now))
    ensures RestoreMedia(m, now).parent == m.parent && RestoreMedia(m, now).binding == m.binding
    ensures MediaLeaseKept(m, RestoreMedia(m, now), None)
  {
  }

  lemma RestoreItems(db: Db, now: int)
    requires Inv(db) && MarkRestored(db, now).result.Ok?
    ensures ItemsOk(MarkRestored(db, now).db.bindings, MarkRestored(db, now).db.items)
    ensures ItemsEvolve(db, MarkRestored(db, now).db, None)
  {
    var db' := MarkRestored(db, now).db;
    forall k | k in db.items
      ensures RowOk(db'.bindings, k, db'.items[k]) && RowEvolves(db.items[k], db'.items[k])
              && LeaseKept(db.items[k], db'.items[k], None)
    {
      assert RowOk(db.bindings, k, db.items[k]);
      RestoreRowKeeps(db.bindings[db.items[k].binding], k, db.items[k], now);
    }
    EntitiesStayUnique(db.items, db'.items);
  }

  lemma RestoredMediaRow(db: Db, now: int, m: Id)
    requires Inv(db) && MarkRestored(db, now).result.Ok? && m in db.media
    ensures var db' := MarkRestored(db, now).db;
            MediaOk(db'.items, db'.media[m]) && MediaRowEvolves(db'.bindings, db.media[m], db'.media[m], None)
  {
    hide Inv, RestoreRow, RestoreMedia, MediaFits, MediaLeaseKept, RowShape;
    var p := db.media[m].parent;
    ParentShape(db, m);
    RestoreMediaKeeps(db.items[p], db.media[m], now);
  }

  lemma ParentShape(db: Db, m: Id)
    requires Inv(db) && m in db.media
    ensures MediaOk(db.items, db.media[m]) && RowShape(db.items[db.media[m].parent])
    ensures db.items[db.media[m].parent].binding == db.media[m].binding && db.media[m].binding in db.bindings
  {
    assert MediaOk(db.items, db.media[m]);
    assert RowOk(db.bindings, db.media[m].parent, db.items[db.media[m].parent]);
  }

  lemma RestoreAllMedia(db: Db, now: int)
    requires Inv(db) && MarkRestored(db, now).result.Ok?
    ensures AllMediaOk(MarkRestored(db, now).db.items, MarkRestored(db, now).db.media)
    ensures MediaEvolves(db, MarkRestored(db, now).db, None)
  {
    hide MediaOk, RestoreRow, RestoreMedia, RestoreBinding, ItemsOk, BindingsOk, MediaLeaseKept;
    var db' := MarkRestored(db, now).db;
    assert db'.media.Keys == db.media.Keys;
    forall m | m in db.media
      ensures MediaOk(db'.items, db'.media[m]) && MediaRowEvolves(db'.bindings, db.media[m], db'.media[m], None)
    {
      RestoredMediaRow(db, now, m);
    }
    ParentsStayUnique(db.media, db'.media);
  }

  lemma ParentsStayUnique(media: map<Id, Media>, media': map<Id, Media>)
    requires UniqueParents(media) && media'.Keys <= media.Keys
    requires forall m :: m in media' ==> media'[m].parent == media[m].parent
    ensures UniqueParents(media')
  {
  }

  lemma RestoreBindings(db: Db, now: int)
    requires BindingsOk(db.bindings) && MarkRestored(db, now).result.Ok?
    ensures BindingsOk(MarkRestored(db, now).db.bindings)
    ensures BindingsEvolve(db.bindings, MarkRestored(db, now).db.bindings)
  {
  }

  lemma MarkRestoredKeeps(db: Db, now: int)
    requires Inv(db)
    ensures Good(db, MarkRestored(db, now).db, None)
  {
    if MarkRestored(db, now).result.Ok? {
      RestoreBindings(db, now);
      RestoreItems(db, now);
      RestoreAllMedia(db, now);
    } else {
      Untouched(db);
    }
  }
}
