/** The tables as mutable state, and the outbox as the program has it: an object
    whose methods read and rewrite rows in the caller's transaction, one statement
    at a time. Each method is proved against its step of `OutboxModel`. */
module OutboxDatabase {
  import opened Basics
  import opened OutboxModel
  import opened OutboxInvariant
  import opened OutboxSteps
  import opened OutboxHistory

  class Database {
    var bindings: map<Id, Binding>
    var items: map<Id, Item>
    var capacity: map<Id, Reservation>
    var media: map<Id, Media>

    constructor ()
      ensures Tables() == Db(map[], map[], map[], map[])
    {
      bindings, items, capacity, media := map[], map[], map[], map[];
    }

    function Tables(): Db
      reads this
    {
      Db(bindings, items, capacity, media)
    }

    ghost predicate Valid()
      reads this
    {
      Inv(Tables())
    }

    /** Undoes everything written since the savepoint. */
    method RollBack(savepoint: Db)
      modifies this
      ensures Tables() == savepoint
    {
      bindings, items, capacity, media := savepoint.bindings, savepoint.items, savepoint.capacity, savepoint.media;
    }
  }

  /** The rows of one binding, of which those not in `todo` have been through the change. */
  ghost predicate ChangedSoFar(before: map<Id, Item>, items: map<Id, Item>, selected: set<Id>, todo: set<Id>,
                               change: Change) {
    && items.Keys == before.Keys
    && (forall k :: k in items ==>
          items[k] == if k in selected && k !in todo then ChangeRow(change, k, before[k]) else before[k])
  }

  /** The number of the selected rows, the bytes they are charged and how many of them wait. */
  method Usage(bindings: map<Id, Binding>, items: map<Id, Item>, sel: Selector)
    returns (records: nat, waiting: nat, bytes: nat)
    ensures records == |Records(bindings, items, sel)|
    ensures waiting == |Waiting(bindings, items, sel)|
    ensures bytes == Sum(Charges(bindings, items, sel))
  {
    hide Selected, Charge, CountsPending, Records, Waiting, Charges, Sum;
    records, waiting, bytes := 0, 0, 0;
    var todo := items;
    ghost var seen: map<Id, Item> := map[];
    NothingSeen(bindings, sel);
    while todo != map[]
      invariant todo.Keys <= items.Keys && seen.Keys == items.Keys - todo.Keys
      invariant forall k :: k in todo ==> todo[k] == items[k]
      invariant forall k :: k in seen ==> seen[k] == items[k]
      invariant records == |Records(bindings, seen, sel)|
      invariant waiting == |Waiting(bindings, seen, sel)|
      invariant bytes == Sum(Charges(bindings, seen, sel))
      decreases |todo|
    {
      var k :| k in todo;
      var i := todo[k];
      if Selected(bindings, sel, i) {
        records := records + 1;
        waiting := waiting + if CountsPending(i) then 1 else 0;
        bytes := bytes + Charge(i);
      }
      OneMoreRecord(bindings, bindings, seen, k, i, sel);
      OneMoreWaiting(bindings, bindings, seen, k, i, sel);
      OneMoreCharge(bindings, bindings, seen, k, i, sel);
      seen := seen[k := i];
      todo := todo - {k};
    }
    assert seen == items;
  }

  lemma NothingSeen(bindings: map<Id, Binding>, sel: Selector)
    ensures Records(bindings, map[], sel) == {} && Waiting(bindings, map[], sel) == {}
    ensures Charges(bindings, map[], sel) == map[] && Sum(map[]) == 0
  {
    hide Selected, Charge, CountsPending;
  }

  class Outbox {
    const key: Id
    const limits: Limits

    constructor (key: Id, limits: Limits)
      ensures this.key == key && this.limits == limits
    {
      this.key, this.limits := key, limits;
    }

    function CallOf(scope: Scope, ref: Ref, now: int): Call {
      Call(key, limits, scope, ref, now)
    }

    /** The checks in front of every operation; the clock is written once they pass. */
    method CheckBinding(conn: Database, scope: Scope, ref: Ref, now: int) returns (r: Result<Binding, Error>)
      modifies conn`bindings
      ensures r == Open(old(conn.Tables()), CallOf(scope, ref, now))
      ensures conn.Tables() == if r.Ok? then Touch(old(conn.Tables()), CallOf(scope, ref, now)) else old(conn.Tables())
    {
      if !ValidClock(now) {
        return Err(InvalidClock);
      }
      if ref.id !in conn.bindings || conn.bindings[ref.id].scope != scope {
        return Err(NotFound);
      }
      var row := conn.bindings[ref.id];
      if row.generation != ref.generation {
        return Err(StaleGeneration);
      }
      if row.key != key {
        return Err(KeyUnavailable);
      }
      if now < row.clock {
        return Err(ClockRollback);
      }
      conn.bindings := conn.bindings[ref.id := row.(clock := now)];
      return Ok(row);
    }

    method CreateBinding(conn: Database, scope: Scope, id: Id, expected: int, target: Target, now: int)
      returns (r: Result<Ref, Error>)
      requires conn.Valid()
      modifies conn
      ensures Step(conn.Tables(), r)
           == OutboxModel.CreateBinding(old(conn.Tables()), CallOf(scope, Ref(id, 1), now), expected, target)
      ensures conn.Valid()
    {
      hide Inv;
      ghost var c := CallOf(scope, Ref(id, 1), now);
      CreateBindingKeeps(conn.Tables(), c, expected, target);
      GoodInv(conn.Tables(), OutboxModel.CreateBinding(conn.Tables(), c, expected, target).db, None);
      if expected != 0 {
        return Err(InvalidBinding);
      }
      if !ValidClock(now) {
        return Err(InvalidClock);
      }
      if id in conn.bindings {
        return Err(BindingExists);
      }
      if |BindingsOf(conn.bindings, scope.installation)| >= limits.bindingsPerInstallation {
        return Err(BindingLimit);
      }
      if TargetTaken(conn.bindings, target) || HasLive(conn.bindings, scope.installation) {
        return Err(BindingConflict);
      }
      conn.bindings := conn.bindings[id := Binding(scope, 1, target, key, Paused, now, now, now)];
      label Inserted:
      var view := CheckBinding(conn, scope, Ref(id, 1), now);
      assert Touch(old@Inserted(conn.Tables()), c) == old@Inserted(conn.Tables());
      return Ok(Ref(id, 1));
    }

    /** Gives every leased row of the binding back to the queue. */
    method Release(conn: Database, binding: Id)
      modifies conn`items
      ensures conn.items == ChangeRows(old(conn.items), binding, Change.Release)
    {
      conn.items := map k | k in conn.items ::
        if conn.items[k].binding == binding && conn.items[k].state.Leased?
        then conn.items[k].(state := Pending, lease := None) else conn.items[k];
    }

    method SetPaused(conn: Database, scope: Scope, ref: Ref, paused: bool, now: int) returns (r: Result<Ref, Error>)
      requires conn.Valid()
      modifies conn
      ensures Step(conn.Tables(), r) == OutboxModel.SetPaused(old(conn.Tables()), CallOf(scope, ref, now), paused)
      ensures conn.Valid()
    {
      hide Inv, ChangeRows, Good;
      ghost var c := CallOf(scope, ref, now);
      SetPausedKeeps(conn.Tables(), c, paused);
      GoodInv(conn.Tables(), OutboxModel.SetPaused(conn.Tables(), c, paused).db, None);
      var savepoint := conn.Tables();
      var checked := CheckBinding(conn, scope, ref, now);
      if checked.Err? {
        return Err(checked.error);
      }
      var binding := checked.value;
      if !binding.Live() {
        conn.RollBack(savepoint);
        return Err(BindingDisconnected);
      }
      var state := if paused then Paused else Active;
      if binding.state == state {
        return Ok(ref);
      }
      if ref.generation == MAX_GENERATION {
        conn.RollBack(savepoint);
        return Err(GenerationExhausted);
      }
      var row := conn.bindings[ref.id];
      conn.bindings := conn.bindings[ref.id :=
        row.(state := state, generation := row.generation + 1, activated := if paused then binding.activated else now)];
      Release(conn, ref.id);
      ghost var turned := conn.Tables();
      var view := CheckBinding(conn, scope, Ref(ref.id, ref.generation + 1), now);
      assert view.Ok? && conn.Tables() == turned;
      return Ok(Ref(ref.id, ref.generation + 1));
    }

    /** Withdraws one row: erased if it was never sent, else an obligation with its own ciphertext,
        which always fits the reserve that enqueue kept for it. */
    method WithdrawOne(conn: Database, scope: Scope, id: Id, reason: Reason, now: int)
      requires id in conn.items
      modifies conn`items
      ensures conn.items == old(conn.items)[id := WithdrawRow(key, scope, id, old(conn.items)[id], reason, now)]
    {
      var row := conn.items[id];
      if row.operation.Withdrawal? {
        assert conn.items == conn.items[id := row];
        return;
      }
      if !row.everAttempted {
        conn.items := conn.items[id :=
          row.(state := if reason.LocalExpired? then Expired else Cancelled, payload := None, lease := None,
               terminal := Some(now))];
        return;
      }
      var body := WithdrawalBody(row.source, reason);
      var encrypted := Sealed(key, Context(scope, row.binding, id, Withdrawal, row.admitted, row.deadline), body);
      WithdrawalFits(key, encrypted.context, row.source, reason);
      assert SealedLength(encrypted) <= WITHDRAWAL_RESERVE;
      conn.items := conn.items[id :=
        row.(operation := Withdrawal, state := Pending, payload := Some(encrypted), digest := Some(body), next := now,
             reason := Some(reason), lease := None, settled := None, terminal := None)];
    }

    method Withdraw(conn: Database, scope: Scope, ref: Ref, id: Id, reason: Reason, now: int) returns (r: Result<(),
                    Error>)
      requires conn.Valid()
      modifies conn
      ensures Step(conn.Tables(), r) == WithdrawItem(old(conn.Tables()), CallOf(scope, ref, now), id, reason)
      ensures conn.Valid()
    {
      hide Inv, WithdrawRow, Good;
      ghost var c := CallOf(scope, ref, now);
      WithdrawItemKeeps(conn.Tables(), c, id, reason);
      GoodInv(conn.Tables(), WithdrawItem(conn.Tables(), c, id, reason).db, None);
      var savepoint := conn.Tables();
      var checked := CheckBinding(conn, scope, ref, now);
      if checked.Err? {
        return Err(checked.error);
      }
      if id !in conn.items || conn.items[id].binding != ref.id {
        conn.RollBack(savepoint);
        return Err(NotFound);
      }
      WithdrawOne(conn, scope, id, reason, now);
      return Ok(());
    }

    /** Withdraws every selected row, one after the other. */
    method WithdrawAll(conn: Database, scope: Scope, rows: set<Id>, reason: Reason, now: int)
      requires rows <= conn.items.Keys
      modifies conn`items
      ensures ChangedSoFar(old(conn.items), conn.items, rows, {}, Change.Withdraw(key, scope, reason, now))
    {
      hide WithdrawRow;
      ghost var change := Change.Withdraw(key, scope, reason, now);
      var todo := rows;
      while todo != {}
        invariant todo <= rows && rows <= conn.items.Keys
        invariant ChangedSoFar(old(conn.items), conn.items, rows, todo, change)
        decreases |todo|
      {
        var id :| id in todo;
        WithdrawOne(conn, scope, id, reason, now);
        todo := todo - {id};
      }
    }

    method ExpireDue(conn: Database, scope: Scope, ref: Ref, now: int)
      modifies conn`items
      ensures conn.items == ChangeRows(old(conn.items), ref.id, Change.Expire(key, scope, now))
    {
      hide WithdrawRow;
      var rows := set k | k in conn.items && conn.items[k].binding == ref.id && conn.items[k].operation.Observation?
                          && conn.items[k].deadline <= now && !conn.items[k].state.Expired? && !conn.items[k].state.Cancelled?;
      WithdrawAll(conn, scope, rows, LocalExpired, now);
    }

    method Expire(conn: Database, scope: Scope, ref: Ref, now: int) returns (r: Result<(), Error>)
      requires conn.Valid()
      modifies conn
      ensures Step(conn.Tables(), r) == ExpireItems(old(conn.Tables()), CallOf(scope, ref, now))
      ensures conn.Valid()
    {
      hide Inv, ChangeRows, Good;
      ghost var c := CallOf(scope, ref, now);
      ExpireItemsKeeps(conn.Tables(), c);
      GoodInv(conn.Tables(), ExpireItems(conn.Tables(), c).db, None);
      var checked := CheckBinding(conn, scope, ref, now);
      if checked.Err? {
        return Err(checked.error);
      }
      ExpireDue(conn, scope, ref, now);
      return Ok(());
    }

    method Disconnect(conn: Database, scope: Scope, ref: Ref, restored: bool, now: int) returns (r: Result<Ref, Error>)
      requires conn.Valid()
      modifies conn
      ensures Step(conn.Tables(), r) == OutboxModel.Disconnect(old(conn.Tables()), CallOf(scope, ref, now), restored)
      ensures conn.Valid()
    {
      hide Inv, ChangeRows, ChangedSoFar, Good;
      ghost var c := CallOf(scope, ref, now);
      DisconnectKeeps(conn.Tables(), c, restored);
      GoodInv(conn.Tables(), OutboxModel.Disconnect(conn.Tables(), c, restored).db, None);
      var savepoint := conn.Tables();
      var checked := CheckBinding(conn, scope, ref, now);
      if checked.Err? {
        return Err(checked.error);
      }
      var binding := checked.value;
      if !binding.Live() {
        return Ok(ref);
      }
      if ref.generation == MAX_GENERATION {
        conn.RollBack(savepoint);
        return Err(GenerationExhausted);
      }
      var rows := set k | k in conn.items && conn.items[k].binding == ref.id;
      WithdrawAll(conn, scope, rows, LocalExportRemoved, now);
      AllChanged(old(conn.items), conn.items, rows, ref.id, Change.Withdraw(key, scope, LocalExportRemoved, now));
      Release(conn, ref.id);
      var row := conn.bindings[ref.id];
      conn.bindings := conn.bindings[ref.id :=
        row.(state := if restored then Restored else Disconnected, generation := row.generation + 1)];
      ghost var closed := conn.Tables();
      var view := CheckBinding(conn, scope, Ref(ref.id, ref.generation + 1), now);
      assert view.Ok? && conn.Tables() == closed;
      return Ok(Ref(ref.id, ref.generation + 1));
    }

    // ------------------------------------------------------------------ enqueue

    method Quota(conn: Database, scope: Scope, ref: Ref, now: int, size: nat) returns (refusal: Option<Error>)
      ensures refusal == QuotaError(conn.Tables(), CallOf(scope, ref, now), size)
    {
      hide Records, Waiting, Charges, Sum, CreatedSince;
      var records, waiting, bytes := Usage(conn.bindings, conn.items, OfBinding(ref.id));
      if records >= limits.recordsPerBinding || waiting >= limits.pendingPerBinding
         || bytes + Max(size, WITHDRAWAL_RESERVE) > limits.bytesPerBinding {
        return Some(QueueLimit);
      }
      records, waiting, bytes := Usage(conn.bindings, conn.items, OfInstallation(scope.installation));
      if records >= limits.recordsPerInstallation || waiting >= limits.pendingPerInstallation
         || bytes + Max(size, WITHDRAWAL_RESERVE) > limits.bytesPerInstallation {
        return Some(QueueLimit);
      }
      if |CreatedSince(conn.items, ref.id, now - DAY_MS)| >= limits.dailyPerBinding {
        return Some(DailyLimit);
      }
      return None;
    }

    method Enqueue(conn: Database, scope: Scope, ref: Ref, o: MappedObservation, now: int, id: Id)
      returns (r: Result<Id, Error>)
      requires conn.Valid() && id !in conn.items
      modifies conn
      ensures Step(conn.Tables(), r) == OutboxModel.Enqueue(old(conn.Tables()), CallOf(scope, ref, now), o, id)
      ensures conn.Valid()
    {
      hide ItemsOk, BindingsOk, AllMediaOk, QuotaError, ObservationError, Good, Inv;
      ghost var c := CallOf(scope, ref, now);
      ghost var before := conn.Tables();
      EnqueueKeeps(before, c, o, id);
      GoodInv(before, OutboxModel.Enqueue(before, c, o, id).db, None);
      OneRowPerEntity(before, ref.id, o.entity);
      var savepoint := conn.Tables();
      var checked := CheckBinding(conn, scope, ref, now);
      if checked.Err? {
        return Err(checked.error);
      }
      var binding := checked.value;
      if !binding.state.Active? {
        conn.RollBack(savepoint);
        return Err(BindingNotActive);
      }
      var refusal := ObservationError(CallOf(scope, ref, now), o);
      if refusal.Some? {
        conn.RollBack(savepoint);
        return Err(refusal.value);
      }
      var same := set k | k in conn.items && conn.items[k].binding == ref.id && conn.items[k].entity == o.entity;
      assert forall k :: k in same <==> IsRow(before, ref.id, o.entity, k);
      if same != {} {
        var k :| k in same;
        if conn.items[k].fingerprint != (o.body, o.deadline) || conn.items[k].admitted != o.admitted {
          conn.RollBack(savepoint);
          return Err(ObservationConflict);
        }
        return Ok(k);
      }
      if o.admitted < binding.activated {
        conn.RollBack(savepoint);
        return Err(StaleAdmission);
      }
      if now >= o.deadline {
        conn.RollBack(savepoint);
        return Err(ObservationExpired);
      }
      ObservationHasBody(c, o);
      var full := Quota(conn, scope, ref, now, o.body.size + SEAL_OVERHEAD);
      QuotaReadsNoClock(before, c, o.body.size + SEAL_OVERHEAD);
      if full.Some? {
        conn.RollBack(savepoint);
        return Err(full.value);
      }
      conn.items := conn.items[id := NewItem(CallOf(scope, ref, now), o, id)];
      return Ok(id);
    }

    // -------------------------------------------------------------------- claim

    method Claim(conn: Database, scope: Scope, ref: Ref, now: int, leaseSeconds: int, token: Id)
      returns (r: Result<Option<Claim>, Error>)
      modifies conn
      ensures Step(conn.Tables(), r) == ClaimItem(old(conn.Tables()), CallOf(scope, ref, now), leaseSeconds, token)
      ensures old(conn.Valid()) ==> conn.Valid() && r != Err(CiphertextInvalid)
    {
      hide Inv, ChangeRow, Decodes, Good, Sweep, DueKeys;
      ghost var c := CallOf(scope, ref, now);
      ghost var before := conn.Tables();
      ClaimKeepsValid(before, c, leaseSeconds, token);
      var savepoint := conn.Tables();
      var checked := CheckBinding(conn, scope, ref, now);
      if checked.Err? {
        return Err(checked.error);
      }
      var binding := checked.value;
      if !(1 <= leaseSeconds <= 60) {
        conn.RollBack(savepoint);
        return Err(InvalidLease);
      }
      if !binding.Live() {
        return Ok(None);
      }
      TouchThenSweep(before, c);
      ExpireDue(conn, scope, ref, now);
      Reclaim(conn, ref.id, now);
      assert conn.Tables() == Sweep(before, c);
      if Held(conn.Tables(), scope.installation, now) {
        return Ok(None);
      }
      var selected := NextDue(conn, ref.id, binding.state, now);
      if selected.None? {
        return Ok(None);
      }
      var id := selected.value;
      var row := conn.items[id];
      if !Decodes(key, scope, id, row) {
        conn.RollBack(savepoint);
        return Err(CiphertextInvalid);
      }
      DecodedHasPayload(key, scope, id, row);
      var until := now + leaseSeconds * 1000;
      if row.operation.Observation? {
        until := Min(until, row.deadline);
      }
      conn.items := conn.items[id :=
        row.(state := Leased, lease := Some(Lease(token, until, ref.generation)), everAttempted := true,
             attempts := Min(row.attempts + 1, MAX_ATTEMPTS))];
      conn.capacity := conn.capacity[scope.installation := Reservation(token, until)];
      return Ok(Some(OutboxModel.Claim.Claim(id, ref, token, row.operation, row.source, row.payload.value.body,
                           until, row.admitted, row.deadline)));
    }

    /** The row that goes next: withdrawals before observations, then the oldest. */
    method NextDue(conn: Database, binding: Id, state: BindingState, now: int) returns (id: Option<Id>)
      ensures var due := DueKeys(conn.items, binding, state, now);
              id == if due == {} then None else Some(Least(due).id)
      ensures id.Some? ==> id.value in conn.items
    {
      var due := DueKeys(conn.items, binding, state, now);
      var page := OrderBy(due, 1);
      if page == [] {
        return None;
      }
      FirstOfPage(due, page);
      return Some(page[0].id);
    }

    /** Gives overdue leases back to the queue. */
    method Reclaim(conn: Database, binding: Id, now: int)
      modifies conn`items
      ensures conn.items == ChangeRows(old(conn.items), binding, Change.Reclaim(now))
    {
      conn.items := map k | k in conn.items ::
        if conn.items[k].binding == binding && conn.items[k].state.Leased?
           && conn.items[k].lease.Some? && conn.items[k].lease.value.until <= now
        then conn.items[k].(state := Pending, lease := None) else conn.items[k];
    }

    // --------------------------------------------------------------- settlement

    /** The fence: the binding is checked again, then the row must still be this claim's. */
    method CheckLease(conn: Database, scope: Scope, ref: Ref, claim: Claim, now: int) returns (r: Result<Item, Error>)
      modifies conn`bindings
      ensures var fence := LeaseError(old(conn.Tables()), CallOf(scope, ref, now), claim);
              r == if fence.Some? then Err(fence.value) else Ok(old(conn.items)[claim.id])
      ensures r.Ok? ==> ref.id in old(conn.bindings) && conn.Tables() == Touch(old(conn.Tables()), CallOf(scope, ref, now))
    {
      var checked := CheckBinding(conn, scope, ref, now);
      if checked.Err? {
        return Err(checked.error);
      }
      if claim.binding != ref || !checked.value.Live() {
        return Err(StaleLease);
      }
      if claim.id !in conn.items || conn.items[claim.id].binding != ref.id {
        return Err(NotFound);
      }
      var row := conn.items[claim.id];
      if !(row.state.Leased? && row.lease.Some?) || row.lease.value.token != claim.token
         || row.lease.value.generation != ref.generation || row.lease.value.until <= now
         || row.operation != claim.operation {
        return Err(StaleLease);
      }
      return Ok(row);
    }

    method FreeCapacity(conn: Database, installation: Id, token: Id)
      modifies conn`capacity
      ensures conn.capacity == Free(old(conn.capacity), installation, token)
    {
      if installation in conn.capacity && conn.capacity[installation].token == token {
        conn.capacity := conn.capacity - {installation};
      }
    }

    method Retry(conn: Database, scope: Scope, ref: Ref, claim: Claim, delaySeconds: int, now: int)
      returns (r: Result<(), Error>)
      requires conn.Valid()
      modifies conn
      ensures Step(conn.Tables(), r) == RetryItem(old(conn.Tables()), CallOf(scope, ref, now), claim, delaySeconds)
      ensures conn.Valid()
    {
      hide Inv, LeaseError, Good;
      ghost var c := CallOf(scope, ref, now);
      RetryItemKeeps(conn.Tables(), c, claim, delaySeconds);
      GoodInv(conn.Tables(), RetryItem(conn.Tables(), c, claim, delaySeconds).db, None);
      var savepoint := conn.Tables();
      var lease := CheckLease(conn, scope, ref, claim, now);
      if lease.Err? {
        conn.RollBack(savepoint);
        return Err(lease.error);
      }
      if !(1 <= delaySeconds <= 3600) {
        conn.RollBack(savepoint);
        return Err(InvalidBackoff);
      }
      conn.items := conn.items[claim.id :=
        lease.value.(state := Pending, next := now + delaySeconds * 1000, lease := None, error := Some(RetryLater))];
      FreeCapacity(conn, scope.installation, claim.token);
      return Ok(());
    }

    method Acknowledge(conn: Database, scope: Scope, ref: Ref, claim: Claim, receipt: Id, now: int)
      returns (r: Result<(), Error>)
      requires conn.Valid()
      modifies conn
      ensures Step(conn.Tables(), r) == AcknowledgeItem(old(conn.Tables()), CallOf(scope, ref, now), claim, receipt)
      ensures conn.Valid()
    {
      hide Inv, LeaseError, Good, Free;
      ghost var c := CallOf(scope, ref, now);
      AcknowledgeItemKeeps(conn.Tables(), c, claim, receipt);
      GoodInv(conn.Tables(), AcknowledgeItem(conn.Tables(), c, claim, receipt).db, None);
      var savepoint := conn.Tables();
      var checked := CheckBinding(conn, scope, ref, now);
      if checked.Err? {
        return Err(checked.error);
      }
      if claim.binding != ref {
        conn.RollBack(savepoint);
        return Err(StaleLease);
      }
      if claim.id !in conn.items || conn.items[claim.id].binding != ref.id {
        conn.RollBack(savepoint);
        return Err(NotFound);
      }
      var row := conn.items[claim.id];
      if (row.state.Received? || row.state.Withdrawn?) && row.settled == Some(claim.token) {
        if row.receipt != Some(receipt) {
          conn.RollBack(savepoint);
          return Err(ReceiptConflict);
        }
        return Ok(());
      }
      SecondCheck(savepoint, c, claim);
      var lease := CheckLease(conn, scope, ref, claim, now);
      if lease.Err? {
        conn.RollBack(savepoint);
        return Err(lease.error);
      }
      conn.items := conn.items[claim.id :=
        row.(state := if row.operation.Observation? then Received else Withdrawn, payload := None,
             receipt := Some(receipt), receiptAt := Some(now), settled := Some(claim.token), terminal := Some(now),
             lease := None, error := None)];
      if row.operation.Observation? {
        conn.items := conn.items[claim.id := conn.items[claim.id].(observationReceipt := Some(receipt))];
      }
      assert conn.items == savepoint.items[claim.id := AcknowledgeRow(row, claim.token, receipt, now)];
      FreeCapacity(conn, scope.installation, claim.token);
      return Ok(());
    }

    method Reject(conn: Database, scope: Scope, ref: Ref, claim: Claim, code: Code, now: int)
      returns (r: Result<(), Error>)
      requires conn.Valid()
      modifies conn
      ensures Step(conn.Tables(), r) == RejectItem(old(conn.Tables()), CallOf(scope, ref, now), claim, code)
      ensures conn.Valid()
    {
      hide Inv, WithdrawRow, Good;
      ghost var c := CallOf(scope, ref, now);
      RejectItemKeeps(conn.Tables(), c, claim, code);
      GoodInv(conn.Tables(), RejectItem(conn.Tables(), c, claim, code).db, None);
      var savepoint := conn.Tables();
      var lease := CheckLease(conn, scope, ref, claim, now);
      if lease.Err? {
        conn.RollBack(savepoint);
        return Err(lease.error);
      }
      if !(code.RemoteRejected? || code.RemoteConflict? || code.LocalCorruption?) {
        conn.RollBack(savepoint);
        return Err(InvalidErrorCode);
      }
      if lease.value.operation.Observation? {
        WithdrawOne(conn, scope, claim.id, LocalExportRemoved, now);
        conn.items := conn.items[claim.id := conn.items[claim.id].(error := Some(code))];
      } else {
        conn.items := conn.items[claim.id :=
          lease.value.(state := Blocked, payload := None, error := Some(code), terminal := Some(now), lease := None)];
      }
      assert conn.items == savepoint.items[claim.id := RejectRow(c, claim.id, lease.value, code)];
      FreeCapacity(conn, scope.installation, claim.token);
      return Ok(());
    }

    // -------------------------------------------------------------------- prune

    /** Deletes one page of the oldest spent rows; a row that media still references aborts the pass. */
    method PruneTerminal(conn: Database, scope: Scope, ref: Ref, limit: int, now: int) returns (r: Result<nat, Error>)
      requires conn.Valid()
      modifies conn
      ensures Step(conn.Tables(), r) == OutboxModel.PruneTerminal(old(conn.Tables()), CallOf(scope, ref, now), limit)
      ensures conn.Valid()
    {
      hide Inv, PruneKeys, PruneSet, Good, First, Elements, Ascending;
      ghost var c := CallOf(scope, ref, now);
      ghost var before := conn.Tables();
      PruneTerminalKeeps(before, c, limit);
      GoodInv(before, OutboxModel.PruneTerminal(before, c, limit).db, None);
      var savepoint := conn.Tables();
      var checked := CheckBinding(conn, scope, ref, now);
      if checked.Err? {
        return Err(checked.error);
      }
      if !(1 <= limit <= 1000) {
        conn.RollBack(savepoint);
        return Err(InvalidLimit);
      }
      var page := OrderBy(PruneKeys(conn.items, ref.id, now - 31 * DAY_MS), limit);
      PageIsPruneSet(before, c, limit, page);
      var n := 0;
      while n < |page|
        invariant n <= |page|
        invariant conn.bindings == Touch(before, c).bindings && conn.capacity == before.capacity && conn.media == before.media
        invariant conn.items == before.items - set j | 0 <= j < n :: page[j].id
        invariant forall j :: 0 <= j < n ==> !Referenced(before, page[j].id)
      {
        if exists m :: m in conn.media && conn.media[m].parent == page[n].id {
          assert Referenced(before, page[n].id) && page[n].id in PruneSet(before, c, limit);
          conn.RollBack(savepoint);
          return Err(ForeignKeyHeld);
        }
        conn.items := conn.items - {page[n].id};
        n := n + 1;
      }
      return Ok(n);
    }
  }

  // ------------------------------------------------------------ without the key

  /** The authority-checked stop: it needs no key and still closes the gate at the last generation. */
  method PauseRow(conn: Database, binding: Id) returns (r: Result<(), Error>)
    requires conn.Valid()
    modifies conn
    ensures Step(conn.Tables(), r) == OutboxModel.PauseRow(old(conn.Tables()), binding)
    ensures conn.Valid()
  {
    hide Inv, Good;
    PauseRowKeeps(conn.Tables(), binding);
    GoodInv(conn.Tables(), OutboxModel.PauseRow(conn.Tables(), binding).db, None);
    if binding !in conn.bindings || !conn.bindings[binding].Live() {
      return Err(BindingDisconnected);
    }
    var record := conn.bindings[binding];
    if record.generation >= MAX_GENERATION {
      conn.bindings := conn.bindings[binding := record.(state := Paused)];
    } else {
      conn.bindings := conn.bindings[binding := record.(state := Paused, generation := record.generation + 1)];
    }
    conn.items := map k | k in conn.items ::
      if conn.items[k].binding == binding && conn.items[k].state.Leased?
      then conn.items[k].(state := Pending, lease := None) else conn.items[k];
    return Ok(());
  }

  /** The recovery fence, one statement after the other. */
  method MarkRestored(conn: Database, now: int) returns (r: Result<(), Error>)
    requires conn.Valid()
    modifies conn
    ensures Step(conn.Tables(), r) == OutboxModel.MarkRestored(old(conn.Tables()), now)
    ensures conn.Valid()
  {
    hide Inv, Good, RestoreMedia, RestoreBinding, BlockUncertain, CancelUnsent;
    MarkRestoredKeeps(conn.Tables(), now);
    GoodInv(conn.Tables(), OutboxModel.MarkRestored(conn.Tables(), now).db, None);
    if !ValidClock(now) {
      return Err(InvalidClock);
    }
    if exists b :: b in conn.bindings && !conn.bindings[b].state.Restored? && conn.bindings[b].generation >= MAX_GENERATION {
      return Err(GenerationExhausted);
    }
    conn.bindings := map b | b in conn.bindings :: RestoreBinding(conn.bindings[b], now);
    conn.items := map k | k in conn.items :: BlockUncertain(conn.items[k]);
    conn.items := map k | k in conn.items :: CancelUnsent(conn.items[k], now);
    conn.items := map k | k in conn.items ::
      conn.items[k].(payload := None, digest := None, lease := None, settled := None);
    conn.capacity := map[];
    conn.media := map m | m in conn.media :: RestoreMedia(conn.media[m], now);
    return Ok(());
  }

  // ------------------------------------------------------- what the methods need

  lemma AllChanged(before: map<Id, Item>, items: map<Id, Item>, rows: set<Id>, binding: Id, change: Change)
    requires ChangedSoFar(before, items, rows, {}, change)
    requires rows == set k | k in before && before[k].binding == binding
    ensures items == ChangeRows(before, binding, change)
  {
    hide ChangeRow;
  }

  lemma OneRowPerEntity(db: Db, binding: Id, entity: Entity)
    requires Inv(db)
    ensures forall j, k :: IsRow(db, binding, entity, j) && IsRow(db, binding, entity, k) ==> j == k
  {
  }

  lemma ObservationHasBody(c: Call, o: MappedObservation)
    requires ObservationError(c, o).None?
    ensures o.body.ObservationBody?
  {
  }

  lemma QuotaReadsNoClock(db: Db, c: Call, size: nat)
    requires c.ref.id in db.bindings
    ensures QuotaError(Touch(db, c), c, size) == QuotaError(db, c, size)
  {
    hide Records, Waiting, Charges, Sum, CreatedSince;
    SelectionReadsNoClock(db, c, OfBinding(c.ref.id));
    SelectionReadsNoClock(db, c, OfInstallation(c.scope.installation));
  }

  lemma SelectionReadsNoClock(db: Db, c: Call, sel: Selector)
    requires c.ref.id in db.bindings
    ensures Records(Touch(db, c).bindings, db.items, sel) == Records(db.bindings, db.items, sel)
    ensures Waiting(Touch(db, c).bindings, db.items, sel) == Waiting(db.bindings, db.items, sel)
    ensures Charges(Touch(db, c).bindings, db.items, sel) == Charges(db.bindings, db.items, sel)
  {
    hide Charge, CountsPending;
    assert forall i :: Selected(Touch(db, c).bindings, sel, i) <==> Selected(db.bindings, sel, i);
    hide Selected;
  }

  lemma ClaimKeepsValid(db: Db, c: Call, leaseSeconds: int, token: Id)
    ensures Inv(db) ==> Inv(ClaimItem(db, c, leaseSeconds, token).db)
                        && ClaimItem(db, c, leaseSeconds, token).result != Err(CiphertextInvalid)
  {
    hide Inv, ClaimItem, Good;
    if Inv(db) {
      ClaimItemKeeps(db, c, leaseSeconds, token);
      GoodInv(db, ClaimItem(db, c, leaseSeconds, token).db, Some(token));
      ClaimAlwaysDecodes(db, c, leaseSeconds, token);
    }
  }

  lemma TouchThenSweep(db: Db, c: Call)
    requires c.ref.id in db.bindings
    ensures Sweep(db, c)
         == Touch(db, c).(items := ChangeRows(ChangeRows(db.items, c.ref.id, Change.Expire(c.key, c.scope, c.now)),
                                              c.ref.id, Change.Reclaim(c.now)))
  {
  }

  lemma FirstOfPage(due: set<Key>, page: seq<Key>)
    requires Ascending(page) && Elements(page) == First(due, 1) && page != []
    requires |page| == if |due| <= 1 then |due| else 1
    ensures due != {} && page[0] == Least(due)
  {
    assert due != {};
    LeastIsFirst(due);
    assert page[0] in Elements(page);
  }

  lemma DecodedHasPayload(key: Id, scope: Scope, id: Id, i: Item)
    requires Decodes(key, scope, id, i)
    ensures i.payload.Some?
  {
  }

  lemma SecondCheck(db: Db, c: Call, claim: Claim)
    requires Open(db, c).Ok?
    ensures LeaseError(Touch(db, c), c, claim) == LeaseError(db, c, claim)
    ensures Touch(Touch(db, c), c) == Touch(db, c)
  {
  }

  lemma PageIsPruneSet(db: Db, c: Call, limit: nat, page: seq<Key>)
    requires Ascending(page) && Elements(page) == First(PruneKeys(db.items, c.ref.id, c.now - 31 * DAY_MS), limit)
    ensures PruneSet(db, c, limit) == set j | 0 <= j < |page| :: page[j].id
    ensures |PruneSet(db, c, limit)| == |page|
  {
    var ids := set j | 0 <= j < |page| :: page[j].id;
    forall j | 0 <= j < |page| ensures page[j].id in PruneSet(db, c, limit) {
      assert page[j] in Elements(page);
    }
    forall k | k in PruneSet(db, c, limit) ensures k in ids {
      var x :| x in First(PruneKeys(db.items, c.ref.id, c.now - 31 * DAY_MS), limit) && x.id == k;
      assert x in Elements(page);
      var j :| 0 <= j < |page| && page[j] == x;
      assert page[j].id == k;
    }
    forall j, l | 0 <= j < l < |page| ensures page[j].id != page[l].id {
      assert page[j] in Elements(page) && page[l] in Elements(page);
      assert Before(page[j], page[l]);
    }
    DistinctIds(page);
  }

  lemma DistinctIds(page: seq<Key>)
    requires forall j, l :: 0 <= j < l < |page| ==> page[j].id != page[l].id
    ensures |set j | 0 <= j < |page| :: page[j].id| == |page|
  {
    if page != [] {
      var n := |page| - 1;
      DistinctIds(page[..n]);
      assert (set j | 0 <= j < |page| :: page[j].id) == (set j | 0 <= j < n :: page[..n][j].id) + {page[n].id};
    }
  }
}
