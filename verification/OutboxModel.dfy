/** The tables of the cloud outbox and the effect of each public operation on them.

    Every operation is a function from the tables to the tables and a result.
    A refused operation returns the tables it was given: the savepoint undoes
    whatever was written before the refusal. Identifiers and tokens that the
    program draws at random are arguments. */
module OutboxModel {
  import opened Basics

  const DAY_MS := 86_400_000
  const MAX_CLOCK := 253_402_300_799_000
  const MAX_GENERATION := 2_147_483_647
  const MAX_ATTEMPTS := 2_147_483_647
  const WITHDRAWAL_RESERVE := 256
  const MAX_PLAINTEXT := 2048
  /** Magic prefix, nonce and authentication tag around every plaintext. */
  const SEAL_OVERHEAD := 10 + 12 + 16

  datatype Error =
    | InvalidClock | NotFound | StaleGeneration | KeyUnavailable | ClockRollback
    | InvalidBinding | BindingExists | BindingLimit | BindingConflict
    | BindingDisconnected | GenerationExhausted
    | BindingNotActive | InvalidPayload | SourceIdMismatch | InvalidDeadline | AdmissionTimeMismatch
    | ObservationConflict | StaleAdmission | ObservationExpired | QueueLimit | DailyLimit
    | InvalidLease | CiphertextInvalid | StaleLease | InvalidBackoff | ReceiptConflict
    | InvalidErrorCode | InvalidLimit | ForeignKeyHeld
    | ObservationNotFound | MediaReferenceInvalid | MediaConflict | InvalidReceipt

  // ---------------------------------------------------------------- bindings

  datatype Scope = Scope(installation: Id, organisation: Id, site: Id)

  datatype Ref = Ref(id: Id, generation: int)

  datatype Target = Target(origin: Id, organisation: Id, pharmacy: Id, device: Id, credential: Id)

  datatype BindingState = Active | Paused | Disconnected | Restored

  datatype Binding = Binding(
    scope: Scope, generation: int, target: Target, key: Id, state: BindingState,
    created: int, activated: int, clock: int)
  {
    predicate Live() {
      state.Active? || state.Paused?
    }
  }

  // ------------------------------------------------------------------- items

  datatype SourceKind = Interaction | LiveEvent

  datatype Entity = Entity(kind: SourceKind, id: Id)

  /** The version 5 UUID of a source event, which no two sources share. */
  datatype SourceId = SourceId(scope: Scope, binding: Id, entity: Entity)

  datatype Operation = Observation | Withdrawal

  datatype ItemState = Pending | Leased | Received | Withdrawn | Expired | Cancelled | Blocked

  datatype Reason = LocalDeleted | LocalExpired | LocalExportRemoved

  datatype Code =
    | RetryLater | RestoredCode | RequiresManagement
    | RemoteRejected | RemoteConflict | LocalCorruption | ParentWithdrawn | OtherCode

  /** A plaintext. `size` is the length of an observation's canonical JSON. */
  datatype Body =
    | ObservationBody(source: SourceId, content: Id, occurred: int, size: nat)
    | WithdrawalBody(source: SourceId, reason: Reason)

  /** The associated data a ciphertext is bound to. */
  datatype Context = Context(
    scope: Scope, binding: Id, item: Id, operation: Operation, admitted: int, deadline: int)

  datatype Sealed = Sealed(key: Id, context: Context, body: Body)

  datatype Lease = Lease(token: Id, until: int, generation: int)

  datatype Item = Item(
    binding: Id, entity: Entity, source: SourceId, fingerprint: (Body, int),
    admitted: int, deadline: int, created: int,
    operation: Operation, state: ItemState, payload: Option<Sealed>, digest: Option<Body>,
    attempts: nat, everAttempted: bool, next: int, lease: Option<Lease>,
    receipt: Option<Id>, observationReceipt: Option<Id>, receiptAt: Option<int>,
    settled: Option<Id>, terminal: Option<int>, reason: Option<Reason>, error: Option<Code>)

  datatype Reservation = Reservation(token: Id, until: int)

  // ------------------------------------------------------------------- media

  datatype Frame = Frame(index: int, sha: Id, bytes: int)

  datatype MediaState =
    | PendingManifest | LeasedManifest | PendingContent | LeasedContent
    | MediaReady | MediaCancelled | MediaExpired | MediaWithdrawn | MediaBlocked

  datatype Media = Media(
    parent: Id, binding: Id, source: SourceId, entity: Entity, frame: Frame,
    deadline: int, created: int, state: MediaState,
    attempts: nat, everAttempted: bool, next: int, lease: Option<Lease>,
    evidence: Option<Id>, settled: Option<Id>, terminal: Option<int>, error: Option<Code>)

  datatype Db = Db(
    bindings: map<Id, Binding>, items: map<Id, Item>,
    capacity: map<Id, Reservation>, media: map<Id, Media>)

  // ------------------------------------------------------------------- calls

  datatype Limits = Limits(
    pendingPerBinding: nat, pendingPerInstallation: nat,
    recordsPerBinding: nat, recordsPerInstallation: nat,
    bytesPerBinding: nat, bytesPerInstallation: nat,
    dailyPerBinding: nat, bindingsPerInstallation: nat)

  /** Who calls: the outbox's key and limits, the trusted scope, the binding and the clock. */
  datatype Call = Call(key: Id, limits: Limits, scope: Scope, ref: Ref, now: int)

  datatype Claim = Claim(
    id: Id, binding: Ref, token: Id, operation: Operation, source: SourceId, body: Body,
    until: int, admitted: int, deadline: int)

  datatype MappedObservation = MappedObservation(entity: Entity, body: Body, admitted: int, deadline: int)

  datatype Step<+V> = Step(db: Db, result: Result<V, Error>)

  predicate ValidClock(now: int) {
    0 <= now <= MAX_CLOCK
  }

  /** The scope, generation, key and clock checks shared by every operation. */
  function Open(db: Db, c: Call): Result<Binding, Error> {
    if !ValidClock(c.now) then Err(InvalidClock)
    else if c.ref.id !in db.bindings || db.bindings[c.ref.id].scope != c.scope then Err(NotFound)
    else
      var b := db.bindings[c.ref.id];
      if b.generation != c.ref.generation then Err(StaleGeneration)
      else if b.key != c.key then Err(KeyUnavailable)
      else if c.now < b.clock then Err(ClockRollback)
      else Ok(b)
  }

  /** The clock write that accompanies those checks. */
  function Touch(db: Db, c: Call): Db
    requires c.ref.id in db.bindings
  {
    db.(bindings := db.bindings[c.ref.id := db.bindings[c.ref.id].(clock := c.now)])
  }

  // -------------------------------------------------------------- ciphertexts

  function ReasonText(r: Reason): string {
    match r
    case LocalDeleted => "LOCAL_DELETED"
    case LocalExpired => "LOCAL_EXPIRED"
    case LocalExportRemoved => "LOCAL_EXPORT_REMOVED"
  }

  /** The canonical JSON of a withdrawal, keys sorted and without spaces. */
  function WithdrawalJson(uuid: string, r: Reason): string {
    "{\"reason\":\"" + ReasonText(r) + "\",\"source_event_id\":\"" + uuid + "\"}"
  }

  function PlainLength(body: Body): nat {
    match body
    case ObservationBody(_, _, _, size) => size
    case WithdrawalBody(_, r) => |WithdrawalJson(seq(36, _ => '0'), r)|
  }

  function SealedLength(s: Sealed): nat {
    PlainLength(s.body) + SEAL_OVERHEAD
  }

  function RowContext(scope: Scope, id: Id, i: Item): Context {
    Context(scope, i.binding, id, i.operation, i.admitted, i.deadline)
  }

  predicate BodyFits(operation: Operation, source: SourceId, body: Body) {
    body.source == source && (operation.Observation? <==> body.ObservationBody?)
  }

  /** Whether the outbox with this key can authenticate and parse the row's ciphertext. */
  predicate Decodes(key: Id, scope: Scope, id: Id, i: Item) {
    && i.payload.Some?
    && i.payload.value.key == key
    && i.payload.value.context == RowContext(scope, id, i)
    && i.digest == Some(i.payload.value.body)
    && BodyFits(i.operation, i.source, i.payload.value.body)
  }

  // ------------------------------------------------------- bindings: operations

  predicate TargetTaken(bindings: map<Id, Binding>, t: Target) {
    exists k :: k in bindings && bindings[k].target.origin == t.origin && bindings[k].target.device == t.device
  }

  predicate HasLive(bindings: map<Id, Binding>, installation: Id) {
    exists k :: k in bindings && bindings[k].Live() && bindings[k].scope.installation == installation
  }

  function BindingsOf(bindings: map<Id, Binding>, installation: Id): set<Id> {
    set k | k in bindings && bindings[k].scope.installation == installation
  }

  function CreateBinding(db: Db, c: Call, expected: int, target: Target): Step<Ref> {
    if expected != 0 then Step(db, Err(InvalidBinding))
    else if !ValidClock(c.now) then Step(db, Err(InvalidClock))
    else if c.ref.id in db.bindings then Step(db, Err(BindingExists))
    else if |BindingsOf(db.bindings, c.scope.installation)| >= c.limits.bindingsPerInstallation then
      Step(db, Err(BindingLimit))
    else if TargetTaken(db.bindings, target) || HasLive(db.bindings, c.scope.installation) then
      Step(db, Err(BindingConflict))
    else
      var b := Binding(c.scope, 1, target, c.key, Paused, c.now, c.now, c.now);
      Step(db.(bindings := db.bindings[c.ref.id := b]), Ok(Ref(c.ref.id, 1)))
  }

  /** What one `UPDATE` over a binding's rows does to them. */
  datatype Change =
    | Release
    | Reclaim(now: int)
    | Withdraw(key: Id, scope: Scope, reason: Reason, now: int)
    | Expire(key: Id, scope: Scope, now: int)

  function ReleaseRow(i: Item): Item {
    if i.state.Leased? then i.(state := Pending, lease := None) else i
  }

  /** Withdrawal of one row: erased if it was never sent, else turned into an obligation. */
  function WithdrawRow(key: Id, scope: Scope, id: Id, i: Item, reason: Reason, now: int): Item {
    if i.operation.Withdrawal? then i
    else if !i.everAttempted then
      i.(state := if reason.LocalExpired? then Expired else Cancelled,
         payload := None, lease := None, terminal := Some(now))
    else
      var j := i.(operation := Withdrawal);
      var body := WithdrawalBody(i.source, reason);
      j.(state := Pending, payload := Some(Sealed(key, RowContext(scope, id, j), body)), digest := Some(body),
         next := now, reason := Some(reason), lease := None, settled := None, terminal := None)
  }

  function ChangeRow(change: Change, id: Id, i: Item): Item {
    match change
    case Release => ReleaseRow(i)
    case Reclaim(now) =>
      if i.state.Leased? && i.lease.Some? && i.lease.value.until <= now then ReleaseRow(i) else i
    case Withdraw(key, scope, reason, now) => WithdrawRow(key, scope, id, i, reason, now)
    case Expire(key, scope, now) =>
      if i.operation.Observation? && i.deadline <= now && !i.state.Expired? && !i.state.Cancelled? then
        WithdrawRow(key, scope, id, i, LocalExpired, now)
      else i
  }

  function ChangeRows(items: map<Id, Item>, binding: Id, change: Change): (r: map<Id, Item>)
    ensures r.Keys == items.Keys
  {
    map k | k in items :: if items[k].binding == binding then ChangeRow(change, k, items[k]) else items[k]
  }

  function SetPaused(db: Db, c: Call, paused: bool): Step<Ref> {
    match Open(db, c)
    case Err(e) => Step(db, Err(e))
    case Ok(b) =>
      var wanted := if paused then Paused else Active;
      if !b.Live() then Step(db, Err(BindingDisconnected))
      else if b.state == wanted then Step(Touch(db, c), Ok(c.ref))
      else if b.generation == MAX_GENERATION then Step(db, Err(GenerationExhausted))
      else
        var turned := b.(state := wanted, generation := b.generation + 1, clock := c.now,
                         activated := if paused then b.activated else c.now);
        Step(db.(bindings := db.bindings[c.ref.id := turned],
                 items := ChangeRows(db.items, c.ref.id, Release)),
             Ok(Ref(c.ref.id, b.generation + 1)))
  }

  function Disconnect(db: Db, c: Call, restored: bool): Step<Ref> {
    match Open(db, c)
    case Err(e) => Step(db, Err(e))
    case Ok(b) =>
      if !b.Live() then Step(Touch(db, c), Ok(c.ref))
      else if b.generation == MAX_GENERATION then Step(db, Err(GenerationExhausted))
      else
        var closed := b.(state := if restored then Restored else Disconnected,
                         generation := b.generation + 1, clock := c.now);
        var withdrawn := ChangeRows(db.items, c.ref.id, Withdraw(c.key, c.scope, LocalExportRemoved, c.now));
        Step(db.(bindings := db.bindings[c.ref.id := closed],
                 items := ChangeRows(withdrawn, c.ref.id, Release)),
             Ok(Ref(c.ref.id, b.generation + 1)))
  }

  /** The stop that needs no key: callers have checked that the binding is live. */
  function PauseRow(db: Db, binding: Id): Step<()> {
    if binding !in db.bindings || !db.bindings[binding].Live() then Step(db, Err(BindingDisconnected))
    else
      var b := db.bindings[binding];
      var stopped := b.(state := Paused,
                        generation := if b.generation >= MAX_GENERATION then b.generation else b.generation + 1);
      Step(db.(bindings := db.bindings[binding := stopped],
               items := ChangeRows(db.items, binding, Release)), Ok(()))
  }

  // ------------------------------------------------------------------- enqueue

  datatype Selector = OfBinding(id: Id) | OfInstallation(id: Id)

  predicate Selected(bindings: map<Id, Binding>, sel: Selector, i: Item) {
    match sel
    case OfBinding(b) => i.binding == b
    case OfInstallation(n) => i.binding in bindings && bindings[i.binding].scope.installation == n
  }

  /** Rows whose obligation is over and whose ciphertext is gone cost nothing. */
  predicate Spent(i: Item) {
    || ((i.state.Cancelled? || i.state.Expired?) && !i.everAttempted)
    || (i.state.Withdrawn? && i.receipt.Some?)
  }

  function StoredBytes(i: Item): nat {
    if i.payload.Some? then SealedLength(i.payload.value) else 0
  }

  function Charge(i: Item): nat {
    if Spent(i) then 0 else if StoredBytes(i) >= WITHDRAWAL_RESERVE then StoredBytes(i) else WITHDRAWAL_RESERVE
  }

  predicate CountsPending(i: Item) {
    i.operation.Observation? && (i.state.Pending? || i.state.Leased? || i.state.Blocked?)
  }

  function Records(bindings: map<Id, Binding>, items: map<Id, Item>, sel: Selector): set<Id> {
    set k | k in items && Selected(bindings, sel, items[k])
  }

  function Waiting(bindings: map<Id, Binding>, items: map<Id, Item>, sel: Selector): set<Id> {
    set k | k in items && Selected(bindings, sel, items[k]) && CountsPending(items[k])
  }

  function Charges(bindings: map<Id, Binding>, items: map<Id, Item>, sel: Selector): map<Id, nat> {
    map k | k in items && Selected(bindings, sel, items[k]) :: Charge(items[k])
  }

  function CreatedSince(items: map<Id, Item>, binding: Id, since: int): set<Id> {
    set k | k in items && items[k].binding == binding && items[k].created > since
  }

  ghost predicate Full(db: Db, sel: Selector, pending: nat, records: nat, bytes: nat, size: nat) {
    || |Records(db.bindings, db.items, sel)| >= records
    || |Waiting(db.bindings, db.items, sel)| >= pending
    || Sum(Charges(db.bindings, db.items, sel)) + Max(size, WITHDRAWAL_RESERVE) > bytes
  }

  ghost function QuotaError(db: Db, c: Call, size: nat): Option<Error> {
    if || Full(db, OfBinding(c.ref.id), c.limits.pendingPerBinding, c.limits.recordsPerBinding,
               c.limits.bytesPerBinding, size)
       || Full(db, OfInstallation(c.scope.installation), c.limits.pendingPerInstallation,
               c.limits.recordsPerInstallation, c.limits.bytesPerInstallation, size)
    then Some(QueueLimit)
    else if |CreatedSince(db.items, c.ref.id, c.now - DAY_MS)| >= c.limits.dailyPerBinding then Some(DailyLimit)
    else None
  }

  function ObservationError(c: Call, o: MappedObservation): Option<Error> {
    if !o.body.ObservationBody? || o.body.size > MAX_PLAINTEXT then Some(InvalidPayload)
    else if o.body.source != SourceId(c.scope, c.ref.id, o.entity) then Some(SourceIdMismatch)
    else if !ValidClock(o.admitted) || !ValidClock(o.deadline) then Some(InvalidClock)
    else if !(o.admitted < o.deadline <= o.admitted + DAY_MS) || o.admitted > c.now then Some(InvalidDeadline)
    else if o.body.occurred != o.admitted then Some(AdmissionTimeMismatch)
    else None
  }

  predicate IsRow(db: Db, binding: Id, entity: Entity, id: Id) {
    id in db.items && db.items[id].binding == binding && db.items[id].entity == entity
  }

  function NewItem(c: Call, o: MappedObservation, id: Id): Item {
    var context := Context(c.scope, c.ref.id, id, Observation, o.admitted, o.deadline);
    Item(c.ref.id, o.entity, o.body.source, (o.body, o.deadline), o.admitted, o.deadline, c.now,
         Observation, Pending, Some(Sealed(c.key, context, o.body)), Some(o.body),
         0, false, c.now, None, None, None, None, None, None, None, None)
  }

  ghost function Enqueue(db: Db, c: Call, o: MappedObservation, id: Id): Step<Id> {
    match Open(db, c)
    case Err(e) => Step(db, Err(e))
    case Ok(b) =>
      if !b.state.Active? then Step(db, Err(BindingNotActive))
      else if ObservationError(c, o).Some? then Step(db, Err(ObservationError(c, o).value))
      else if exists k :: IsRow(db, c.ref.id, o.entity, k) then
        var k :| IsRow(db, c.ref.id, o.entity, k);
        if db.items[k].fingerprint != (o.body, o.deadline) || db.items[k].admitted != o.admitted then
          Step(db, Err(ObservationConflict))
        else Step(Touch(db, c), Ok(k))
      else if o.admitted < b.activated then Step(db, Err(StaleAdmission))
      else if c.now >= o.deadline then Step(db, Err(ObservationExpired))
      else
        var quota := QuotaError(db, c, o.body.size + SEAL_OVERHEAD);
        if quota.Some? then Step(db, Err(quota.value))
        else
          var touched := Touch(db, c);
          Step(touched.(items := touched.items[id := NewItem(c, o, id)]), Ok(id))
  }

  // -------------------------------------------------------- withdraw and expire

  function WithdrawItem(db: Db, c: Call, id: Id, reason: Reason): Step<()> {
    match Open(db, c)
    case Err(e) => Step(db, Err(e))
    case Ok(_) =>
      if id !in db.items || db.items[id].binding != c.ref.id then Step(db, Err(NotFound))
      else
        var touched := Touch(db, c);
        Step(touched.(items := db.items[id := WithdrawRow(c.key, c.scope, id, db.items[id], reason, c.now)]), Ok(()))
  }

  function ExpireItems(db: Db, c: Call): Step<()> {
    match Open(db, c)
    case Err(e) => Step(db, Err(e))
    case Ok(_) =>
      Step(Touch(db, c).(items := ChangeRows(db.items, c.ref.id, Expire(c.key, c.scope, c.now))), Ok(()))
  }

  // --------------------------------------------------------------------- claim

  predicate Held(db: Db, installation: Id, now: int) {
    installation in db.capacity && db.capacity[installation].until > now
  }

  /** Expiry, then reclaim of overdue leases: what every claim does first. */
  function Sweep(db: Db, c: Call): Db
    requires c.ref.id in db.bindings
  {
    var expired := ChangeRows(db.items, c.ref.id, Expire(c.key, c.scope, c.now));
    Touch(db, c).(items := ChangeRows(expired, c.ref.id, Reclaim(c.now)))
  }

  predicate IsDue(i: Item, binding: Id, state: BindingState, now: int) {
    i.binding == binding && i.state.Pending? && i.next <= now && (i.operation.Withdrawal? || state.Active?)
  }

  /** Withdrawals first, then the oldest row, then the smallest identifier. */
  function DueKey(id: Id, i: Item): Key {
    Key(if i.operation.Withdrawal? then 0 else 1, i.created, id)
  }

  function DueKeys(items: map<Id, Item>, binding: Id, state: BindingState, now: int): set<Key> {
    set k | k in items && IsDue(items[k], binding, state, now) :: DueKey(k, items[k])
  }

  function LeaseRow(i: Item, token: Id, until: int, generation: int): Item {
    i.(state := Leased, lease := Some(Lease(token, until, generation)), everAttempted := true,
       attempts := if i.attempts + 1 <= MAX_ATTEMPTS then i.attempts + 1 else MAX_ATTEMPTS)
  }

  function LeaseEnd(i: Item, now: int, leaseSeconds: int): int {
    if i.operation.Observation? then Min(now + leaseSeconds * 1000, i.deadline) else now + leaseSeconds * 1000
  }

  ghost function ClaimItem(db: Db, c: Call, leaseSeconds: int, token: Id): Step<Option<Claim>> {
    match Open(db, c)
    case Err(e) => Step(db, Err(e))
    case Ok(b) =>
      if !(1 <= leaseSeconds <= 60) then Step(db, Err(InvalidLease))
      else if !b.Live() then Step(Touch(db, c), Ok(None))
      else
        var swept := Sweep(db, c);
        var due := DueKeys(swept.items, c.ref.id, b.state, c.now);
        if Held(db, c.scope.installation, c.now) || due == {} then Step(swept, Ok(None))
        else
          var id := Least(due).id;
          var row := swept.items[id];
          if !Decodes(c.key, c.scope, id, row) then Step(db, Err(CiphertextInvalid))
          else
            var until := LeaseEnd(row, c.now, leaseSeconds);
            Step(swept.(items := swept.items[id := LeaseRow(row, token, until, c.ref.generation)],
                        capacity := swept.capacity[c.scope.installation := Reservation(token, until)]),
                 Ok(Some(Claim(id, c.ref, token, row.operation, row.source, row.payload.value.body,
                               until, row.admitted, row.deadline))))
  }

  // ---------------------------------------------------------------- settlement

  /** Frees the installation's reservation if this token still holds it. */
  function Free(capacity: map<Id, Reservation>, installation: Id, token: Id): map<Id, Reservation> {
    if installation in capacity && capacity[installation].token == token then capacity - {installation} else capacity
  }

  predicate Holds(i: Item, c: Call, claim: Claim) {
    && i.binding == c.ref.id
    && i.state.Leased?
    && i.lease.Some?
    && i.lease.value.token == claim.token
    && i.lease.value.generation == c.ref.generation
    && i.lease.value.until > c.now
    && i.operation == claim.operation
  }

  /** The fence in front of every settlement. */
  function LeaseError(db: Db, c: Call, claim: Claim): Option<Error> {
    match Open(db, c)
    case Err(e) => Some(e)
    case Ok(b) =>
      if claim.binding != c.ref || !b.Live() then Some(StaleLease)
      else if claim.id !in db.items || db.items[claim.id].binding != c.ref.id then Some(NotFound)
      else if !Holds(db.items[claim.id], c, claim) then Some(StaleLease)
      else None
  }

  function Settle(db: Db, c: Call, claim: Claim, row: Item): Db
    requires c.ref.id in db.bindings
  {
    Touch(db, c).(items := db.items[claim.id := row],
                  capacity := Free(db.capacity, c.scope.installation, claim.token))
  }

  function RetryItem(db: Db, c: Call, claim: Claim, delaySeconds: int): Step<()> {
    var fence := LeaseError(db, c, claim);
    if fence.Some? then Step(db, Err(fence.value))
    else if !(1 <= delaySeconds <= 3600) then Step(db, Err(InvalidBackoff))
    else
      var i := db.items[claim.id];
      Step(Settle(db, c, claim,
                  i.(state := Pending, next := c.now + delaySeconds * 1000, lease := None, error := Some(RetryLater))),
           Ok(()))
  }

  /** The same receipt for the same token again. */
  predicate Replays(i: Item, claim: Claim) {
    (i.state.Received? || i.state.Withdrawn?) && i.settled == Some(claim.token)
  }

  function AcknowledgeRow(i: Item, token: Id, receipt: Id, now: int): Item {
    var j := i.(state := if i.operation.Observation? then Received else Withdrawn, payload := None,
                receipt := Some(receipt), receiptAt := Some(now), settled := Some(token), terminal := Some(now),
                lease := None, error := None);
    if i.operation.Observation? then j.(observationReceipt := Some(receipt)) else j
  }

  function AcknowledgeItem(db: Db, c: Call, claim: Claim, receipt: Id): Step<()> {
    match Open(db, c)
    case Err(e) => Step(db, Err(e))
    case Ok(_) =>
      if claim.binding != c.ref then Step(db, Err(StaleLease))
      else if claim.id !in db.items || db.items[claim.id].binding != c.ref.id then Step(db, Err(NotFound))
      else
        var i := db.items[claim.id];
        if Replays(i, claim) then
          if i.receipt != Some(receipt) then Step(db, Err(ReceiptConflict)) else Step(Touch(db, c), Ok(()))
        else
          var fence := LeaseError(db, c, claim);
          if fence.Some? then Step(db, Err(fence.value))
          else Step(Settle(db, c, claim, AcknowledgeRow(i, claim.token, receipt, c.now)), Ok(()))
  }

  function RejectRow(c: Call, id: Id, i: Item, code: Code): Item {
    if i.operation.Observation? then
      WithdrawRow(c.key, c.scope, id, i, LocalExportRemoved, c.now).(error := Some(code))
    else i.(state := Blocked, payload := None, error := Some(code), terminal := Some(c.now), lease := None)
  }

  function RejectItem(db: Db, c: Call, claim: Claim, code: Code): Step<()> {
    var fence := LeaseError(db, c, claim);
    if fence.Some? then Step(db, Err(fence.value))
    else if !(code.RemoteRejected? || code.RemoteConflict? || code.LocalCorruption?) then Step(db, Err(InvalidErrorCode))
    else Step(Settle(db, c, claim, RejectRow(c, claim.id, db.items[claim.id], code)), Ok(()))
  }

  // --------------------------------------------------------------------- prune

  predicate Prunable(i: Item, binding: Id, cutoff: int) {
    i.binding == binding && i.terminal.Some? && i.terminal.value <= cutoff && Spent(i)
  }

  function PruneKeys(items: map<Id, Item>, binding: Id, cutoff: int): set<Key> {
    set k | k in items && Prunable(items[k], binding, cutoff) :: Key(0, items[k].terminal.value, k)
  }

  ghost function PruneSet(db: Db, c: Call, limit: nat): set<Id> {
    set k | k in First(PruneKeys(db.items, c.ref.id, c.now - 31 * DAY_MS), limit) :: k.id
  }

  predicate Referenced(db: Db, id: Id) {
    exists m :: m in db.media && db.media[m].parent == id
  }

  /** Foreign keys are enforced: a selected row that media still references aborts the pass. */
  ghost function PruneTerminal(db: Db, c: Call, limit: int): Step<nat> {
    match Open(db, c)
    case Err(e) => Step(db, Err(e))
    case Ok(_) =>
      if !(1 <= limit <= 1000) then Step(db, Err(InvalidLimit))
      else
        var doomed := PruneSet(db, c, limit);
        if exists k :: k in doomed && Referenced(db, k) then Step(db, Err(ForeignKeyHeld))
        else Step(Touch(db, c).(items := db.items - doomed), Ok(|doomed|))
  }

  // ------------------------------------------------------------------- restore

  function RestoreBinding(b: Binding, now: int): Binding {
    if b.state.Restored? then b
    else b.(generation := b.generation + 1, state := Restored, clock := Max(b.clock, now))
  }

  predicate Acknowledged(i: Item) {
    i.state.Withdrawn? && i.receipt.Some?
  }

  predicate ShowsAttempt(i: Item) {
    i.everAttempted || i.attempts > 0 || i.receipt.Some? || i.observationReceipt.Some?
    || i.state.Leased? || i.state.Received?
  }

  /** Everything that may have been sent and was not receipted becomes a blocked obligation. */
  function BlockUncertain(i: Item): Item {
    if !Acknowledged(i) && ShowsAttempt(i) then
      i.(operation := Withdrawal, state := Blocked,
         reason := if i.reason.Some? then i.reason else Some(LocalExportRemoved),
         error := Some(RequiresManagement), terminal := None)
    else i
  }

  function CancelUnsent(i: Item, now: int): Item {
    if i.error != Some(RequiresManagement) && !Acknowledged(i) then
      i.(state := Cancelled, error := Some(RestoredCode),
         terminal := if i.terminal.Some? then i.terminal else Some(now))
    else i
  }

  /** The three row updates of a restore, in their order. */
  function RestoreRow(i: Item, now: int): Item {
    CancelUnsent(BlockUncertain(i), now).(payload := None, digest := None, lease := None, settled := None)
  }

  function RestoreMedia(m: Media, now: int): Media {
    var blocked :=
      if !m.state.MediaWithdrawn?
         && (m.everAttempted || m.attempts > 0 || m.evidence.Some?
             || m.state.LeasedManifest? || m.state.LeasedContent? || m.state.PendingContent?)
      then m.(state := MediaBlocked, error := Some(RequiresManagement), lease := None, settled := None, terminal := None)
      else m;
    if !blocked.state.MediaReady? && !blocked.state.MediaWithdrawn? && !blocked.state.MediaBlocked? then
      blocked.(state := MediaCancelled, error := Some(RestoredCode), terminal := Some(now), lease := None, settled := None)
    else blocked
  }

  function MarkRestored(db: Db, now: int): Step<()> {
    if !ValidClock(now) then Step(db, Err(InvalidClock))
    else if exists b :: b in db.bindings && !db.bindings[b].state.Restored? && db.bindings[b].generation >= MAX_GENERATION then
      Step(db, Err(GenerationExhausted))
    else
      Step(Db(map b | b in db.bindings :: RestoreBinding(db.bindings[b], now),
              map k | k in db.items :: RestoreRow(db.items[k], now),
              map[],
              map m | m in db.media :: RestoreMedia(db.media[m], now)), Ok(()))
  }
}
