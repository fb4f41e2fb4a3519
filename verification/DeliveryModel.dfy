/** The sender: its policy, the time it gives a request, the pause between attempts,
    and the bounded pass that looks again at every observation it may still have to stop. */
module DeliveryModel {
  import opened Basics
  import opened OutboxModel
  import opened MediaModel
  import opened OutboxInvariant
  import opened OutboxSteps
  import opened MediaSteps
  import opened OutboxTheorems

  datatype Policy = Policy(
    intervalSeconds: real, requestSeconds: real, leaseSeconds: int, recheckSeconds: real,
    retryBaseSeconds: int, maxRetrySeconds: int, observationAttempts: int, totalAttempts: int,
    reconciliationRows: int)
  {
    predicate Valid() {
      && 0.05 <= intervalSeconds <= 60.0 && 0.1 <= requestSeconds <= 30.0 && 0.05 <= recheckSeconds <= 1.0
      && 1 <= leaseSeconds <= 60 && 1 <= retryBaseSeconds <= 3600 && 1 <= maxRetrySeconds <= 3600
      && 1 <= observationAttempts <= 100 && 1 <= totalAttempts <= 200 && 1 <= reconciliationRows <= 200
      && leaseSeconds as real >= requestSeconds + 4.0
      && maxRetrySeconds >= retryBaseSeconds
      && totalAttempts > observationAttempts
    }
  }

  // ------------------------------------------------------- time for one request

  function Seconds(ms: int): real {
    ms as real / 1000.0
  }

  /** The time the owned request gets, counted from the reading of the clock; none if the margin is used up. */
  function RequestTime(p: Policy, until: int, now: int): Option<real> {
    var remaining := Seconds(until - now) - 2.0;
    if remaining <= 0.0 then None
    else Some(if p.requestSeconds <= remaining then p.requestSeconds else remaining)
  }

  /** A request is over two seconds before the lease ends, and so, for an observation, before its deadline and
      within a day of its admission; it gets all of the time that leaves, up to the policy's. */
  lemma RequestEndsBeforeDeadline(db: Db, c: Call, p: Policy, token: Id, now: int)
    requires Inv(db) && p.Valid()
    requires ClaimItem(db, c, p.leaseSeconds, token).result.Ok?
    requires ClaimItem(db, c, p.leaseSeconds, token).result.value.Some?
    ensures var cl := ClaimItem(db, c, p.leaseSeconds, token).result.value.value;
            var time := RequestTime(p, cl.until, now);
            && (time.None? <==> Seconds(cl.until) <= Seconds(now) + 2.0)
            && (time.Some? ==>
                  && 0.0 < time.value <= p.requestSeconds
                  && (time.value == p.requestSeconds || Seconds(now) + time.value + 2.0 == Seconds(cl.until))
                  && Seconds(now) + time.value + 2.0 <= Seconds(cl.until)
                  && (cl.operation.Observation? ==>
                        Seconds(now) + time.value + 2.0 <= Seconds(cl.deadline) <= Seconds(cl.admitted + DAY_MS)))
  {
    hide Inv, ClaimItem;
    ClaimEndsInTime(db, c, p.leaseSeconds, token);
  }

  /** The four seconds between lease and request cover the margin and two seconds of preparation:
      read within two seconds of the claim, a withdrawal's request always gets its whole time. */
  lemma WithdrawalGetsWholeTime(db: Db, c: Call, p: Policy, token: Id, now: int)
    requires Inv(db) && p.Valid() && c.now <= now <= c.now + 2000
    requires ClaimItem(db, c, p.leaseSeconds, token).result.Ok?
    requires ClaimItem(db, c, p.leaseSeconds, token).result.value.Some?
    requires ClaimItem(db, c, p.leaseSeconds, token).result.value.value.operation.Withdrawal?
    ensures var cl := ClaimItem(db, c, p.leaseSeconds, token).result.value.value;
            RequestTime(p, cl.until, now) == Some(p.requestSeconds)
  {
    ClaimCases(db, c, p.leaseSeconds, token);
    hide Inv, Sweep;
    var cl := ClaimItem(db, c, p.leaseSeconds, token).result.value.value;
    assert cl.until == c.now + p.leaseSeconds * 1000;
    assert Seconds(cl.until - now) >= p.leaseSeconds as real - 2.0;
  }

  // ---------------------------------------------------------- pause between tries

  function Pow2(n: nat): (r: nat)
    ensures r >= 1
  {
    if n == 0 then 1 else 2 * Pow2(n - 1)
  }

  /** Doubles with every attempt up to the policy's maximum; a server may ask for more. */
  function Delay(p: Policy, attempts: nat, retryAfter: Option<int>): int
    requires attempts >= 1
  {
    var own := Min(p.maxRetrySeconds, p.retryBaseSeconds * Pow2(Min(attempts - 1, 12)));
    if retryAfter.Some? then Max(own, retryAfter.value) else own
  }

  lemma {:induction false} Pow2Grows(m: nat, n: nat)
    requires m <= n
    ensures Pow2(m) <= Pow2(n)
  {
    if m < n {
      Pow2Grows(m, n - 1);
    }
  }

  lemma Product(a: int, b: int, c: int)
    requires a >= 1 && 1 <= b <= c
    ensures a <= a * b <= a * c
  {
    assert a * c - a * b == a * (c - b);
  }

  /** Every pause lies between the policy's base and an hour, is at least what the server asked
      for, and never gets shorter with more attempts. */
  lemma DelayIsBounded(p: Policy, attempts: nat, more: nat, retryAfter: Option<int>)
    requires p.Valid() && 1 <= attempts <= more
    requires retryAfter.Some? ==> 5 <= retryAfter.value <= 3600
    ensures p.retryBaseSeconds <= Delay(p, attempts, retryAfter) <= Delay(p, more, retryAfter) <= 3600
    ensures retryAfter.Some? ==> retryAfter.value <= Delay(p, attempts, retryAfter)
    ensures retryAfter.None? ==> Delay(p, attempts, retryAfter) <= p.maxRetrySeconds
  {
    var m, n := Min(attempts - 1, 12), Min(more - 1, 12);
    Pow2Grows(m, n);
    Product(p.retryBaseSeconds, Pow2(m), Pow2(n));
  }

  /** The pause is the policy's base at first and doubles with every attempt until the maximum. */
  lemma DelayDoubles(p: Policy, attempts: nat)
    requires p.Valid() && attempts >= 1
    ensures Delay(p, 1, None) == p.retryBaseSeconds
    ensures Delay(p, attempts + 1, None) == Min(p.maxRetrySeconds, 2 * Delay(p, attempts, None))
  {
    assert Pow2(0) == 1 && Pow2(12) == 4096;
    if attempts <= 12 {
      assert Pow2(attempts) == 2 * Pow2(attempts - 1);
    } else {
      Product(4096, 1, p.retryBaseSeconds);
    }
  }

  /** So the queue never refuses the pause that the sender chose. */
  lemma RetryIsNeverRefused(db: Db, c: Call, claim: Claim, p: Policy, retryAfter: Option<int>)
    requires Inv(db) && p.Valid() && LeaseError(db, c, claim).None?
    requires retryAfter.Some? ==> 5 <= retryAfter.value <= 3600
    ensures db.items[claim.id].attempts >= 1
    ensures RetryItem(db, c, claim, Delay(p, db.items[claim.id].attempts, retryAfter)).result == Ok(())
  {
    assert RowOk(db.bindings, claim.id, db.items[claim.id]);
    DelayIsBounded(p, db.items[claim.id].attempts, db.items[claim.id].attempts, retryAfter);
  }

  // -------------------------------------------------------- round-robin fairness

  function Above(eligible: set<Id>, cursor: Option<Id>): set<Id> {
    set id | id in eligible && (cursor.None? || id > cursor.value)
  }

  /** The rows a pass reads from: those after the cursor, or all of them once none is left. */
  function Source(eligible: set<Id>, cursor: Option<Id>): set<Id> {
    if Above(eligible, cursor) == {} then eligible else Above(eligible, cursor)
  }

  /** One pass: at most `rows` ids in order, and the cursor on the last of them. */
  ghost predicate IsPass(eligible: set<Id>, cursor: Option<Id>, rows: nat, page: seq<Id>, cursor': Option<Id>) {
    var source := Source(eligible, cursor);
    && (forall i, j :: 0 <= i < j < |page| ==> page[i] < page[j])
    && (forall i :: 0 <= i < |page| ==> page[i] in source)
    && |page| == (if |source| <= rows then |source| else rows)
    && (forall id, i :: id in source && id !in page && 0 <= i < |page| ==> page[i] < id)
    && cursor' == (if page == [] then None else Some(page[|page| - 1]))
  }

  datatype Pass = Pass(eligible: set<Id>, page: seq<Id>, cursor: Option<Id>)

  /** Passes that follow one another, while rows may leave the eligible set but none joins it. */
  ghost predicate Follow(cursor: Option<Id>, rows: nat, passes: seq<Pass>)
    decreases |passes|
  {
    passes == [] || (
      && IsPass(passes[0].eligible, cursor, rows, passes[0].page, passes[0].cursor)
      && (|passes| > 1 ==> passes[1].eligible <= passes[0].eligible)
      && Follow(passes[0].cursor, rows, passes[1..]))
  }

  /** The number of pages that `n` rows fill. */
  function Ceiling(n: nat, rows: nat): nat
    requires rows > 0
  {
    if n == 0 then 0 else 1 + Ceiling(if n <= rows then 0 else n - rows, rows)
  }

  lemma {:induction false} CeilingRounds(n: nat, rows: nat)
    requires rows > 0
    ensures n <= Ceiling(n, rows) * rows < n + rows
  {
    if n > 0 {
      CeilingRounds(if n <= rows then 0 else n - rows, rows);
    }
  }

  lemma Quotient(a: int, q: int, d: int)
    requires d > 0 && q * d <= a < q * d + d
    ensures a / d == q
  {
    SameQuotient(a, q, a / d, d);
  }

  lemma SameQuotient(a: int, q: int, r: int, d: int)
    requires d > 0 && q * d <= a < q * d + d && r * d <= a < r * d + d
    ensures q == r
  {
    if q < r {
      Product(d, 1, r - q);
    } else if r < q {
      Product(d, 1, q - r);
    }
    assert (r - q) * d == r * d - q * d;
  }

  /** That is the quotient rounded up. */
  lemma CeilingIsQuotient(n: nat, rows: nat)
    requires rows > 0
    ensures Ceiling(n, rows) == (n + rows - 1) / rows
  {
    CeilingRounds(n, rows);
    Quotient(n + rows - 1, Ceiling(n, rows), rows);
  }

  lemma CeilingPositive(n: nat, rows: nat)
    requires rows > 0 && n > 0
    ensures Ceiling(n, rows) == 1 + Ceiling(if n <= rows then 0 else n - rows, rows)
    ensures Ceiling(0, rows) == 0
  {
  }

  lemma {:induction false} CeilingGrows(m: nat, n: nat, rows: nat)
    requires rows > 0 && m <= n
    ensures Ceiling(m, rows) <= Ceiling(n, rows)
  {
    if m > 0 {
      CeilingGrows(if m <= rows then 0 else m - rows, if n <= rows then 0 else n - rows, rows);
    }
  }

  lemma {:induction false} CeilingSplits(m: nat, n: nat, rows: nat)
    requires rows > 0
    ensures Ceiling(m, rows) + Ceiling(n, rows) <= Ceiling(m + n, rows) + 1
  {
    if m > rows {
      CeilingSplits(m - rows, n, rows);
    } else if m > 0 {
      CeilingGrows(n, m + n, rows);
    }
  }

  function UpTo(eligible: set<Id>, cursor: Option<Id>, id: Id): set<Id> {
    set j | j in Above(eligible, cursor) && j <= id
  }

  /** How many passes reach `id`: up from the cursor, and around when the cursor is past it. */
  function Reach(eligible: set<Id>, cursor: Option<Id>, rows: nat, id: Id): nat
    requires rows > 0
  {
    if cursor.Some? && cursor.value >= id
    then Ceiling(|Above(eligible, cursor)|, rows) + Ceiling(|UpTo(eligible, None, id)|, rows)
    else Ceiling(|UpTo(eligible, cursor, id)|, rows)
  }

  function After(ids: set<Id>, last: Id): set<Id> {
    set j | j in ids && j > last
  }

  lemma PageSet(page: seq<Id>)
    requires forall i, j :: 0 <= i < j < |page| ==> page[i] < page[j]
    ensures |set i | 0 <= i < |page| :: page[i]| == |page|
  {
    if page != [] {
      var n := |page| - 1;
      PageSet(page[..n]);
      assert (set i | 0 <= i < |page| :: page[i]) == (set i | 0 <= i < n :: page[..n][i]) + {page[n]};
    }
  }

  /** A pass that reads from these rows leaves that many fewer after its cursor. */
  lemma PassAdvances(source: set<Id>, rows: nat, page: seq<Id>, ids: set<Id>)
    requires forall i, j :: 0 <= i < j < |page| ==> page[i] < page[j]
    requires forall i :: 0 <= i < |page| ==> page[i] in source
    requires |page| == (if |source| <= rows then |source| else rows)
    requires forall id, i :: id in source && id !in page && 0 <= i < |page| ==> page[i] < id
    requires ids <= source && page != [] && (forall i :: 0 <= i < |page| ==> page[i] in ids)
    ensures |After(ids, page[|page| - 1])| == |ids| - |page|
  {
    var read := set i | 0 <= i < |page| :: page[i];
    PageSet(page);
    assert After(ids, page[|page| - 1]) == ids - read;
    assert read <= ids;
  }

  /** A row that the pass did not read is still after the page, so the page is full. */
  lemma UnreadIsAfter(source: set<Id>, rows: nat, page: seq<Id>, id: Id)
    requires forall i, j :: 0 <= i < j < |page| ==> page[i] < page[j]
    requires forall i :: 0 <= i < |page| ==> page[i] in source
    requires |page| == (if |source| <= rows then |source| else rows)
    requires id in source && id !in page
    ensures |page| == rows
  {
    var read := set i | 0 <= i < |page| :: page[i];
    PageSet(page);
    SubsetSize(read, source - {id});
  }

  /** Every pass that does not read the row brings it one pass nearer. */
  lemma PassReaches(eligible: set<Id>, cursor: Option<Id>, rows: nat, page: seq<Id>, cursor': Option<Id>,
                    later: set<Id>, id: Id)
    requires IsPass(eligible, cursor, rows, page, cursor') && rows > 0
    requires id in eligible && id !in page && later <= eligible
    ensures Reach(later, cursor', rows, id) < Reach(eligible, cursor, rows, id)
  {
    hide Ceiling;
    var source := Source(eligible, cursor);
    if id in source {
      var from := if Above(eligible, cursor) == {} then None else cursor;
      var ids := UpTo(eligible, from, id);
      UnreadIsAfter(source, rows, page, id);
      PassAdvances(source, rows, page, ids);
      SubsetSize(UpTo(later, cursor', id), After(ids, page[|page| - 1]));
      CeilingGrows(|UpTo(later, cursor', id)|, |ids| - rows, rows);
      CeilingPositive(|ids|, rows);
      var last := page[|page| - 1];
      assert cursor' == Some(last) && last < id;
      if Above(eligible, cursor) == {} {
        assert id !in Above(eligible, cursor);
        assert Reach(eligible, cursor, rows, id) == Ceiling(|ids|, rows);
      }
    } else {
      PassAdvances(source, rows, page, source);
      SubsetSize(Above(later, cursor'), After(source, page[|page| - 1]));
      SubsetSize(UpTo(later, None, id), UpTo(eligible, None, id));
      CeilingGrows(|Above(later, cursor')|, |source| - |page|, rows);
      CeilingGrows(|UpTo(later, None, id)|, |UpTo(eligible, None, id)|, rows);
      CeilingPositive(|source|, rows);
    }
  }

  lemma {:induction false} ReadInReach(cursor: Option<Id>, rows: nat, passes: seq<Pass>, id: Id)
    requires rows > 0 && passes != [] && Follow(cursor, rows, passes)
    requires forall i :: 0 <= i < |passes| ==> id in passes[i].eligible
    requires |passes| >= Reach(passes[0].eligible, cursor, rows, id)
    ensures exists i :: 0 <= i < |passes| && i < Reach(passes[0].eligible, cursor, rows, id) && id in passes[i].page
    decreases |passes|
  {
    var p := passes[0];
    if id in p.page {
      Reachable(p.eligible, cursor, rows, id);
    } else {
      var later := if |passes| > 1 then passes[1].eligible else p.eligible;
      PassReaches(p.eligible, cursor, rows, p.page, p.cursor, later, id);
      Reachable(later, p.cursor, rows, id);
      ReadInReach(p.cursor, rows, passes[1..], id);
      var i :| 0 <= i < |passes[1..]| && i < Reach(later, p.cursor, rows, id) && id in passes[1..][i].page;
      assert id in passes[i + 1].page;
    }
  }

  lemma Reachable(eligible: set<Id>, cursor: Option<Id>, rows: nat, id: Id)
    requires rows > 0 && id in eligible
    ensures 0 < Reach(eligible, cursor, rows, id) <= Ceiling(|eligible|, rows) + 1
  {
    hide Ceiling;
    if cursor.Some? && cursor.value >= id {
      var above, below := Above(eligible, cursor), UpTo(eligible, None, id);
      assert id in below && above !! below && above + below <= eligible;
      SubsetSize(above + below, eligible);
      assert |above + below| == |above| + |below|;
      CeilingSplits(|above|, |below|, rows);
      CeilingGrows(|above| + |below|, |eligible|, rows);
      CeilingPositive(|below|, rows);
    } else {
      var below := UpTo(eligible, cursor, id);
      assert id in below;
      SubsetSize(below, eligible);
      CeilingGrows(|below|, |eligible|, rows);
      CeilingPositive(|below|, rows);
    }
  }

  /** From any cursor, and while no row joins, every row that stays eligible is read within one pass
      more than the rows fill pages. */
  lemma EveryRowIsRead(cursor: Option<Id>, rows: nat, passes: seq<Pass>, id: Id)
    requires rows > 0 && passes != [] && Follow(cursor, rows, passes)
    requires forall i :: 0 <= i < |passes| ==> id in passes[i].eligible
    requires |passes| >= (|passes[0].eligible| + rows - 1) / rows + 1
    ensures exists i :: 0 <= i < (|passes[0].eligible| + rows - 1) / rows + 1 && id in passes[i].page
  {
    CeilingIsQuotient(|passes[0].eligible|, rows);
    Reachable(passes[0].eligible, cursor, rows, id);
    ReadInReach(cursor, rows, passes, id);
  }

  // ------------------------------------------------------- the reconciling pass

  datatype SourceState = Available | Deleted | Elapsed | Ineligible

  /** Why the source no longer allows this row to be sent, if it does not. */
  function SourceReason(i: Item, source: Entity -> SourceState, now: int): Option<Reason> {
    if now >= i.deadline then Some(LocalExpired)
    else match source(i.entity)
      case Available => None
      case Deleted => Some(LocalDeleted)
      case Elapsed => Some(LocalExpired)
      case Ineligible => Some(LocalExportRemoved)
  }

  predicate IsEligible(i: Item, binding: Id) {
    i.binding == binding && i.operation.Observation? && (i.state.Pending? || i.state.Leased? || i.state.Received?)
  }

  function Eligible(items: map<Id, Item>, binding: Id): set<Id> {
    set k | k in items && IsEligible(items[k], binding)
  }

  function ExamineRow(c: Call, id: Id, i: Item, source: Entity -> SourceState): Item {
    var reason := SourceReason(i, source, c.now);
    if reason.Some? then WithdrawRow(c.key, c.scope, id, i, reason.value, c.now) else i
  }

  /** The rows after those in `page` were looked at. */
  function Examine(items: map<Id, Item>, c: Call, page: seq<Id>, source: Entity -> SourceState): (r: map<Id, Item>)
    ensures r.Keys == items.Keys
  {
    map k | k in items :: if k in page then ExamineRow(c, k, items[k], source) else items[k]
  }

  /** A committed pass: the page is looked at, media mirrored, old rows pruned. A refusal undoes it all. */
  ghost function PassOver(db: Db, c: Call, page: seq<Id>, source: Entity -> SourceState): Step<nat> {
    match Open(db, c)
    case Err(e) => Step(db, Err(e))
    case Ok(_) =>
      var step := ReconcileThenPrune(Touch(db, c).(items := Examine(db.items, c, page, source)), c, 100);
      if step.result.Err? then Step(db, step.result) else step
  }

  /** The tables part of the way through the page: the clock is written by the first withdrawal. */
  ghost predicate PartWay(before: Db, db: Db, c: Call, page: seq<Id>, source: Entity -> SourceState) {
    && db.items == Examine(before.items, c, page, source)
    && db.capacity == before.capacity && db.media == before.media
    && (db.bindings == before.bindings || (Open(before, c).Ok? && db.bindings == Touch(before, c).bindings))
  }

  /** After a committed pass every row it read is either withdrawn, if its source is gone or its
      deadline reached, or exactly as before. */
  lemma PassStopsGoneRows(db: Db, c: Call, page: seq<Id>, source: Entity -> SourceState, id: Id)
    requires Inv(db) && PassOver(db, c, page, source).result.Ok?
    requires id in page && id in db.items && IsEligible(db.items[id], c.ref.id)
    ensures var items := PassOver(db, c, page, source).db.items;
            id in items
            && (if SourceReason(db.items[id], source, c.now).Some? then !IsEligible(items[id], c.ref.id)
                else items[id] == db.items[id])
  {
    hide Inv;
    var i := db.items[id];
    ShapeInDb(db, id);
    var read := Touch(db, c).(items := Examine(db.items, c, page, source));
    var mirrored := MediaModel.Reconcile(read, c).db;
    assert mirrored.items == read.items && mirrored.items[id] == ExamineRow(c, id, i, source);
    ExaminedRow(c, id, i, source);
    if id in PruneSet(mirrored, c, 100) {
      PruneSetIsPrunable(mirrored, c, 100, id);
    }
  }

  lemma ExaminedRow(c: Call, id: Id, i: Item, source: Entity -> SourceState)
    requires RowShape(i) && IsEligible(i, c.ref.id)
    ensures !Prunable(ExamineRow(c, id, i, source), c.ref.id, c.now - 31 * DAY_MS)
    ensures SourceReason(i, source, c.now).Some? ==> !IsEligible(ExamineRow(c, id, i, source), c.ref.id)
  {
  }

  // ------------------------------------------------------------- settling an answer

  datatype Response =
    | Answered(receipt: Id)
    | Cancelled
    | ContextChanged
    | AccessRevoked
    | Halting
    | Permanent(conflict: bool)
    | Transient(retryAfter: Option<int>)

  datatype Outcome = Fenced | Blocked | Delivered | Retried(seconds: int)

  /** The stop after an authority error: only the still active binding of this generation is paused. */
  function PauseError(db: Db, c: Call): Db {
    if c.ref.id in db.bindings && db.bindings[c.ref.id].scope == c.scope
       && db.bindings[c.ref.id].generation == c.ref.generation && db.bindings[c.ref.id].state.Active?
    then OutboxModel.PauseRow(db, c.ref.id).db else db
  }

  /** The binding that the sender may use now is still the one it started with. */
  predicate SameContext(db: Db, scope: Scope, ref: Ref, target: Target) {
    && ref.id in db.bindings && db.bindings[ref.id].scope == scope && db.bindings[ref.id].state.Active?
    && db.bindings[ref.id].generation == ref.generation && db.bindings[ref.id].target == target
  }

  /** Every stop takes the sender's context away, at the last generation too: from then on it uses no answer. */
  lemma StopsChangeContext(db: Db, c: Call, target: Target, restored: bool, now: int)
    requires SameContext(db, c.scope, c.ref, target)
    ensures forall other :: SameContext(db, c.scope, c.ref, other) <==> other == target
    ensures !SameContext(OutboxModel.PauseRow(db, c.ref.id).db, c.scope, c.ref, target)
    ensures SetPaused(db, c, true).result.Ok? ==> !SameContext(SetPaused(db, c, true).db, c.scope, c.ref, target)
    ensures Disconnect(db, c, restored).result.Ok? ==> !SameContext(Disconnect(db, c, restored).db, c.scope, c.ref, target)
    ensures MarkRestored(db, now).result.Ok? ==> !SameContext(MarkRestored(db, now).db, c.scope, c.ref, target)
  {
    hide ChangeRows, RestoreRow, RestoreMedia;
  }

  /** The sender's own view of the lease, read before it trusts the answer. */
  predicate StillLeased(db: Db, c: Call, claim: Claim) {
    && claim.id in db.items && db.items[claim.id].binding == c.ref.id
    && db.items[claim.id].state.Leased?
    && db.items[claim.id].lease.Some?
    && db.items[claim.id].lease.value.token == claim.token
    && db.items[claim.id].lease.value.generation == c.ref.generation
    && db.items[claim.id].operation == claim.operation
    && c.now < claim.until
  }

  function MaximumAttempts(p: Policy, operation: Operation): int {
    if operation.Observation? then p.observationAttempts else p.totalAttempts
  }

  function Settlement(db: Db, c: Call, p: Policy, claim: Claim, response: Response,
                      source: Entity -> SourceState): Step<Outcome> {
    if response.AccessRevoked? || response.Halting? then Step(PauseError(db, c), Ok(Outcome.Blocked))
    else if !StillLeased(db, c, claim) then Step(db, Ok(Fenced))
    else
      var i := db.items[claim.id];
      var reason := if claim.operation.Observation? then SourceReason(i, source, c.now) else None;
      if reason.Some? then Become(WithdrawItem(db, c, claim.id, reason.value), Fenced)
      else match response
        case Answered(receipt) => Become(AcknowledgeItem(db, c, claim, receipt), Delivered)
        case Permanent(conflict) =>
          Become(RejectItem(db, c, claim, if conflict then RemoteConflict else RemoteRejected), Outcome.Blocked)
        case Transient(retryAfter) =>
          if i.attempts >= MaximumAttempts(p, claim.operation) then
            Become(RejectItem(db, c, claim, RemoteRejected), Outcome.Blocked)
          else if i.attempts == 0 then Step(db, Err(InvalidBackoff))
          else
            var seconds := Delay(p, i.attempts, retryAfter);
            Become(RetryItem(db, c, claim, seconds), Retried(seconds))
        case _ => Step(db, Ok(Fenced))
  }

  function Become(step: Step<()>, outcome: Outcome): Step<Outcome> {
    Step(step.db, if step.result.Ok? then Ok(outcome) else Err(step.result.error))
  }

  /** The claim is the one that this lease was issued with. */
  ghost predicate IsIssued(db: Db, claim: Claim) {
    claim.id in db.items && db.items[claim.id].lease.Some? && db.items[claim.id].lease.value.token == claim.token ==>
      db.items[claim.id].lease.value.until == claim.until
  }

  /** What the sender checked before it used an answer is all that the queue's fence asks for. */
  lemma SenderChecksTheFence(db: Db, c: Call, claim: Claim)
    requires Inv(db) && Open(db, c).Ok? && claim.binding == c.ref && IsIssued(db, claim)
    requires StillLeased(db, c, claim)
    ensures LeaseError(db, c, claim).None? && db.items[claim.id].attempts >= 1
    ensures RowShape(db.items[claim.id])
  {
    assert RowOk(db.bindings, claim.id, db.items[claim.id]);
  }

  ghost predicate AnswerFits(response: Response) {
    response.Transient? && response.retryAfter.Some? ==> 5 <= response.retryAfter.value <= 3600
  }

  /** So an answer is never refused by the queue, as long as the binding still opens. */
  lemma SettlementNeverRefused(db: Db, c: Call, p: Policy, claim: Claim, response: Response,
                               source: Entity -> SourceState)
    requires Inv(db) && Open(db, c).Ok? && claim.binding == c.ref && IsIssued(db, claim)
    requires p.Valid() && AnswerFits(response)
    ensures Settlement(db, c, p, claim, response, source).result.Ok?
  {
    hide Inv;
    if StillLeased(db, c, claim) {
      SenderChecksTheFence(db, c, claim);
      if response.Transient? {
        RetryIsNeverRefused(db, c, claim, p, response.retryAfter);
      }
    }
  }

  /** What each outcome says about the claimed row: only a row still held by this claim changes; a delivery
      is receipted before the deadline; a retry waits within the policy and stays below its attempts; a
      refused observation becomes a withdrawal, and a refused withdrawal an obligation for management. */
  ghost predicate Explains(i: Item, j: Item, c: Call, p: Policy, outcome: Outcome) {
    match outcome
    case Fenced => j == i || !IsEligible(j, c.ref.id)
    case Delivered =>
      if i.operation.Observation? then j.state.Received? && j.receiptAt == Some(c.now) && c.now < j.deadline
      else Acknowledged(j)
    case Blocked =>
      if i.operation.Observation? then j.operation.Withdrawal? && j.state.Pending? && j.payload.Some? && j.reason.Some?
      else j.operation.Withdrawal? && j.state.Blocked?
    case Retried(seconds) =>
      1 <= seconds <= 3600 && i.attempts < MaximumAttempts(p, i.operation)
      && j.state.Pending? && j.operation == i.operation && j.payload == i.payload
      && j.next == c.now + seconds * 1000
  }

  lemma OutcomeExplains(db: Db, c: Call, p: Policy, claim: Claim, response: Response, source: Entity -> SourceState)
    requires Inv(db) && Open(db, c).Ok? && claim.binding == c.ref && IsIssued(db, claim)
    requires p.Valid() && AnswerFits(response) && StillLeased(db, c, claim)
    requires !response.AccessRevoked? && !response.Halting?
    ensures var step := Settlement(db, c, p, claim, response, source);
            && step.result.Ok? && claim.id in step.db.items
            && Explains(db.items[claim.id], step.db.items[claim.id], c, p, step.result.value)
            && (forall k :: k in db.items && k != claim.id ==> k in step.db.items && step.db.items[k] == db.items[k])
  {
    hide Inv;
    SettlementNeverRefused(db, c, p, claim, response, source);
    SenderChecksTheFence(db, c, claim);
    var i := db.items[claim.id];
    if response.Transient? {
      DelayIsBounded(p, i.attempts, i.attempts, response.retryAfter);
    }
  }

  /** What each answer does to a leased row whose source is still there, the attempts of the row given. */
  ghost predicate Decides(i: Item, j: Item, c: Call, p: Policy, claim: Claim, response: Response,
                          result: Result<Outcome, Error>) {
    match response
    case Answered(receipt) =>
      && result == Ok(Delivered) && j.receipt == Some(receipt) && j.receiptAt == Some(c.now)
      && j.settled == Some(claim.token) && j.payload.None? && j.operation == i.operation
      && (if i.operation.Observation? then j.state.Received? && j.observationReceipt == Some(receipt) else j.state.Withdrawn?)
    case Permanent(conflict) =>
      result == Ok(Outcome.Blocked) && GivenUp(i, j, if conflict then RemoteConflict else RemoteRejected)
    case Transient(retryAfter) =>
      if i.attempts < MaximumAttempts(p, i.operation) then
        && i.attempts >= 1 && result == Ok(Retried(Delay(p, i.attempts, retryAfter)))
        && j == i.(state := Pending, lease := None, next := c.now + Delay(p, i.attempts, retryAfter) * 1000,
                   error := Some(RetryLater))
      else result == Ok(Outcome.Blocked) && GivenUp(i, j, RemoteRejected)
    case _ => result == Ok(Fenced) && j == i
  }

  /** An observation goes on as the withdrawal of what was sent, a withdrawal waits for management. */
  ghost predicate GivenUp(i: Item, j: Item, code: Code) {
    && j.operation.Withdrawal? && j.error == Some(code) && j.lease.None? && j.attempts == i.attempts
    && if i.operation.Observation? then j.state.Pending? && j.reason == Some(LocalExportRemoved) && j.payload.Some?
       else j.state.Blocked? && j.payload.None?
  }

  /** The reservation that this token held is gone, and every other one is as before. */
  ghost predicate Freed(before: map<Id, Reservation>, after: map<Id, Reservation>, installation: Id, token: Id) {
    && (installation in after ==> installation in before && before[installation].token != token)
    && (forall n :: n in before && (n != installation || before[n].token != token) ==> n in after && after[n] == before[n])
    && (forall n :: n in after ==> n in before)
  }

  /** Which answer leads to which outcome: with the lease held and the source present the answer alone, and
      for a transient one the attempts so far, decide what becomes of the row; no other row changes, and
      nothing at all does after a cancelled request or a changed context. */
  lemma AnswerDecides(db: Db, c: Call, p: Policy, claim: Claim, response: Response, source: Entity -> SourceState)
    requires Inv(db) && Open(db, c).Ok? && claim.binding == c.ref && IsIssued(db, claim)
    requires p.Valid() && AnswerFits(response) && StillLeased(db, c, claim)
    requires claim.operation.Observation? ==> SourceReason(db.items[claim.id], source, c.now).None?
    requires !response.AccessRevoked? && !response.Halting?
    ensures var step := Settlement(db, c, p, claim, response, source);
            && claim.id in step.db.items
            && Decides(db.items[claim.id], step.db.items[claim.id], c, p, claim, response, step.result)
            && step.db.items == db.items[claim.id := step.db.items[claim.id]] && step.db.media == db.media
            && (response.Cancelled? || response.ContextChanged? ==> step.db == db)
            && (step.result != Ok(Fenced) ==> Freed(db.capacity, step.db.capacity, c.scope.installation, claim.token))
  {
    hide Inv, Delay;
    SettlementNeverRefused(db, c, p, claim, response, source);
    SenderChecksTheFence(db, c, claim);
  }

  /** A source that is gone turns the answer away: what was sent is withdrawn for that reason. */
  lemma GoneSourceWithdraws(db: Db, c: Call, p: Policy, claim: Claim, response: Response, source: Entity -> SourceState)
    requires Inv(db) && Open(db, c).Ok? && claim.binding == c.ref && IsIssued(db, claim) && StillLeased(db, c, claim)
    requires claim.operation.Observation? && SourceReason(db.items[claim.id], source, c.now).Some?
    requires !response.AccessRevoked? && !response.Halting?
    ensures var step := Settlement(db, c, p, claim, response, source);
            && step.result == Ok(Fenced) && claim.id in step.db.items
            && var j := step.db.items[claim.id];
               j.operation.Withdrawal? && j.state.Pending? && j.lease.None? && j.receipt.None? && j.next == c.now
               && (j.reason == Some(LocalExpired) <==> j.deadline <= c.now || source(j.entity).Elapsed?)
               && (j.reason == Some(LocalDeleted) <==> c.now < j.deadline && source(j.entity).Deleted?)
               && (j.reason == Some(LocalExportRemoved) <==> c.now < j.deadline && source(j.entity).Ineligible?)
  {
    hide Inv;
    SenderChecksTheFence(db, c, claim);
  }

  /** Revoked access and a halting fault pause the binding that the sender works for, whatever was claimed. */
  lemma AuthorityErrorPauses(db: Db, c: Call, p: Policy, target: Target, claim: Claim, response: Response,
                             source: Entity -> SourceState)
    requires Inv(db) && SameContext(db, c.scope, c.ref, target)
    requires response.AccessRevoked? || response.Halting?
    ensures var step := Settlement(db, c, p, claim, response, source);
            && step.result == Ok(Outcome.Blocked) && c.ref.id in step.db.bindings
            && step.db.bindings[c.ref.id].state.Paused? && BindingUnleased(step.db, c.ref.id)
            && !SameContext(step.db, c.scope, c.ref, target)
  {
    hide ChangeRows, Inv;
    ReleasedRows(db, c.ref.id);
  }

  /** Without the lease the answer changes nothing at all. */
  lemma LateAnswerChangesNothing(db: Db, c: Call, p: Policy, claim: Claim, response: Response,
                                 source: Entity -> SourceState)
    requires !StillLeased(db, c, claim) && !response.AccessRevoked? && !response.Halting?
    ensures Settlement(db, c, p, claim, response, source) == Step(db, Ok(Fenced))
  {
  }

  // ------------------------------------------------------------- authorising a request

  /** Whether a request may go on: same context, same lease, and for an observation a source that is still
      there. A source that is gone withdraws the row instead. */
  function Authorisation(db: Db, c: Call, target: Target, claim: Claim, source: Entity -> SourceState): Step<bool> {
    if !SameContext(db, c.scope, c.ref, target) then Step(db, Ok(false))
    else if claim.id in db.items && db.items[claim.id].binding == c.ref.id && c.now < db.bindings[c.ref.id].clock then
      Step(db, Err(ClockRollback))
    else if !StillLeased(db, c, claim) then Step(db, Ok(false))
    else
      var reason := if claim.operation.Observation? then SourceReason(db.items[claim.id], source, c.now) else None;
      if reason.None? then Step(db, Ok(true))
      else
        var step := WithdrawItem(db, c, claim.id, reason.value);
        Step(step.db, if step.result.Ok? then Ok(false) else Err(step.result.error))
  }

  /** A request goes on exactly while context, lease and source all hold, and then nothing changed; an
      observation whose source is gone is withdrawn in the same transaction. */
  lemma AuthorisedExactly(db: Db, c: Call, target: Target, claim: Claim, source: Entity -> SourceState)
    requires Inv(db)
    ensures var step := Authorisation(db, c, target, claim, source);
            && (step.result == Ok(true) <==>
                  && SameContext(db, c.scope, c.ref, target) && StillLeased(db, c, claim) && db.bindings[c.ref.id].clock <= c.now
                  && (claim.operation.Observation? ==> SourceReason(db.items[claim.id], source, c.now).None?))
            && (step.result != Ok(false) ==> step.db == db)
            && (step.result == Ok(false) && claim.operation.Observation? && claim.id in step.db.items ==>
                  !StillLeased(step.db, c, claim) || !SameContext(step.db, c.scope, c.ref, target))
  {
    hide Inv;
  }

  // ------------------------------------------------------------- settling a media answer

  datatype MediaResponse =
    | Accepted(evidence: Id, upload: bool, ready: bool)
    | Refused(response: Response)

  predicate MediaStillLeased(db: Db, c: Call, claim: MediaClaim) {
    && claim.id in db.media && db.media[claim.id].binding == c.ref.id
    && (if claim.operation.Manifest? then db.media[claim.id].state.LeasedManifest? else db.media[claim.id].state.LeasedContent?)
    && db.media[claim.id].lease.Some?
    && db.media[claim.id].lease.value.token == claim.token
    && db.media[claim.id].lease.value.generation == c.ref.generation
    && c.now < claim.until
  }

  /** A media answer knows no halting code: it is tried again like any other failure. */
  function MediaSettlement(db: Db, c: Call, p: Policy, claim: MediaClaim, response: MediaResponse,
                           available: bool): Step<Outcome> {
    if !MediaStillLeased(db, c, claim) || !available then Step(db, Ok(Fenced))
    else
      var m := db.media[claim.id];
      match response
      case Accepted(evidence, upload, ready) =>
        if claim.operation.Manifest? then Become(AcknowledgeManifest(db, c, claim, evidence, upload, ready), Delivered)
        else Become(AcknowledgeContent(db, c, claim, evidence, ready), Delivered)
      case Refused(r) =>
        if r.AccessRevoked? then Step(PauseError(db, c), Ok(Outcome.Blocked))
        else if r.Cancelled? || r.ContextChanged? then Step(db, Ok(Fenced))
        else if r.Permanent? || m.attempts >= p.totalAttempts then
          Become(RejectMedia(db, c, claim, RemoteRejected), Outcome.Blocked)
        else if m.attempts == 0 then Step(db, Err(InvalidBackoff))
        else
          var seconds := Delay(p, m.attempts, if r.Transient? then r.retryAfter else None);
          Become(RetryMedia(db, c, claim, seconds), Retried(seconds))
  }

  ghost predicate MediaIsIssued(db: Db, claim: MediaClaim) {
    claim.id in db.media && db.media[claim.id].lease.Some? && db.media[claim.id].lease.value.token == claim.token ==>
      db.media[claim.id].lease.value.until == claim.until
  }

  /** An acceptance that contradicts itself, or what was acknowledged before. */
  predicate Contradicts(m: Media, claim: MediaClaim, response: MediaResponse) {
    response.Accepted?
    && if claim.operation.Manifest?
       then response.upload == response.ready || (m.evidence.Some? && m.evidence.value != response.evidence)
       else !response.ready || m.evidence != Some(response.evidence)
  }

  ghost predicate MediaExplains(m: Media, n: Media, c: Call, p: Policy, claim: MediaClaim, response: MediaResponse,
                                outcome: Outcome) {
    match outcome
    case Fenced => n == m
    case Delivered =>
      && response.Accepted? && n.evidence == Some(response.evidence) && n.settled == Some(claim.token) && n.lease.None?
      && (n.state.MediaReady? || (claim.operation.Manifest? && response.upload && n.state.PendingContent?))
    case Blocked => n.state.MediaBlocked? && n.lease.None?
    case Retried(seconds) =>
      1 <= seconds <= 3600 && m.attempts < p.totalAttempts && n.next == c.now + seconds * 1000
      && n.state == (if claim.operation.Manifest? then PendingManifest else PendingContent) && n.lease.None?
  }

  lemma HeldMediaRow(db: Db, c: Call, claim: MediaClaim)
    requires Inv(db) && ValidClock(c.now) && claim.binding == c.ref && MediaIsIssued(db, claim)
    requires MediaStillLeased(db, c, claim)
    ensures MediaLeaseError(db, c, claim).None? && db.media[claim.id].attempts >= 1
  {
    assert MediaOk(db.items, db.media[claim.id]);
  }

  /** A media answer is refused exactly when it contradicts itself or an earlier acknowledgement; otherwise its
      outcome says what became of the one row that it may change. */
  lemma MediaOutcomeExplains(db: Db, c: Call, p: Policy, claim: MediaClaim, response: MediaResponse, available: bool)
    requires Inv(db) && ValidClock(c.now) && claim.binding == c.ref && MediaIsIssued(db, claim) && p.Valid()
    requires response.Refused? ==> AnswerFits(response.response) && !response.response.AccessRevoked?
    ensures var step := MediaSettlement(db, c, p, claim, response, available);
            && (step.result.Err? <==>
                  MediaStillLeased(db, c, claim) && available && Contradicts(db.media[claim.id], claim, response))
            && (step.result.Err? ==> step.db == db)
            && step.db.items == db.items
            && (forall m :: m in db.media && m != claim.id ==> m in step.db.media && step.db.media[m] == db.media[m])
            && (step.result.Ok? && claim.id in db.media ==>
                  claim.id in step.db.media
                  && MediaExplains(db.media[claim.id], step.db.media[claim.id], c, p, claim, response, step.result.value))
  {
    hide Inv;
    if MediaStillLeased(db, c, claim) {
      HeldMediaRow(db, c, claim);
      var m := db.media[claim.id];
      DelayIsBounded(p, m.attempts, m.attempts, None);
      if response.Refused? && response.response.Transient? {
        DelayIsBounded(p, m.attempts, m.attempts, response.response.retryAfter);
      }
    }
  }

  /** Which answer leads to which outcome for a media row that is leased and whose source is there. */
  ghost predicate MediaDecides(m: Media, n: Media, c: Call, p: Policy, claim: MediaClaim, response: MediaResponse,
                               result: Result<Outcome, Error>) {
    match response
    case Accepted(evidence, upload, ready) =>
      result.Ok? ==>
        && result == Ok(Delivered) && n.evidence == Some(evidence) && n.settled == Some(claim.token) && n.lease.None?
        && (if claim.operation.Manifest? && upload then n.state.PendingContent? && n.next == c.now && n.terminal.None?
            else n.state.MediaReady? && n.terminal == Some(c.now))
    case Refused(r) =>
      if r.Cancelled? || r.ContextChanged? then result == Ok(Fenced) && n == m
      else if r.Permanent? || m.attempts >= p.totalAttempts then
        result == Ok(Outcome.Blocked)
        && n == m.(state := MediaBlocked, error := Some(RemoteRejected), terminal := Some(c.now), lease := None)
      else
        && m.attempts >= 1
        && var seconds := Delay(p, m.attempts, if r.Transient? then r.retryAfter else None);
           && result == Ok(Retried(seconds))
           && n == m.(state := if claim.operation.Manifest? then PendingManifest else PendingContent, lease := None,
                      next := c.now + seconds * 1000, error := Some(RetryLater))
  }

  lemma MediaAnswerDecides(db: Db, c: Call, p: Policy, claim: MediaClaim, response: MediaResponse)
    requires Inv(db) && ValidClock(c.now) && claim.binding == c.ref && MediaIsIssued(db, claim) && p.Valid()
    requires MediaStillLeased(db, c, claim)
    requires response.Refused? ==> AnswerFits(response.response) && !response.response.AccessRevoked?
    ensures var step := MediaSettlement(db, c, p, claim, response, true);
            && (step.result.Err? <==> Contradicts(db.media[claim.id], claim, response))
            && claim.id in step.db.media && step.db.media == db.media[claim.id := step.db.media[claim.id]]
            && MediaDecides(db.media[claim.id], step.db.media[claim.id], c, p, claim, response, step.result)
  {
    hide Inv, Delay;
    MediaOutcomeExplains(db, c, p, claim, response, true);
    HeldMediaRow(db, c, claim);
  }

  /** Revoked access pauses the binding, whatever media was claimed. */
  lemma MediaAuthorityErrorPauses(db: Db, c: Call, p: Policy, target: Target, claim: MediaClaim)
    requires Inv(db) && SameContext(db, c.scope, c.ref, target) && MediaStillLeased(db, c, claim)
    ensures var step := MediaSettlement(db, c, p, claim, Refused(AccessRevoked), true);
            && step.result == Ok(Outcome.Blocked) && c.ref.id in step.db.bindings
            && step.db.bindings[c.ref.id].state.Paused? && BindingUnleased(step.db, c.ref.id)
            && !SameContext(step.db, c.scope, c.ref, target)
  {
    hide ChangeRows, Inv;
    ReleasedRows(db, c.ref.id);
  }

  // ----------------------------------------------------------- the steps of the pass

  lemma PassStarts(db: Db, c: Call, source: Entity -> SourceState)
    ensures PartWay(db, db, c, [], source)
  {
    ExamineNothing(db.items, c, source);
  }

  lemma PassRefused(db: Db, c: Call, page: seq<Id>, source: Entity -> SourceState)
    ensures Open(db, c).Err? ==> PassOver(db, c, page, source) == Step(db, Err(Open(db, c).error))
  {
    hide Open, ReconcileThenPrune, Examine;
  }

  lemma RowAsBefore(before: Db, db: Db, c: Call, page: seq<Id>, n: nat, source: Entity -> SourceState)
    requires n < |page| && page[n] in before.items && page[n] !in page[..n]
    requires PartWay(before, db, c, page[..n], source)
    ensures page[n] in db.items && db.items[page[n]] == before.items[page[n]]
  {
    hide Open;
    ExamineOneMore(before.items, c, page, n, source);
  }

  lemma PageIsEligible(db: Db, binding: Id, cursor: Option<Id>, rows: nat, page: seq<Id>)
    requires IsPass(Eligible(db.items, binding), cursor, rows, page, LastOf(page))
    ensures forall n :: 0 <= n < |page| ==>
              page[n] in db.items && IsEligible(db.items[page[n]], binding) && page[n] !in page[..n]
  {
  }

  /** What the withdrawal of the next row of the page does, part of the way through it. */
  lemma WithdrawalPartWay(before: Db, db: Db, c: Call, page: seq<Id>, n: nat, source: Entity -> SourceState)
    requires n < |page| && page[n] in before.items && before.items[page[n]].binding == c.ref.id
    requires page[n] !in page[..n] && PartWay(before, db, c, page[..n], source)
    requires SourceReason(before.items[page[n]], source, c.now).Some?
    ensures var step := WithdrawItem(db, c, page[n], SourceReason(before.items[page[n]], source, c.now).value);
            if step.result.Ok? then PartWay(before, step.db, c, page[..n + 1], source)
            else Open(before, c) == Err(step.result.error)
  {
    hide WithdrawRow, Examine;
    ExamineOneMore(before.items, c, page, n, source);
  }

  lemma KeptPartWay(before: Db, db: Db, c: Call, page: seq<Id>, n: nat, source: Entity -> SourceState)
    requires n < |page| && page[n] in before.items && page[n] !in page[..n]
    requires PartWay(before, db, c, page[..n], source)
    requires SourceReason(before.items[page[n]], source, c.now).None?
    ensures PartWay(before, db, c, page[..n + 1], source)
  {
    hide Examine;
    ExamineOneMore(before.items, c, page, n, source);
  }

  lemma MediaReadsNoKey(db: Db, c: Call, limits: Limits)
    ensures MediaModel.Reconcile(db, Call(0, limits, c.scope, c.ref, c.now)) == MediaModel.Reconcile(db, c)
  {
  }

  lemma TouchedOpens(db: Db, c: Call)
    requires Open(db, c).Ok?
    ensures Open(Touch(db, c), c).Ok? && Touch(Touch(db, c), c) == Touch(db, c)
  {
  }

  lemma TouchedMirrors(db: Db, c: Call)
    requires c.ref.id in db.bindings
    ensures MediaModel.Reconcile(Touch(db, c), c).db == Touch(MediaModel.Reconcile(db, c).db, c)
    ensures MediaModel.Reconcile(Touch(db, c), c).result == MediaModel.Reconcile(db, c).result
  {
    assert SyncParent(Touch(db, c), c.ref.id, c.now) == SyncParent(db, c.ref.id, c.now);
  }

  lemma TouchedPrunes(db: Db, c: Call, limit: int)
    requires Open(db, c).Ok?
    ensures var r, t := PruneTerminal(db, c, limit), PruneTerminal(Touch(db, c), c, limit);
            r.result == t.result && (r.result.Ok? ==> r.db == t.db)
  {
    hide Open;
    OpenMeansBound(db, c);
    TouchedOpens(db, c);
    assert limit >= 0 ==> PruneSet(Touch(db, c), c, limit) == PruneSet(db, c, limit);
    assert forall k :: Referenced(Touch(db, c), k) <==> Referenced(db, k);
  }

  lemma SameOpening(db: Db, other: Db, c: Call)
    requires db.bindings == other.bindings
    ensures Open(db, c) == Open(other, c)
  {
  }

  lemma RefusedMirrors(db: Db, c: Call)
    ensures MediaModel.Reconcile(db, c).result.Err? ==> Open(db, c) == Err(MediaModel.Reconcile(db, c).result.error)
    ensures MediaModel.Reconcile(db, c).db.bindings == db.bindings
  {
  }

  /** After the page, mirroring and pruning see the same clock whether or not a row was withdrawn. */
  lemma PassEnds(before: Db, db: Db, c: Call, page: seq<Id>, source: Entity -> SourceState)
    requires PartWay(before, db, c, page, source)
    ensures MediaModel.Reconcile(db, c).result.Err? ==> Open(before, c) == Err(MediaModel.Reconcile(db, c).result.error)
    ensures var step := OutboxModel.PruneTerminal(MediaModel.Reconcile(db, c).db, c, 100);
            PassOver(before, c, page, source) == if step.result.Err? then Step(before, step.result) else step
  {
    hide MediaModel.Reconcile, Open, Examine, PruneSet, Referenced;
    var read := before.(items := Examine(before.items, c, page, source));
    SameOpening(read, before, c);
    RefusedMirrors(db, c);
    SameOpening(MediaModel.Reconcile(db, c).db, db, c);
    if Open(before, c).Ok? {
      OpenMeansBound(before, c);
      TouchedMirrors(read, c);
      TouchedOpens(read, c);
      RefusedMirrors(read, c);
      SameOpening(MediaModel.Reconcile(read, c).db, read, c);
      TouchedPrunes(MediaModel.Reconcile(read, c).db, c, 100);
      assert db == read || db == Touch(read, c);
    } else {
      SameOpening(db, before, c);
    }
  }

  lemma OpenMeansBound(db: Db, c: Call)
    requires Open(db, c).Ok?
    ensures c.ref.id in db.bindings
  {
  }

  lemma ExamineNothing(items: map<Id, Item>, c: Call, source: Entity -> SourceState)
    ensures Examine(items, c, [], source) == items
  {
  }

  lemma ExamineOneMore(items: map<Id, Item>, c: Call, page: seq<Id>, n: nat, source: Entity -> SourceState)
    requires n < |page| && page[n] in items && page[n] !in page[..n]
    ensures page[n] in Examine(items, c, page[..n], source)
    ensures Examine(items, c, page[..n], source)[page[n]] == items[page[n]]
    ensures Examine(items, c, page[..n + 1], source)
         == Examine(items, c, page[..n], source)[page[n] := ExamineRow(c, page[n], items[page[n]], source)]
  {
    hide ExamineRow;
    assert page[..n + 1] == page[..n] + [page[n]];
  }

  function LastOf(page: seq<Id>): Option<Id> {
    if page == [] then None else Some(page[|page| - 1])
  }
}
