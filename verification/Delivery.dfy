/** The sender as the program has it: an object with a cursor and a halt flag whose
    passes and settlements go through the two queues. */
module Delivery {
  import opened Basics
  import opened OutboxModel
  import opened MediaModel
  import opened OutboxInvariant
  import opened OutboxSteps
  import opened MediaSteps
  import opened OutboxDatabase
  import opened MediaDatabase
  import opened DeliveryModel
  import opened DeliveryPass

  class CloudDelivery {
    const policy: Policy
    const media: MediaOutbox
    var halted: bool
    var cursor: Option<Id>
    var cursorBinding: Option<Id>

    constructor (policy: Policy, limits: Limits)
      requires policy.Valid()
      ensures this.policy == policy && !halted && cursor == None && cursorBinding == None
      ensures media.limits == limits
    {
      this.policy := policy;
      media := new MediaOutbox(limits);
      halted, cursor, cursorBinding := false, None, None;
    }

    /** The cursor that a pass over this binding starts from. */
    function Start(binding: Id): Option<Id>
      reads this
    {
      if cursorBinding == Some(binding) then cursor else None
    }

    /** The next page of eligible ids; past the last one it starts again, once. */
    method NextPage(items: map<Id, Item>, binding: Id) returns (page: seq<Id>)
      requires policy.Valid()
      modifies this`cursor
      ensures Source(Eligible(items, binding), old(cursor)) == Source(Eligible(items, binding), cursor)
      ensures IsPass(Eligible(items, binding), old(cursor), policy.reconciliationRows, page, LastOf(page))
      ensures page == [] ==> cursor == None
      decreases if cursor.Some? then 1 else 0
    {
      var rows := Above(Eligible(items, binding), cursor);
      page := OrderIds(rows, policy.reconciliationRows);
      assert Above(Eligible(items, binding), None) == Eligible(items, binding);
      if page == [] && cursor.Some? {
        assert rows == {};
        cursor := None;
        page := NextPage(items, binding);
      }
    }

    /** Looks again at one page of the rows that may still be sent and withdraws those whose source is
        gone, then mirrors media and prunes. A refusal undoes the pass, but not the movement of the cursor. */
    method Reconcile(conn: Database, outbox: Outbox, scope: Scope, ref: Ref, source: Entity -> SourceState, now: int)
      returns (r: Result<nat, Error>, page: seq<Id>)
      requires conn.Valid() && policy.Valid()
      modifies conn, this`cursor, this`cursorBinding
      ensures IsPass(Eligible(old(conn.items), ref.id), old(Start(ref.id)), policy.reconciliationRows, page, LastOf(page))
      ensures Step(conn.Tables(), r) == PassOver(old(conn.Tables()), outbox.CallOf(scope, ref, now), page, source)
      ensures r.Ok? ==> Start(ref.id) == LastOf(page)
      ensures conn.Valid()
    {
      hide Inv, IsPass, Examine, ExamineRow, WithdrawItem, PartWay, PassOver, Open, MediaModel.Reconcile, OutboxModel.PruneTerminal;
      var savepoint := conn.Tables();
      ghost var c := outbox.CallOf(scope, ref, now);
      ghost var before := conn.Tables();
      if cursorBinding != Some(ref.id) {
        cursor, cursorBinding := None, Some(ref.id);
      }
      page := NextPage(conn.items, ref.id);
      PageIsEligible(before, ref.id, old(Start(ref.id)), policy.reconciliationRows, page);
      var n := 0;
      PassStarts(before, c, source);
      while n < |page|
        invariant n <= |page| && conn.Valid()
        invariant PartWay(before, conn.Tables(), c, page[..n], source)
        invariant cursorBinding == Some(ref.id)
        invariant if n == 0 then (page == [] ==> cursor == None) else cursor == Some(page[n - 1])
      {
        cursor := Some(page[n]);
        RowAsBefore(before, conn.Tables(), c, page, n, source);
        var row := conn.items[page[n]];
        var reason := SourceReason(row, source, now);
        if reason.Some? {
          WithdrawalPartWay(before, conn.Tables(), c, page, n, source);
          PassRefused(before, c, page, source);
          var withdrawn := outbox.Withdraw(conn, scope, ref, page[n], reason.value, now);
          if withdrawn.Err? {
            conn.RollBack(savepoint);
            return Err(withdrawn.error), page;
          }
        } else {
          KeptPartWay(before, conn.Tables(), c, page, n, source);
        }
        n := n + 1;
      }
      assert page[..n] == page;
      PassRefused(before, c, page, source);
      PassEnds(before, conn.Tables(), c, page, source);
      MediaReadsNoKey(conn.Tables(), c, media.limits);
      var mirrored := media.Reconcile(conn, scope, ref, now);
      if mirrored.Err? {
        conn.RollBack(savepoint);
        return Err(mirrored.error), page;
      }
      r := outbox.PruneTerminal(conn, scope, ref, 100, now);
      if r.Err? {
        conn.RollBack(savepoint);
      }
    }

    /** The first transaction of a pass: nothing is claimed unless the reconciling pass is accepted, and a refusal
        anywhere undoes all of it. */
    method Begin(conn: Database, outbox: Outbox, scope: Scope, ref: Ref, source: Entity -> SourceState, now: int,
                 token: Id, sendsMedia: bool)
      returns (r: Result<Request, Error>, page: seq<Id>)
      requires conn.Valid() && policy.Valid()
      modifies conn, this`cursor, this`cursorBinding
      ensures ReadsEligible(old(conn.Tables()), ref.id, page)
      ensures Step(conn.Tables(), r)
           == Transaction(old(conn.Tables()), outbox.CallOf(scope, ref, now), policy, page, source, token, sendsMedia)
      ensures conn.Valid()
    {
      hide Inv, PassOver, ClaimItem, ClaimMedia;
      var savepoint := conn.Tables();
      ghost var c := outbox.CallOf(scope, ref, now);
      var pass: Result<nat, Error>;
      pass, page := Reconcile(conn, outbox, scope, ref, source, now);
      PageIsEligible(savepoint, ref.id, old(Start(ref.id)), policy.reconciliationRows, page);
      if pass.Err? {
        conn.RollBack(savepoint);
        return Err(pass.error), page;
      }
      var item := outbox.Claim(conn, scope, ref, now, policy.leaseSeconds, token);
      if item.Err? {
        conn.RollBack(savepoint);
        return Err(item.error), page;
      }
      if item.value.Some? {
        return Ok(ItemRequest(item.value.value)), page;
      }
      if !sendsMedia {
        return Ok(NoRequest), page;
      }
      MediaClaimReadsNoKey(conn.Tables(), c, media.limits, policy.leaseSeconds, token);
      var reference := media.Claim(conn, scope, ref, now, policy.leaseSeconds, token);
      if reference.Err? {
        conn.RollBack(savepoint);
        return Err(reference.error), page;
      }
      return Ok(if reference.value.Some? then MediaRequest(reference.value.value) else NoRequest), page;
    }

    /** Whether the context that the sender started with is still the one it would get now. */
    method StillSame(conn: Database, scope: Scope, ref: Ref, target: Target, sameCredential: bool) returns (same: bool)
      ensures same == (sameCredential && SameContext(conn.Tables(), scope, ref, target))
    {
      if ref.id !in conn.bindings {
        return false;
      }
      var current := conn.bindings[ref.id];
      return sameCredential && current.scope == scope && current.state.Active? && current.generation == ref.generation
             && current.target == target;
    }

    /** Asked before a request is sent and again while it runs; a source that is gone withdraws the row. */
    method Authorize(conn: Database, outbox: Outbox, scope: Scope, ref: Ref, target: Target, claim: Claim,
                     source: Entity -> SourceState, now: int, stopped: bool, sameCredential: bool)
      returns (r: Result<bool, Error>)
      requires conn.Valid()
      modifies conn
      ensures Step(conn.Tables(), r)
           == if stopped || !sameCredential then Step(old(conn.Tables()), Ok(false))
              else Authorisation(old(conn.Tables()), outbox.CallOf(scope, ref, now), target, claim, source)
      ensures conn.Valid()
    {
      hide Inv, WithdrawItem;
      if stopped {
        return Ok(false);
      }
      var same := StillSame(conn, scope, ref, target, sameCredential);
      if !same {
        return Ok(false);
      }
      if claim.id !in conn.items || conn.items[claim.id].binding != ref.id {
        return Ok(false);
      }
      if now < conn.bindings[ref.id].clock {
        return Err(ClockRollback);
      }
      var row := conn.items[claim.id];
      if !(row.state.Leased? && row.lease.Some?) || row.lease.value.token != claim.token
         || row.lease.value.generation != ref.generation || row.operation != claim.operation || now >= claim.until {
        return Ok(false);
      }
      if claim.operation.Observation? {
        var reason := SourceReason(row, source, now);
        if reason.Some? {
          var done := outbox.Withdraw(conn, scope, ref, claim.id, reason.value, now);
          return if done.Ok? then Ok(false) else Err(done.error);
        }
      }
      return Ok(true);
    }

    /** Uses one answer, unless the sender was stopped or its context changed. */
    method Settle(conn: Database, outbox: Outbox, scope: Scope, ref: Ref, target: Target, claim: Claim,
                  response: Response,
                  source: Entity -> SourceState, now: int, stopped: bool, sameCredential: bool)
      returns (r: Result<Outcome, Error>)
      requires conn.Valid() && policy.Valid()
      modifies conn, this`halted
      ensures var c := outbox.CallOf(scope, ref, now);
              Step(conn.Tables(), r)
                == if stopped || !sameCredential || !SameContext(old(conn.Tables()), scope, ref, target)
                   then Step(old(conn.Tables()), Ok(Fenced))
                   else Settlement(old(conn.Tables()), c, policy, claim, response, source)
      ensures halted == (old(halted) || (!stopped && sameCredential && response.Halting?
                         && SameContext(old(conn.Tables()), scope, ref, target)))
      ensures conn.Valid()
    {
      hide Inv, WithdrawItem, AcknowledgeItem, RejectItem, RetryItem, OutboxModel.PauseRow;
      if stopped {
        return Ok(Fenced);
      }
      var same := StillSame(conn, scope, ref, target, sameCredential);
      if !same {
        return Ok(Fenced);
      }
      if response.AccessRevoked? || response.Halting? {
        halted := halted || response.Halting?;
        var paused := OutboxDatabase.PauseRow(conn, ref.id);
        return Ok(Outcome.Blocked);
      }
      if claim.id !in conn.items || conn.items[claim.id].binding != ref.id {
        return Ok(Fenced);
      }
      var row := conn.items[claim.id];
      if !(row.state.Leased? && row.lease.Some?) || row.lease.value.token != claim.token
         || row.lease.value.generation != ref.generation || row.operation != claim.operation || now >= claim.until {
        return Ok(Fenced);
      }
      var done: Result<(), Error>;
      if claim.operation.Observation? && SourceReason(row, source, now).Some? {
        done := outbox.Withdraw(conn, scope, ref, claim.id, SourceReason(row, source, now).value, now);
        return if done.Ok? then Ok(Fenced) else Err(done.error);
      }
      if response.Answered? {
        done := outbox.Acknowledge(conn, scope, ref, claim, response.receipt, now);
        return if done.Ok? then Ok(Delivered) else Err(done.error);
      }
      if response.Cancelled? || response.ContextChanged? {
        return Ok(Fenced);
      }
      if response.Permanent? || row.attempts >= MaximumAttempts(policy, claim.operation) {
        var code := if response.Permanent? && response.conflict then RemoteConflict else RemoteRejected;
        done := outbox.Reject(conn, scope, ref, claim, code, now);
        return if done.Ok? then Ok(Outcome.Blocked) else Err(done.error);
      }
      ClaimedWasAttempted(conn.Tables(), claim.id);
      var seconds := Delay(policy, row.attempts, response.retryAfter);
      done := outbox.Retry(conn, scope, ref, claim, seconds, now);
      return if done.Ok? then Ok(Retried(seconds)) else Err(done.error);
    }

    /** Uses one media answer, unless the context or the media's source changed. */
    method SettleMedia(conn: Database, scope: Scope, ref: Ref, target: Target, claim: MediaClaim,
                       response: MediaResponse,
                       available: bool, now: int, sameCredential: bool)
      returns (r: Result<Outcome, Error>)
      requires conn.Valid() && policy.Valid()
      modifies conn
      ensures var c := media.CallOf(scope, ref, now);
              Step(conn.Tables(), r)
                == if !sameCredential || !SameContext(old(conn.Tables()), scope, ref, target)
                   then Step(old(conn.Tables()), Ok(Fenced))
                   else MediaSettlement(old(conn.Tables()), c, policy, claim, response, available)
      ensures conn.Valid()
    {
      hide Inv, MediaModel.AcknowledgeManifest, MediaModel.AcknowledgeContent, RejectMedia, RetryMedia, OutboxModel.PauseRow;
      var same := StillSame(conn, scope, ref, target, sameCredential);
      if !same || claim.id !in conn.media || !available {
        return Ok(Fenced);
      }
      var row := conn.media[claim.id];
      var expected := if claim.operation.Manifest? then LeasedManifest else LeasedContent;
      if row.binding != ref.id || row.state != expected || row.lease.None? || row.lease.value.token != claim.token
         || row.lease.value.generation != ref.generation || now >= claim.until {
        return Ok(Fenced);
      }
      if response.Refused? && response.response.AccessRevoked? {
        var paused := OutboxDatabase.PauseRow(conn, ref.id);
        return Ok(Outcome.Blocked);
      }
      var done: Result<(), Error>;
      if response.Accepted? {
        if claim.operation.Manifest? {
          done := media.AcknowledgeManifest(conn, scope, ref, claim, response.evidence, response.upload, response.ready, now);
        } else {
          done := media.AcknowledgeContent(conn, scope, ref, claim, response.evidence, response.ready, now);
        }
        return if done.Ok? then Ok(Delivered) else Err(done.error);
      }
      var answer := response.response;
      if answer.Cancelled? || answer.ContextChanged? {
        return Ok(Fenced);
      }
      if answer.Permanent? || row.attempts >= policy.totalAttempts {
        done := media.Reject(conn, scope, ref, claim, RemoteRejected, now);
        return if done.Ok? then Ok(Outcome.Blocked) else Err(done.error);
      }
      ClaimedMediaWasAttempted(conn.Tables(), claim.id);
      var seconds := Delay(policy, row.attempts, if answer.Transient? then answer.retryAfter else None);
      done := media.Retry(conn, scope, ref, claim, seconds, now);
      return if done.Ok? then Ok(Retried(seconds)) else Err(done.error);
    }
  }

  lemma ClaimedWasAttempted(db: Db, id: Id)
    requires Inv(db) && id in db.items && db.items[id].state.Leased?
    ensures db.items[id].attempts >= 1
  {
    assert RowOk(db.bindings, id, db.items[id]);
  }

  lemma ClaimedMediaWasAttempted(db: Db, id: Id)
    requires Inv(db) && id in db.media && IsLeased(db.media[id])
    ensures db.media[id].attempts >= 1
  {
    assert MediaOk(db.items, db.media[id]);
  }

  function IdKeys(ids: set<Id>): set<Key> {
    set id | id in ids :: Key(0, 0, id)
  }

  lemma IdKeysSize(ids: set<Id>)
    ensures |IdKeys(ids)| == |ids|
  {
    if ids != {} {
      var id :| id in ids;
      IdKeysSize(ids - {id});
      assert IdKeys(ids) == IdKeys(ids - {id}) + {Key(0, 0, id)};
    }
  }

  /** `ORDER BY id LIMIT n`. */
  method OrderIds(ids: set<Id>, limit: nat) returns (page: seq<Id>)
    ensures forall i, j :: 0 <= i < j < |page| ==> page[i] < page[j]
    ensures forall i :: 0 <= i < |page| ==> page[i] in ids
    ensures |page| == if |ids| <= limit then |ids| else limit
    ensures forall id, i :: id in ids && id !in page && 0 <= i < |page| ==> page[i] < id
  {
    hide First;
    var keys := OrderBy(IdKeys(ids), limit);
    FirstIsSelected(IdKeys(ids), limit);
    IdKeysSize(ids);
    assert forall i :: 0 <= i < |keys| ==> keys[i] in Elements(keys);
    page := seq(|keys|, i requires 0 <= i < |keys| => keys[i].id);
    forall id, i | id in ids && id !in page && 0 <= i < |page| ensures page[i] < id {
      assert forall j :: 0 <= j < |keys| ==> keys[j].id == page[j];
      assert Key(0, 0, id) !in Elements(keys);
      assert Before(keys[i], Key(0, 0, id));
    }
  }

  lemma FirstIsSelected(rows: set<Key>, limit: nat)
    ensures First(rows, limit) <= rows
  {
  }
}
