/** Short runs from the empty database that end where a promise one might expect does not hold. */
module OutboxWitnesses {
  import opened Basics
  import opened OutboxModel
  import opened MediaModel
  import opened OutboxInvariant
  import opened MediaSteps
  import opened OutboxRuns
  import opened OutboxHistory
  import opened OutboxTheorems
  import opened OutboxRetention
  import opened OutboxAttempts
  import opened DeliveryAttempts
  import opened DeliveryModel
  import opened DeliveryPass

  const LIMITS := Limits(9, 9, 9, 9, 10_000, 10_000, 9, 9)
  const SCOPE := Scope(1, 2, 3)
  const TARGET := Target(1, 2, 3, 4, 5)
  const ENTITY := Entity(LiveEvent, 7)
  const BODY := ObservationBody(SourceId(SCOPE, 5, ENTITY), 4, 1, 100)
  const OBSERVATION := MappedObservation(ENTITY, BODY, 1, 100_000)
  const FRAME := Frame(0, 8, 1)

  function At(generation: int, now: int): Call {
    Call(9, LIMITS, SCOPE, Ref(5, generation), now)
  }

  // ------------------------------------------------------------- building up a run

  /** The run is allowed and ends with these tables at this time; its tokens and rows are among the given ones. */
  ghost predicate Ends(es: seq<Event>, db: Db, now: int, issued: set<Id>, created: set<Id>) {
    var w := Run(START, es);
    AllAllowed(START, es, LIMITS) && w.db == db && w.now == now && w.issued.Keys <= issued && w.created.Keys <= created
  }

  lemma Extend(es: seq<Event>, e: Event, db: Db, now: int, issued: set<Id>, created: set<Id>, db': Db)
    requires Ends(es, db, now, issued, created) && Effect(db, e) == db'
    requires e.Time(now) >= now && (!e.DoPauseRow? && !e.DoRestore? ==> e.c.limits == LIMITS)
    requires TokenOf(e).Some? ==> TokenOf(e).value !in issued
    requires e.DoEnqueue? ==> e.id !in created
    requires e.DoEnqueueMedia? ==> e.id !in db.media
    ensures Ends(es + [e], db', e.Time(now), issued + (if TokenOf(e).Some? then {TokenOf(e).value} else {}),
                 created + db'.items.Keys)
  {
    hide Effect, Run, AllAllowed;
    var w := Run(START, es);
    RunAppend(START, es, [e], LIMITS);
    RunOne(w, e);
    AllowedOne(w, e);
    ExtendedWorld(w, e);
  }

  lemma AllowedOne(w: World, e: Event)
    ensures AllAllowed(w, [e], LIMITS) <==> Allowed(w, e, LIMITS)
  {
    assert [e][1..] == [];
  }

  lemma ExtendedWorld(w: World, e: Event)
    ensures Next(w, e).db == Effect(w.db, e) && Next(w, e).now == e.Time(w.now)
    ensures Next(w, e).created.Keys <= w.created.Keys + Effect(w.db, e).items.Keys
    ensures Next(w, e).issued.Keys <= w.issued.Keys + (if TokenOf(e).Some? then {TokenOf(e).value} else {})
  {
    hide Effect, SettledBy;
    NextDb(w, e);
    IssuedIsDrawn(w.db, e, w.epoch);
    hide IssuedBy;
  }

  // -------------------------------------------------- one observation has been queued

  const PAUSED := Binding(SCOPE, 1, TARGET, 9, Paused, 0, 0, 0)
  const ACTIVE := Binding(SCOPE, 2, TARGET, 9, Active, 0, 0, 0)
  const QUEUED := NewItem(At(2, 1), OBSERVATION, 6)
  const QUEUED_DB := Db(map[5 := ACTIVE.(clock := 1)], map[6 := QUEUED], map[], map[])

  const QUEUEING := [
    DoCreate(At(1, 0), 0, TARGET), DoSetPaused(At(1, 0), false), DoEnqueue(At(2, 1), OBSERVATION, 6)]

  lemma Created()
    ensures CreateBinding(START.db, At(1, 0), 0, TARGET).db == Db(map[5 := PAUSED], map[], map[], map[])
  {
    assert BindingsOf(map[], 1) == {};
  }

  lemma ResumedOnce()
    ensures SetPaused(Db(map[5 := PAUSED], map[], map[], map[]), At(1, 0), false).db
         == Db(map[5 := ACTIVE], map[], map[], map[])
  {
    assert ChangeRows(map[], 5, Release) == map[];
  }

  lemma NothingIsFull(db: Db)
    requires db.items == map[]
    ensures QuotaError(db, At(2, 1), 138).None?
  {
    forall sel ensures Records(db.bindings, db.items, sel) == {} && Waiting(db.bindings, db.items, sel) == {}
                       && Charges(db.bindings, db.items, sel) == map[] {}
    assert CreatedSince(db.items, 5, 1 - DAY_MS) == {};
    assert Sum(map[]) == 0;
  }

  lemma EnqueuedOnce()
    ensures Enqueue(Db(map[5 := ACTIVE], map[], map[], map[]), At(2, 1), OBSERVATION, 6).db == QUEUED_DB
  {
    hide QuotaError;
    var db := Db(map[5 := ACTIVE], map[], map[], map[]);
    NothingIsFull(db);
    assert !exists k :: IsRow(db, 5, ENTITY, k);
  }

  lemma Queues()
    ensures Ends(QUEUEING, QUEUED_DB, 1, {}, {6})
  {
    hide Run, AllAllowed, CreateBinding, SetPaused, Enqueue;
    var e := QUEUEING;
    var first, second := Db(map[5 := PAUSED], map[], map[], map[]), Db(map[5 := ACTIVE], map[], map[], map[]);
    Created();
    ResumedOnce();
    EnqueuedOnce();
    NothingEnds();
    Extend([], e[0], START.db, 0, {}, {}, first);
    Extend([] + [e[0]], e[1], first, 0, {}, {}, second);
    Extend([] + [e[0]] + [e[1]], e[2], second, 0, {}, {}, QUEUED_DB);
    assert [] + [e[0]] + [e[1]] + [e[2]] == e;
  }

  lemma NothingEnds()
    ensures Ends([], START.db, 0, {}, {})
  {
  }

  // ------------------------------------------------------- a pass that is refused for good

  const CANCELLED := QUEUED.(state := ItemState.Cancelled, payload := None, terminal := Some(1))
  const REFERENCE := Media(
    6, 5, SourceId(SCOPE, 5, ENTITY), ENTITY, FRAME, 100_000, 1, PendingManifest, 0, false, 1, None, None, None, None, None)

  const REFERENCED_DB := QUEUED_DB.(media := map[10 := REFERENCE])
  const STUCK_DB := REFERENCED_DB.(items := map[6 := CANCELLED])

  /** An observation is queued with its media and deleted locally before anything was sent. */
  const STUCK := QUEUEING + [DoEnqueueMedia(At(2, 1), 6, Some(FRAME), 10)] + [DoWithdraw(At(2, 1), 6, LocalDeleted)]

  lemma ReferencedOnce(db: Db)
    requires 6 in db.items && db.items[6].binding == 5 && db.items[6].operation.Observation? && db.media == map[]
    requires db.items[6].source == SourceId(SCOPE, 5, ENTITY) && db.items[6].entity == ENTITY
    requires db.items[6].deadline == 100_000
    ensures EnqueueOverview(db, At(2, 1), 6, Some(FRAME), 10).db == db.(media := map[10 := REFERENCE])
  {
    assert !exists m :: IsMediaOf(db, 6, m);
  }

  lemma WithdrawnOnce()
    ensures WithdrawItem(REFERENCED_DB, At(2, 1), 6, LocalDeleted).db == STUCK_DB
  {
    assert WithdrawRow(9, SCOPE, 6, QUEUED, LocalDeleted, 1) == CANCELLED;
    assert map[6 := QUEUED][6 := CANCELLED] == map[6 := CANCELLED];
    assert map[5 := ACTIVE.(clock := 1)][5 := ACTIVE.(clock := 1)] == map[5 := ACTIVE.(clock := 1)];
  }

  lemma Sticks()
    ensures Ends(STUCK, STUCK_DB, 1, {}, {6})
  {
    hide Run, AllAllowed, EnqueueOverview, WithdrawItem;
    var media, withdraw := DoEnqueueMedia(At(2, 1), 6, Some(FRAME), 10), DoWithdraw(At(2, 1), 6, LocalDeleted);
    Queues();
    ReferencedOnce(QUEUED_DB);
    WithdrawnOnce();
    Extend(QUEUEING, media, QUEUED_DB, 1, {}, {6}, REFERENCED_DB);
    Extend(QUEUEING + [media], withdraw, REFERENCED_DB, 1, {}, {6}, STUCK_DB);
    assert {6} + REFERENCED_DB.items.Keys == {6} && {6} + STUCK_DB.items.Keys == {6};
  }

  lemma StuckIsSelected()
    ensures 6 in PruneSet(STUCK_DB, At(2, 40 * DAY_MS), 100)
  {
    var cutoff := 9 * DAY_MS;
    var keys := PruneKeys(STUCK_DB.items, 5, cutoff);
    assert Prunable(STUCK_DB.items[6], 5, cutoff);
    assert keys == {Key(0, 1, 6)};
    assert Below(keys, Key(0, 1, 6)) == {};
    assert Key(0, 1, 6) in First(keys, 100);
  }

  /** If the sender does not look at this database for a month, its pass is refused in a reachable world. */
  lemma PruneCanBeBlocked()
    ensures AllAllowed(START, STUCK, LIMITS) && Open(Run(START, STUCK).db, At(2, 40 * DAY_MS)).Ok?
    ensures ReconcileThenPrune(Run(START, STUCK).db, At(2, 40 * DAY_MS), 100).result == Err(ForeignKeyHeld)
  {
    hide Run, AllAllowed, Inv, PruneSet, ReconcileThenPrune;
    Sticks();
    StuckIsSelected();
    ReachableInv(STUCK, LIMITS);
    BlockedForGood(STUCK_DB, At(2, 40 * DAY_MS), At(2, 40 * DAY_MS), 100, 10);
  }

  /** And from then on the binding never delivers anything again by itself. */
  lemma DeliveryCanStop(p: Policy, sendsMedia: bool, attempts: seq<Attempt>)
    requires forall i :: 0 <= i < |attempts| ==> IsAttempt(Run(START, STUCK).db, At(2, 40 * DAY_MS), attempts[i])
    ensures AfterAttempts(Run(START, STUCK).db, At(2, 40 * DAY_MS), p, sendsMedia, attempts) == Run(START, STUCK).db
    ensures forall i | 0 <= i < |attempts| ::
              var a := attempts[i];
              Transaction(Run(START, STUCK).db, At(2, a.now), p, a.page, a.source, a.token, sendsMedia).result
                == Err(ForeignKeyHeld)
  {
    hide Run, AllAllowed, Inv, PruneSet, Transaction, AfterAttempts, IsAttempt;
    Sticks();
    StuckIsSelected();
    ReachableInv(STUCK, LIMITS);
    DeliveryStops(STUCK_DB, At(2, 40 * DAY_MS), p, sendsMedia, attempts, 10);
  }

  // ------------------------------------------------------- a stop that media outlives

  const SOURCE := SourceId(SCOPE, 5, ENTITY)
  const LEASED := LeaseRow(QUEUED, 11, 20_001, 2)
  const CLAIM := Claim(6, Ref(5, 2), 11, Observation, SOURCE, BODY, 20_001, 1, 100_000)
  const RECEIVED := AcknowledgeRow(LEASED, 11, 12, 1)
  const SENDING := LeaseMedia(REFERENCE, 13, 20_001, 2)
  const MEDIA_CLAIM := MediaClaim(10, Ref(5, 2), 13, Manifest, SOURCE, ENTITY, FRAME, None, 20_001)

  const LEASED_DB := QUEUED_DB.(items := map[6 := LEASED], capacity := map[1 := Reservation(11, 20_001)])
  const RECEIVED_DB := QUEUED_DB.(items := map[6 := RECEIVED])
  const REFERRING_DB := RECEIVED_DB.(media := map[10 := REFERENCE])
  const SENDING_DB := RECEIVED_DB.(media := map[10 := SENDING], capacity := map[1 := Reservation(13, 20_001)])

  const CLAIMING := DoClaim(At(2, 1), 20, 11)
  const RECEIVING := DoAcknowledge(At(2, 1), CLAIM, 12)
  const REFERRING := DoEnqueueMedia(At(2, 1), 6, Some(FRAME), 10)
  const MEDIA_CLAIMING := DoClaimMedia(At(2, 1), 20, 13)

  /** An observation is delivered and its media is being sent. */
  const SENDING_MEDIA := QUEUEING + [CLAIMING] + [RECEIVING] + [REFERRING] + [MEDIA_CLAIMING]

  lemma ClaimedOnce()
    ensures Effect(QUEUED_DB, CLAIMING) == LEASED_DB
  {
    assert Sweep(QUEUED_DB, At(2, 1)) == QUEUED_DB;
    assert 6 in QUEUED_DB.items && IsDue(QUEUED_DB.items[6], 5, Active, 1);
    assert DueKey(6, QUEUED) == Key(1, 1, 6);
    assert Key(1, 1, 6) in DueKeys(QUEUED_DB.items, 5, Active, 1);
    assert DueKeys(QUEUED_DB.items, 5, Active, 1) == {Key(1, 1, 6)};
    assert Least({Key(1, 1, 6)}) == Key(1, 1, 6);
    assert Decodes(9, SCOPE, 6, QUEUED);
  }

  lemma AcknowledgedOnce()
    ensures Effect(LEASED_DB, RECEIVING) == RECEIVED_DB
  {
    assert Free(LEASED_DB.capacity, 1, 11) == map[];
  }

  lemma MediaClaimedOnce()
    ensures Effect(REFERRING_DB, MEDIA_CLAIMING) == SENDING_DB
  {
    assert SyncParent(REFERRING_DB, 5, 1) == REFERRING_DB.media;
    assert ReclaimMedia(REFERRING_DB.media, 5, 1) == REFERRING_DB.media;
    assert 10 in REFERRING_DB.media && IsMediaDue(REFERRING_DB, REFERRING_DB.media[10], 5, 1);
    assert Key(0, 1, 10) in MediaDueKeys(REFERRING_DB, 5, 1);
    assert MediaDueKeys(REFERRING_DB, 5, 1) == {Key(0, 1, 10)};
    assert Least({Key(0, 1, 10)}) == Key(0, 1, 10);
  }

  lemma ReferredOnce()
    ensures Effect(RECEIVED_DB, REFERRING) == REFERRING_DB
  {
    hide EnqueueOverview;
    ReferencedOnce(RECEIVED_DB);
  }

  lemma Receives()
    ensures Ends(QUEUEING + [CLAIMING] + [RECEIVING], RECEIVED_DB, 1, {11}, {6})
  {
    hide Run, AllAllowed, Effect, Ends;
    Queues();
    ClaimedOnce();
    AcknowledgedOnce();
    Extend(QUEUEING, CLAIMING, QUEUED_DB, 1, {}, {6}, LEASED_DB);
    var none: set<Id> := {};
    assert none + {11} == {11} && {11} + none == {11} && {6} + LEASED_DB.items.Keys == {6} && {6} + RECEIVED_DB.items.Keys == {6};
    Extend(QUEUEING + [CLAIMING], RECEIVING, LEASED_DB, 1, {11}, {6}, RECEIVED_DB);
  }

  /** Media being sent when its binding is stopped, with or without the key, is still acknowledged afterwards. */
  lemma MediaOutlivesStops()
    ensures AllAllowed(START, SENDING_MEDIA, LIMITS)
    ensures var db := Run(START, SENDING_MEDIA).db;
            && PauseRow(db, 5).result.Ok? && SetPaused(db, At(2, 1), true).result.Ok?
            && AcknowledgeManifest(PauseRow(db, 5).db, At(2, 2), MEDIA_CLAIM, 14, true, false).result == Ok(())
            && AcknowledgeManifest(SetPaused(db, At(2, 1), true).db, At(2, 2), MEDIA_CLAIM, 14, true, false).result == Ok(())
            && Disconnect(db, At(2, 1), false).result.Ok?
            && AcknowledgeManifest(Disconnect(db, At(2, 1), false).db, At(2, 2), MEDIA_CLAIM, 14, true, false).result == Ok(())
  {
    hide Run, AllAllowed, ChangeRows, AllMediaAnswers;
    Sends();
  }

  // ------------------------------------------------ one claim more than the policy says

  /** Two attempts in all. */
  const TWICE := Policy(1.0, 10.0, 15, 0.5, 1, 1, 1, 2, 1)

  const SECOND_CLAIM := MediaClaim(10, Ref(5, 2), 15, Manifest, SOURCE, ENTITY, FRAME, None, 21_001)

  const TRYING_AGAIN := DoRetryMedia(At(2, 1), MEDIA_CLAIM, 1)
  const CLAIMING_AGAIN := DoClaimMedia(At(2, 1001), 20, 15)
  const ACCEPTING := DoAcknowledgeManifest(At(2, 1001), SECOND_CLAIM, 14, true, false)
  const CLAIMING_CONTENT := DoClaimMedia(At(2, 1001), 20, 16)

  const WAITING := Unlease(SENDING).(next := 1001, error := Some(RetryLater))
  const SENDING_AGAIN := LeaseMedia(WAITING, 15, 21_001, 2)
  const WANTED := SENDING_AGAIN.(state := PendingContent, evidence := Some(14), next := 1001, settled := Some(15),
                                 terminal := None, lease := None, error := None)
  const SENDING_CONTENT := LeaseMedia(WANTED, 16, 21_001, 2)

  const WAITING_DB := RECEIVED_DB.(media := map[10 := WAITING])
  const AGAIN_DB := RECEIVED_DB.(media := map[10 := SENDING_AGAIN], capacity := map[1 := Reservation(15, 21_001)])
  const WANTED_DB := RECEIVED_DB.(media := map[10 := WANTED])
  const CONTENT_DB := RECEIVED_DB.(media := map[10 := SENDING_CONTENT], capacity := map[1 := Reservation(16, 21_001)])

  /** The manifest is accepted at the second of two attempts, and the content is wanted. */
  const ONCE_MORE := SENDING_MEDIA + [TRYING_AGAIN] + [CLAIMING_AGAIN] + [ACCEPTING] + [CLAIMING_CONTENT]

  lemma TriedAgain()
    ensures Effect(SENDING_DB, TRYING_AGAIN) == WAITING_DB && SettledBy(SENDING_DB, TRYING_AGAIN).Some?
  {
    assert Free(SENDING_DB.capacity, 1, 13) == map[];
  }

  /** A media row of the received observation that is due. */
  predicate IsReady(m: Media) {
    && m.binding == 5 && m.parent == 6 && (m.state.PendingManifest? || m.state.PendingContent?)
    && m.next <= 1001 && m.created == 1 && m.deadline == 100_000 && m.lease.None?
  }

  lemma ReadyStays(m: Media)
    requires IsReady(m)
    ensures var db := RECEIVED_DB.(media := map[10 := m]); SweptMedia(db, At(2, 1001)) == db
  {
    var db := RECEIVED_DB.(media := map[10 := m]);
    assert SyncParent(db, 5, 1001) == db.media;
    assert ReclaimMedia(db.media, 5, 1001) == db.media;
  }

  lemma OnlyReadyIsDue(m: Media)
    requires IsReady(m)
    ensures MediaDueKeys(RECEIVED_DB.(media := map[10 := m]), 5, 1001) == {Key(0, 1, 10)}
    ensures Least({Key(0, 1, 10)}) == Key(0, 1, 10)
  {
    var db := RECEIVED_DB.(media := map[10 := m]);
    assert 10 in db.media && IsMediaDue(db, db.media[10], 5, 1001);
    assert Key(0, 1, 10) in MediaDueKeys(db, 5, 1001);
  }

  /** The one media row is claimed when it is due and nothing is held. */
  lemma OnlyRowClaimed(m: Media, token: Id)
    requires IsReady(m)
    ensures Effect(RECEIVED_DB.(media := map[10 := m]), DoClaimMedia(At(2, 1001), 20, token))
         == RECEIVED_DB.(media := map[10 := LeaseMedia(m, token, 21_001, 2)], capacity := map[1 := Reservation(token, 21_001)])
  {
    hide SyncParent, ReclaimMedia, MediaDueKeys, LeaseMedia;
    ReadyStays(m);
    OnlyReadyIsDue(m);
  }

  lemma Accepted()
    ensures Effect(AGAIN_DB, ACCEPTING) == WANTED_DB
  {
    assert Free(AGAIN_DB.capacity, 1, 15) == map[];
  }

  /** One event more, for a run that also obeys the policy for media row 10. */
  lemma ExtendObeying(es: seq<Event>, e: Event, db: Db, now: int, issued: set<Id>, db': Db)
    requires Ends(es, db, now, issued, {6}) && Effect(db, e) == db' && db'.items.Keys == {6}
    requires e.Time(now) >= now && !e.DoPauseRow? && !e.DoRestore? && !e.DoEnqueue? && e.c.limits == LIMITS
    requires TokenOf(e).Some? ==> TokenOf(e).value !in issued
    requires e.DoEnqueueMedia? ==> e.id !in db.media
    requires AllMediaAnswers(es, 10, TWICE) && MediaAnswers(db, e, 10, TWICE)
    ensures Ends(es + [e], db', e.Time(now), issued + (if TokenOf(e).Some? then {TokenOf(e).value} else {}), {6})
    ensures AllMediaAnswers(es + [e], 10, TWICE)
  {
    hide Effect, MediaAnswers, AllAllowed, Run;
    assert {6} + db'.items.Keys == {6};
    Extend(es, e, db, now, issued, {6}, db');
    var more := es + [e];
    forall n | 0 <= n < |more| ensures MediaAnswers(Run(START, more[..n]).db, more[n], 10, TWICE) {
      if n < |es| {
        assert more[..n] == es[..n] && more[n] == es[n];
      } else {
        assert more[..n] == es;
      }
    }
  }

  lemma {:induction false} NoMediaYet(es: seq<Event>)
    requires AllAllowed(START, es, LIMITS) && forall n :: 0 <= n < |es| ==> !es[n].DoEnqueueMedia?
    ensures 10 !in Run(START, es).db.media && AllMediaAnswers(es, 10, TWICE)
    decreases |es|
  {
    hide Run, AllAllowed, WorldInv, Next, Allowed, Effect, Inv, RetryMedia, SettledBy;
    NothingKept();
    if es != [] {
      var before, e := es[..|es| - 1], es[|es| - 1];
      LastStep(es, LIMITS);
      LastIsNew(Run(START, before), e, LIMITS);
      NoMediaYet(before);
      NewRows(Run(START, before).db, e);
      forall n | 0 <= n < |es| ensures MediaAnswers(Run(START, es[..n]).db, es[n], 10, TWICE) {
        if n < |before| {
          assert es[..n] == before[..n] && es[n] == before[n];
        }
      }
    }
  }

  lemma Sends()
    ensures Ends(SENDING_MEDIA, SENDING_DB, 1, {11, 13}, {6}) && AllMediaAnswers(SENDING_MEDIA, 10, TWICE)
  {
    hide Run, AllAllowed, Effect, AllMediaAnswers;
    var es := QUEUEING + [CLAIMING] + [RECEIVING];
    Receives();
    ReferredOnce();
    MediaClaimedOnce();
    NoMediaYet(es);
    var none: set<Id> := {};
    assert {11} + none == {11} && {11} + {13} == {11, 13};
    ExtendObeying(es, REFERRING, RECEIVED_DB, 1, {11}, REFERRING_DB);
    ExtendObeying(es + [REFERRING], MEDIA_CLAIMING, REFERRING_DB, 1, {11}, SENDING_DB);
  }

  lemma ClaimsAgain()
    ensures Ends(SENDING_MEDIA + [TRYING_AGAIN] + [CLAIMING_AGAIN], AGAIN_DB, 1001, {11, 13, 15}, {6})
    ensures AllMediaAnswers(SENDING_MEDIA + [TRYING_AGAIN] + [CLAIMING_AGAIN], 10, TWICE)
  {
    hide Run, AllAllowed, Effect, AllMediaAnswers, SettledBy;
    var es := SENDING_MEDIA;
    Sends();
    TriedAgain();
    OnlyRowClaimed(WAITING, 15);
    var none: set<Id> := {};
    assert {11, 13} + none == {11, 13} && {11, 13} + {15} == {11, 13, 15};
    ExtendObeying(es, TRYING_AGAIN, SENDING_DB, 1, {11, 13}, WAITING_DB);
    ExtendObeying(es + [TRYING_AGAIN], CLAIMING_AGAIN, WAITING_DB, 1, {11, 13}, AGAIN_DB);
  }

  lemma SendsOnceMore()
    ensures Ends(ONCE_MORE, CONTENT_DB, 1001, {11, 13, 15, 16}, {6}) && AllMediaAnswers(ONCE_MORE, 10, TWICE)
  {
    hide Run, AllAllowed, Effect, AllMediaAnswers, SettledBy;
    var es := SENDING_MEDIA + [TRYING_AGAIN] + [CLAIMING_AGAIN];
    ClaimsAgain();
    Accepted();
    OnlyRowClaimed(WANTED, 16);
    var none: set<Id> := {};
    assert {11, 13, 15} + none == {11, 13, 15} && {11, 13, 15} + {16} == {11, 13, 15, 16};
    ExtendObeying(es, ACCEPTING, AGAIN_DB, 1001, {11, 13, 15}, WANTED_DB);
    ExtendObeying(es + [ACCEPTING], CLAIMING_CONTENT, WANTED_DB, 1001, {11, 13, 15}, CONTENT_DB);
  }

  /** A sender that obeys its policy of two attempts sends one media reference three times. */
  lemma MediaGoesBeyondThePolicy()
    ensures TWICE.Valid() && AllAllowed(START, ONCE_MORE, LIMITS) && AllMediaAnswers(ONCE_MORE, 10, TWICE)
    ensures Sent(ONCE_MORE, 10, true) == TWICE.totalAttempts + 1
  {
    hide Run, AllAllowed, AllMediaAnswers, Sent;
    SendsOnceMore();
    MediaAttemptsAreClaims(ONCE_MORE, LIMITS, 10);
  }
}
