/** The promises of the custody engine: when an alarm is possible, and what can never lead to one. */
module CustodyTheorems {
  import opened Basics
  import opened CustodyCoverage
  import opened CustodyModel
  import opened CustodyHistory

  // ------------------------------------------------------------- the alarm, exactly

  lemma CoverageAgrees(r: RecordState, h: seq<Observation>, b: Bounds, start: int, end: int)
    requires start < end
    requires RemembersSpans(r, h, CustodyContinuousToExit) && RemembersSpans(r, h, CheckoutPathObserved)
    ensures Covers(SpansOf(r, CustodyContinuousToExit), start, end) && Covers(SpansOf(r, CheckoutPathObserved), start, end)
       <==> (forall k :: start <= k < end ==> Watched(h, CustodyContinuousToExit, k) && Watched(h, CheckoutPathObserved, k))
  {
    CoversExact(SpansOf(r, CustodyContinuousToExit), start, end);
    CoversExact(SpansOf(r, CheckoutPathObserved), start, end);
    hide Covers, Watched, SomeContains;
  }

  lemma AlarmedTransitions(h: seq<Observation>, state: CustodyState)
    requires InOrder(h) && Reaches(Transitions(h), state)
    requires LastTime(h, ConcealmentTransition) >= 0
    requires LastTime(h, CheckoutCompleted) < LastTime(h, ShelfDeparture)
    ensures Transitions(h) == CONCEALED
  {
    var t := Transitions(h);
    assert ConcealmentTransition in t;
    assert |t| > 1 && LastTime(h, t[0]) < LastTime(h, t[|t| - 1]);
  }

  lemma AlarmMeans(r: RecordState, h: seq<Observation>, b: Bounds)
    requires Alarming(r, b) && Remembers(r, h)
    ensures LastTime(h, PersonConfirmed) < LastTime(h, ShelfDeparture) < LastTime(h, ConcealmentTransition)
              < LastTime(h, ExitCrossed)
    ensures 0 <= LastTime(h, ShelfDeparture) && LastTime(h, CheckoutCompleted) < LastTime(h, ShelfDeparture)
    ensures LastTime(h, ExitCrossed) + b.posGraceMs <= LastTime(h, NoMatchedCheckoutEvent)
    ensures Covers(SpansOf(r, CustodyContinuousToExit), LastTime(h, ShelfDeparture), LastTime(h, ExitCrossed))
    ensures Covers(SpansOf(r, CheckoutPathObserved), LastTime(h, ShelfDeparture), LastTime(h, ExitCrossed))
    ensures PosReconciliation in r.health && r.health[PosReconciliation].Healthy?
    ensures Shows(h, PersonConfirmed) && Reaches(Transitions(h), r.state)
  {
    assert forall f :: TimeOf(r, f) == LastTime(h, f);
    assert PersonConfirmed in r.facts;
    hide Covers, Reaches, Transitions, LastTime, TimeOf, Shows;
  }

  lemma AlarmIsComplete(h: seq<Observation>, b: Bounds)
    requires AllValid(h) && NoRepeats(h) && Fits(h, b) && b.Valid() && Sound(h, b) && Alarming(Fold(h, b), b)
    ensures Complete(h, b)
  {
    hide Fold, Sound, Reaches, InOrder, RemembersSpans, RemembersWatermark, Transitions, LastTime, Covers, Watched, Fits,
         Alarming, Remembers, Shows, AllValid, NoRepeats;
    var r := Fold(h, b);
    RecordAgrees(h, b);
    SourcesAgree(h, b);
    SoundIsInOrder(h, b);
    AlarmMeans(r, h, b);
    AlarmedTransitions(h, r.state);
    LastTimeIsLast(h, b, PersonConfirmed);
    CoverageAgrees(r, h, b, LastTime(h, ShelfDeparture), LastTime(h, ExitCrossed));
    TimesDiffer(h, b, ExitCrossed, NoMatchedCheckoutEvent);
  }

  lemma CompleteTimes(h: seq<Observation>, b: Bounds)
    requires AllValid(h) && Complete(h, b)
    ensures 0 <= LastTime(h, PersonConfirmed) < LastTime(h, ShelfDeparture) < LastTime(h, HandCustody)
              < LastTime(h, ConcealmentTransition) < LastTime(h, ExitCrossed)
    ensures LastTime(h, CheckoutCompleted) < 0 && LastTime(h, ReturnToShelf) < 0
  {
    hide Sound, Watched, Transitions, LastTime;
    SoundIsInOrder(h, b);
    LastTimeIsLast(h, b, PersonConfirmed);
    LastTimeShown(h, PersonConfirmed);
    var t := Transitions(h);
    assert t[0] == ShelfDeparture && t[1] == HandCustody && t[2] == ConcealmentTransition;
  }

  lemma CompleteShows(h: seq<Observation>, b: Bounds, f: Fact)
    requires AllValid(h) && Complete(h, b) && f in REQUIRED_FACTS
    ensures Shows(h, f)
  {
    hide Sound, Transitions, LastTime;
    CompleteTimes(h, b);
    LastTimeShown(h, f);
    if f.CustodyContinuousToExit? || f.CheckoutPathObserved? {
      assert Watched(h, f, LastTime(h, ShelfDeparture));
    }
  }

  lemma CompleteIsAlarm(h: seq<Observation>, b: Bounds)
    requires AllValid(h) && NoRepeats(h) && Fits(h, b) && b.Valid() && Complete(h, b)
    ensures Alarming(Fold(h, b), b)
  {
    hide Fold, Sound, Reaches, RemembersSpans, Transitions, LastTime, Covers, Watched, Fits, Shows, AllValid, NoRepeats;
    var r := Fold(h, b);
    RecordAgrees(h, b);
    SourcesAgree(h, b);
    CompleteTimes(h, b);
    assert forall f :: TimeOf(r, f) == LastTime(h, f);
    forall f | f in REQUIRED_FACTS ensures f in r.facts {
      CompleteShows(h, b, f);
    }
    CoverageAgrees(r, h, b, LastTime(h, ShelfDeparture), LastTime(h, ExitCrossed));
  }

  /** The record of a history without repeats is alarming exactly when the history is complete. */
  lemma AlarmAgrees(h: seq<Observation>, b: Bounds)
    requires AllValid(h) && NoRepeats(h) && Fits(h, b) && b.Valid()
    ensures Alarming(Fold(h, b), b) <==> Complete(h, b)
  {
    hide Fold, Fits, AllValid, NoRepeats, Transitions, LastTime;
    RecordAgrees(h, b);
    if Alarming(Fold(h, b), b) {
      AlarmIsComplete(h, b);
    }
    if Complete(h, b) {
      CompleteIsAlarm(h, b);
    }
  }

  // -------------------------------------------------------------------- whole runs

  lemma ObservedListed(e: EngineState, o: Observation, b: Bounds)
    requires Listed(e) && b.Valid()
    ensures Listed(Opened(e, o.subject, b)) && Listed(Observed(e, o, b)) && o.subject in Observed(e, o, b).records
    ensures o.subject in Opened(e, o.subject, b).records
  {
    hide Received, Oldest, Without;
    if o.subject !in e.records && |e.records| >= b.maxRecords {
      MustBeListed(e);
      WithoutOne(e.order, Oldest(LastTimes(e.records), e.order));
    }
  }

  /** The engine after a reset and these observations. */
  ghost function Run(os: seq<Observation>, b: Bounds): (e: EngineState)
    requires b.Valid()
    ensures Listed(e)
  {
    if os == [] then EMPTY
    else
      var before := Run(Front(os), b);
      ObservedListed(before, Last(os), b);
      Observed(before, Last(os), b)
  }

  function ForSubject(os: seq<Observation>, s: Subject): seq<Observation> {
    if os == [] then []
    else if Last(os).subject == s then ForSubject(Front(os), s) + [Last(os)]
    else ForSubject(Front(os), s)
  }

  function Subjects(os: seq<Observation>): set<Subject> {
    set o | o in os :: o.subject
  }

  /** No visit more than the engine can hold, and none with more accepted observations than a timeline can. */
  predicate WithinCapacity(os: seq<Observation>, b: Bounds) {
    |Subjects(os)| <= b.maxRecords
    && forall s :: s in Subjects(os) ==> |Accepted(ForSubject(os, s))| <= MAX_EVENTS_PER_RECORD
  }

  /** The same, as the records see it. */
  ghost predicate AllFit(os: seq<Observation>, b: Bounds) {
    |Subjects(os)| <= b.maxRecords && forall s :: s in Subjects(os) ==> Fits(ForSubject(os, s), b)
  }

  lemma CapacityAgrees(os: seq<Observation>, b: Bounds)
    ensures AllFit(os, b) <==> WithinCapacity(os, b)
  {
    hide Fits, Accepted, Subjects, ForSubject;
    forall s | s in Subjects(os)
      ensures Fits(ForSubject(os, s), b) <==> |Accepted(ForSubject(os, s))| <= MAX_EVENTS_PER_RECORD
    {
      FitsExactly(ForSubject(os, s), b);
    }
  }

  ghost predicate HoldsAll(e: EngineState, os: seq<Observation>, b: Bounds) {
    e.records.Keys == Subjects(os) && forall s :: s in e.records ==> e.records[s] == Fold(ForSubject(os, s), b)
  }

  lemma SubjectsStep(p: seq<Observation>, o: Observation)
    ensures Subjects(p + [o]) == Subjects(p) + {o.subject}
    ensures ForSubject(p + [o], o.subject) == ForSubject(p, o.subject) + [o]
    ensures forall s :: s != o.subject ==> ForSubject(p + [o], s) == ForSubject(p, s)
  {
    assert Front(p + [o]) == p && Last(p + [o]) == o;
    assert forall q :: q in p + [o] <==> q in p || q == o;
  }

  lemma {:induction false} OtherSubject(os: seq<Observation>, s: Subject)
    requires s !in Subjects(os)
    ensures ForSubject(os, s) == []
    decreases |os|
  {
    if os != [] {
      assert os == Front(os) + [Last(os)];
      SubjectsStep(Front(os), Last(os));
      OtherSubject(Front(os), s);
    }
  }

  lemma FoldStep(h: seq<Observation>, o: Observation, b: Bounds)
    ensures Fold(h + [o], b) == Received(Fold(h, b), o, b)
    ensures Fits(h + [o], b) <==> Fits(h, b) && !(Accepts(Fold(h, b), o) && Overflows(Fold(h, b)))
  {
    assert Front(h + [o]) == h && Last(h + [o]) == o;
  }

  lemma CapacityStep(p: seq<Observation>, o: Observation, b: Bounds)
    ensures AllFit(p + [o], b) <==>
              AllFit(p, b) && |Subjects(p) + {o.subject}| <= b.maxRecords
              && !(Accepts(Fold(ForSubject(p, o.subject), b), o) && Overflows(Fold(ForSubject(p, o.subject), b)))
  {
    hide Fits, Fold, Accepts, Overflows, ForSubject, Subjects;
    SubjectsStep(p, o);
    FoldStep(ForSubject(p, o.subject), o, b);
    if o.subject !in Subjects(p) {
      OtherSubject(p, o.subject);
      NothingFits(b);
    }
    SubsetSize(Subjects(p), Subjects(p) + {o.subject});
    assert forall s :: s in Subjects(p + [o]) <==> s in Subjects(p) || s == o.subject;
  }

  lemma NothingFits(b: Bounds)
    ensures Fits([], b)
  {
  }

  /** One observation within capacity: nothing is forgotten, and its record absorbs it. */
  lemma HoldsAllStep(e: EngineState, p: seq<Observation>, o: Observation, b: Bounds)
    requires Listed(e) && b.Valid() && !e.degraded && HoldsAll(e, p, b) && AllFit(p, b)
    ensures !Observed(e, o, b).degraded <==>
              |Subjects(p) + {o.subject}| <= b.maxRecords
              && !(Accepts(Fold(ForSubject(p, o.subject), b), o) && Overflows(Fold(ForSubject(p, o.subject), b)))
    ensures !Observed(e, o, b).degraded ==> HoldsAll(Observed(e, o, b), p + [o], b)
  {
    hide Received, Accepts, Overflows, Oldest, Without, Listed, Subjects, ForSubject, Fold, Fits;
    SubjectsStep(p, o);
    FoldStep(ForSubject(p, o.subject), o, b);
    assert |e.records| == |e.records.Keys|;
    if o.subject in e.records {
      assert Subjects(p) + {o.subject} == Subjects(p);
    } else {
      OtherSubject(p, o.subject);
      FoldOfNothing(b);
      assert |Subjects(p) + {o.subject}| == |Subjects(p)| + 1;
    }
  }

  lemma FoldOfNothing(b: Bounds)
    ensures Fold([], b) == FRESH
  {
  }

  lemma {:induction false} DegradedUnlessFits(os: seq<Observation>, b: Bounds)
    requires b.Valid()
    ensures !Run(os, b).degraded <==> AllFit(os, b)
    ensures AllFit(os, b) ==> HoldsAll(Run(os, b), os, b)
    decreases |os|
  {
    hide Observed, AllFit, HoldsAll, Listed;
    if os == [] {
      NothingIsHeld(b);
    } else {
      var p, o := Front(os), Last(os);
      assert os == p + [o];
      DegradedUnlessFits(p, b);
      CapacityStep(p, o, b);
      if Run(p, b).degraded {
        DegradedStays(Run(p, b), o, b);
      } else {
        HoldsAllStep(Run(p, b), p, o, b);
      }
    }
  }

  lemma NothingIsHeld(b: Bounds)
    requires b.Valid()
    ensures AllFit([], b) && HoldsAll(EMPTY, [], b)
  {
  }

  /** The engine is degraded exactly when capacity was exceeded at some point since the reset;
      until then each record is the fold of its own history. */
  lemma DegradedExactly(os: seq<Observation>, b: Bounds)
    requires b.Valid()
    ensures !Run(os, b).degraded <==> WithinCapacity(os, b)
    ensures WithinCapacity(os, b) ==> HoldsAll(Run(os, b), os, b)
  {
    hide Run, AllFit, WithinCapacity, HoldsAll;
    DegradedUnlessFits(os, b);
    CapacityAgrees(os, b);
  }

  lemma DegradedStays(e: EngineState, o: Observation, b: Bounds)
    requires Listed(e) && b.Valid() && e.degraded
    ensures Observed(e, o, b).degraded
  {
  }

  lemma {:induction false} SubjectIsValid(os: seq<Observation>, s: Subject)
    ensures forall o :: o in ForSubject(os, s) ==> o in os && o.subject == s
    decreases |os|
  {
    if os != [] {
      assert os == Front(os) + [Last(os)];
      SubjectIsValid(Front(os), s);
    }
  }

  /** What the engine answers to the last of these observations. */
  ghost function Answer(os: seq<Observation>, b: Bounds): Assessment
    requires b.Valid() && os != []
  {
    ObservedListed(Run(Front(os), b), Last(os), b);
    Assess(Run(os, b).records[Last(os).subject], Last(os).subject, Run(os, b).degraded, b)
  }

  /** An observation raises an alarm exactly when capacity was never exceeded since the reset and
      the whole history of its visit and product, exact repeats removed, is a complete chain. */
  lemma AlarmExactly(os: seq<Observation>, b: Bounds)
    requires b.Valid() && AllValid(os) && os != []
    ensures Answer(os, b).alarmEligible <==>
              WithinCapacity(os, b) && Complete(Dedup(ForSubject(os, Last(os).subject)), b)
    ensures Answer(os, b).decision.HighAttention? ==> Answer(os, b).state.ConcealedObserved?
  {
    hide Run, Complete, Alarming, Fits, Accepted, Fold, AllValid, NoRepeats, Remembers, Listed;
    var s := Last(os).subject;
    var h := ForSubject(os, s);
    DegradedExactly(os, b);
    assert s in Subjects(os);
    if WithinCapacity(os, b) {
      FitsExactly(h, b);
      SubjectIsValid(os, s);
      ValidHistory(os, h);
      RepeatsChangeNothing(h, b);
      DedupHasNoRepeats(h);
      ValidHistory(h, Dedup(h));
      AlarmAgrees(Dedup(h), b);
      if Complete(Dedup(h), b) {
        CompleteIsConcealed(Dedup(h), b);
      }
    }
  }

  lemma ValidHistory(os: seq<Observation>, h: seq<Observation>)
    requires AllValid(os) && forall o :: o in h ==> o in os
    ensures AllValid(h)
  {
  }

  lemma CompleteIsConcealed(h: seq<Observation>, b: Bounds)
    requires AllValid(h) && NoRepeats(h) && Fits(h, b) && b.Valid() && Complete(h, b)
    ensures Fold(h, b).state.ConcealedObserved?
  {
    RecordAgrees(h, b);
    ReachesOne(Transitions(h), Fold(h, b).state);
    hide Fold, Sound, Watched, Fits, Transitions, LastTime;
  }

  /** At most 128 different observations of a visit never exceed its timeline. */
  lemma ShortHistoriesFit(h: seq<Observation>, b: Bounds)
    requires |Dedup(h)| <= MAX_EVENTS_PER_RECORD
    ensures Fits(h, b) && |Fold(h, b).timeline| <= |Dedup(h)|
  {
    hide Fits, Fold, Accepted, Dedup, Tallies;
    AcceptedAreDifferent(h);
    FitsExactly(h, b);
    TallyLength(Fold(h, b), Accepted(h));
  }

  // ------------------------------------------------- nothing lost can be laundered

  /** The visit can no longer raise an alarm: it is compromised, or the engine lost evidence. */
  ghost predicate Spoiled(e: EngineState, s: Subject) {
    e.degraded || (s in e.records && e.records[s].compromised)
  }

  ghost function RunFrom(e: EngineState, os: seq<Observation>, b: Bounds): (e': EngineState)
    requires Listed(e) && b.Valid()
    ensures Listed(e')
    decreases |os|
  {
    if os == [] then e
    else
      ObservedListed(e, os[0], b);
      RunFrom(Observed(e, os[0], b), os[1..], b)
  }

  lemma StaysSpoiled(e: EngineState, o: Observation, b: Bounds, s: Subject)
    requires Listed(e) && b.Valid() && Spoiled(e, s)
    ensures Spoiled(Observed(e, o, b), s)
  {
    hide Oldest, Without, Listed, Absorbed;
    if !e.degraded && s == o.subject {
      StaysCompromised(e.records[s], o, b);
    }
  }

  /** From a compromise, an eviction or a truncation on, no observation of that visit raises an alarm until a reset. */
  lemma {:induction false} SpoiledNeverAlarms(e: EngineState, os: seq<Observation>, b: Bounds, s: Subject)
    requires Listed(e) && b.Valid() && Spoiled(e, s)
    ensures Spoiled(RunFrom(e, os, b), s)
    ensures s in RunFrom(e, os, b).records ==>
              !Assess(RunFrom(e, os, b).records[s], s, RunFrom(e, os, b).degraded, b).alarmEligible
    decreases |os|
  {
    hide Observed, Listed;
    if os != [] {
      StaysSpoiled(e, os[0], b, s);
      ObservedListed(e, os[0], b);
      SpoiledNeverAlarms(Observed(e, os[0], b), os[1..], b, s);
    }
  }

  /** Evidence that one observation makes the engine forget degrades it in the same step. */
  lemma LossDegrades(e: EngineState, o: Observation, b: Bounds, s: Subject, id: string)
    requires Listed(e) && b.Valid() && s in e.records && id in e.records[s].eventIds
    requires s !in Observed(e, o, b).records || id !in Observed(e, o, b).records[s].eventIds
    ensures Observed(e, o, b).degraded
  {
    hide Oldest, Without, Listed, EntryFault, TransitionFault, NotedCoverage, NotedWatermark, NextState;
  }

  /** The record at this place was seen before all that were inserted earlier, and no later than the others. */
  ghost predicate SeenFirst(times: map<Subject, int>, order: seq<Subject>, n: int) {
    && 0 <= n < |order| && (forall k :: k in order ==> k in times)
    && (forall i :: 0 <= i < n ==> times[order[n]] < times[order[i]])
    && (forall i :: n < i < |order| ==> times[order[n]] <= times[order[i]])
  }

  lemma SeenFirstStep(times: map<Subject, int>, order: seq<Subject>, n: int)
    requires order != [] && (forall k :: k in order ==> k in times) && SeenFirst(times, order[1..], n)
    requires times[order[n + 1]] < times[order[0]]
    ensures SeenFirst(times, order, n + 1) && order[n + 1] == order[1..][n]
  {
    assert forall i :: 1 <= i < |order| ==> order[i] == order[1..][i - 1];
  }

  lemma {:induction false} OldestIsFirst(times: map<Subject, int>, order: seq<Subject>)
    requires order != [] && forall k :: k in order ==> k in times
    ensures exists n :: SeenFirst(times, order, n) && order[n] == Oldest(times, order)
    decreases |order|
  {
    if |order| > 1 && Oldest(times, order) != order[0] {
      OldestIsFirst(times, order[1..]);
      var n :| SeenFirst(times, order[1..], n) && order[1..][n] == Oldest(times, order[1..]);
      SeenFirstStep(times, order, n);
    } else {
      assert SeenFirst(times, order, 0);
    }
  }

  /** What is evicted was seen before every other record, or was inserted first of those that were seen last together. */
  lemma EvictsOldest(e: EngineState, s: Subject, b: Bounds)
    requires Listed(e) && b.Valid() && s !in e.records
    ensures |e.records| < b.maxRecords ==> Opened(e, s, b) == e.(records := e.records[s := FRESH], order := e.order + [s])
    ensures |e.records| >= b.maxRecords ==>
              exists n :: SeenFirst(LastTimes(e.records), e.order, n)
                && Opened(e, s, b).records == (e.records - {e.order[n]})[s := FRESH] && Opened(e, s, b).degraded
  {
    hide Oldest, Without, SeenFirst;
    if |e.records| >= b.maxRecords {
      MustBeListed(e);
      OldestIsFirst(LastTimes(e.records), e.order);
      OldestInOrder(LastTimes(e.records), e.order);
    }
  }

  lemma OldestInOrder(times: map<Subject, int>, order: seq<Subject>)
    ensures forall n :: SeenFirst(times, order, n) ==> 0 <= n < |order|
  {
  }

  // --------------------------------------------------------------- bounded memory

  /** A timeline in the order of time, whose identifiers are exactly those the record knows. */
  ghost predicate Consistent(timeline: seq<Entry>, lastAt: int, eventIds: map<string, Observation>) {
    && (forall i, j :: 0 <= i < j < |timeline| ==> timeline[i].at < timeline[j].at && timeline[i].id != timeline[j].id)
    && (forall i :: 0 <= i < |timeline| ==> timeline[i].at <= lastAt)
    && (forall i :: 0 <= i < |timeline| ==> timeline[i].id in eventIds && timeline[i] == EntryOf(eventIds[timeline[i].id]))
    && (forall id :: id in eventIds ==> exists i :: 0 <= i < |timeline| && timeline[i].id == id)
  }

  ghost predicate RecordBounded(r: RecordState) {
    |r.timeline| <= MAX_EVENTS_PER_RECORD && Consistent(r.timeline, r.lastAt, r.eventIds)
  }

  ghost predicate EngineBounded(e: EngineState, b: Bounds) {
    |e.records| <= b.maxRecords && forall s :: s in e.records ==> RecordBounded(e.records[s])
  }

  lemma AbsorbedShape(r: RecordState, o: Observation, b: Bounds)
    ensures var r' := Absorbed(r, o, b);
            && r'.lastAt == o.at
            && r'.timeline == (if Overflows(r) then (r.timeline + [EntryOf(o)])[1..] else r.timeline + [EntryOf(o)])
            && r'.eventIds == (if Overflows(r) then r.eventIds[o.id := o] - {(r.timeline + [EntryOf(o)])[0].id}
                               else r.eventIds[o.id := o])
  {
    hide EntryFault, TransitionFault, NotedCoverage, NotedWatermark, NextState;
  }

  lemma AppendConsistent(timeline: seq<Entry>, lastAt: int, eventIds: map<string, Observation>, o: Observation)
    requires Consistent(timeline, lastAt, eventIds) && o.id !in eventIds && o.at > lastAt
    ensures Consistent(timeline + [EntryOf(o)], o.at, eventIds[o.id := o])
  {
    var all, ids := timeline + [EntryOf(o)], eventIds[o.id := o];
    forall id | id in ids ensures exists i :: 0 <= i < |all| && all[i].id == id {
      if id == o.id {
        assert all[|timeline|].id == id;
      } else {
        var i :| 0 <= i < |timeline| && timeline[i].id == id;
        assert all[i].id == id;
      }
    }
  }

  lemma TrimConsistent(timeline: seq<Entry>, lastAt: int, eventIds: map<string, Observation>)
    requires Consistent(timeline, lastAt, eventIds) && timeline != []
    ensures Consistent(timeline[1..], lastAt, eventIds - {timeline[0].id})
  {
    var rest, ids := timeline[1..], eventIds - {timeline[0].id};
    forall id | id in ids ensures exists i :: 0 <= i < |rest| && rest[i].id == id {
      var i :| 0 <= i < |timeline| && timeline[i].id == id;
      assert rest[i - 1].id == id;
    }
  }

  lemma ReceivedBounded(r: RecordState, o: Observation, b: Bounds)
    requires RecordBounded(r)
    ensures RecordBounded(Received(r, o, b))
  {
    hide Absorbed, Consistent;
    if Accepts(r, o) {
      AbsorbedShape(r, o, b);
      AppendConsistent(r.timeline, r.lastAt, r.eventIds, o);
      if Overflows(r) {
        TrimConsistent(r.timeline + [EntryOf(o)], o.at, r.eventIds[o.id := o]);
      }
    }
  }

  lemma ObservedBounded(e: EngineState, o: Observation, b: Bounds)
    requires Listed(e) && b.Valid() && EngineBounded(e, b)
    ensures EngineBounded(Observed(e, o, b), b)
  {
    hide Received, RecordBounded, Oldest, Without, Accepts, Overflows;
    FreshBounded();
    var open := Opened(e, o.subject, b);
    ObservedListed(e, o, b);
    OpenedBounded(e, o.subject, b);
    ReceivedBounded(open.records[o.subject], o, b);
    assert Observed(e, o, b).records.Keys == open.records.Keys;
    assert |Observed(e, o, b).records| == |Observed(e, o, b).records.Keys|;
  }

  lemma FreshBounded()
    ensures RecordBounded(FRESH)
  {
  }

  lemma OpenedBounded(e: EngineState, s: Subject, b: Bounds)
    requires Listed(e) && b.Valid() && EngineBounded(e, b)
    ensures EngineBounded(Opened(e, s, b), b)
  {
    hide RecordBounded, Oldest, Without;
    FreshBounded();
    if s !in e.records && |e.records| >= b.maxRecords {
      MustBeListed(e);
      var oldest := Oldest(LastTimes(e.records), e.order);
      assert (e.records - {oldest}).Keys == e.records.Keys - {oldest};
      assert |e.records - {oldest}| == |e.records| - 1;
    }
  }

  /** Whatever is observed, memory stays bounded. */
  lemma {:induction false} RunBounded(os: seq<Observation>, b: Bounds)
    requires b.Valid()
    ensures EngineBounded(Run(os, b), b)
    decreases |os|
  {
    hide Observed, RecordBounded;
    if os != [] {
      RunBounded(Front(os), b);
      ObservedListed(Run(Front(os), b), Last(os), b);
      ObservedBounded(Run(Front(os), b), Last(os), b);
    }
  }

  /** Repeating exactly what a record still holds changes nothing at all. */
  lemma RepeatChangesNothing(e: EngineState, o: Observation, b: Bounds)
    requires Listed(e) && b.Valid()
    requires o.subject in e.records && o.id in e.records[o.subject].eventIds
    requires e.records[o.subject].eventIds[o.id] == o
    ensures Observed(e, o, b) == e
  {
    hide Absorbed;
    assert e.records[o.subject := e.records[o.subject]] == e.records;
  }
}
