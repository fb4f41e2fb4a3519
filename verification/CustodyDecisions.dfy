/** What every answer of the custody engine means on the whole history of a visit and product. */
module CustodyDecisions {
  import opened Basics
  import opened CustodyCoverage
  import opened CustodyModel
  import opened CustodyHistory
  import opened CustodyTheorems

  /** Custody and checkout path were both watched from the shelf to the exit. */
  ghost predicate WatchedThroughout(h: seq<Observation>) {
    var shelfAt, exitAt := LastTime(h, ShelfDeparture), LastTime(h, ExitCrossed);
    && 0 <= shelfAt < exitAt
    && (forall k :: shelfAt <= k < exitAt ==> Watched(h, CustodyContinuousToExit, k) && Watched(h, CheckoutPathObserved, k))
  }

  /** The exit was crossed and coverage was declared, but not for all of the way. */
  ghost predicate Gap(h: seq<Observation>) {
    Shows(h, ExitCrossed) && (Shows(h, CustodyContinuousToExit) || Shows(h, CheckoutPathObserved)) && !WatchedThroughout(h)
  }

  /** The last that happened to the product is a return or a checkout. */
  predicate Resolved(h: seq<Observation>) {
    var t := Transitions(h);
    t != [] && (t[|t| - 1].ReturnToShelf? || t[|t| - 1].CheckoutCompleted?)
  }

  /** The product was concealed last, or the exit was crossed with it off the shelf and in no basket. */
  ghost predicate Unexplained(h: seq<Observation>) {
    || Transitions(h) == [ShelfDeparture, HandCustody, ConcealmentTransition]
    || (Shows(h, ExitCrossed) && (Transitions(h) == [ShelfDeparture] || Transitions(h) == [ShelfDeparture, HandCustody]))
  }

  /** The five answers, each exactly when the history is as it says. */
  ghost predicate Means(d: Decision, h: seq<Observation>, b: Bounds) {
    && (d.HighAttention? <==> Complete(h, b))
    && (d.Abstain? <==> !Sound(h, b) || Gap(h))
    && (d.NormalResolved? <==> Sound(h, b) && !Gap(h) && Resolved(h))
    && (d.ReviewRequired? <==> Sound(h, b) && !Gap(h) && !Complete(h, b) && Unexplained(h))
    && (d.Observing? <==> Sound(h, b) && !Gap(h) && !Resolved(h) && !Unexplained(h))
  }

  lemma StateSays(h: seq<Observation>, state: CustodyState)
    requires Reaches(Transitions(h), state)
    ensures state.Returned? || state.Purchased? <==> Resolved(h)
    ensures state.ConcealedObserved? <==> Transitions(h) == [ShelfDeparture, HandCustody, ConcealmentTransition]
    ensures state.Unaccounted? <==> Transitions(h) == [ShelfDeparture]
    ensures state.InHand? <==> Transitions(h) == [ShelfDeparture, HandCustody]
    ensures state.InBasket? ==> Transitions(h) == [ShelfDeparture, HandCustody, PlaceInBasket]
  {
    hide Transitions;
    ReachesOne(Transitions(h), state);
    var t := Transitions(h);
    if |t| == 3 || |t| == 4 {
      assert t[|t| - 1] in t;
    }
  }

  lemma GapAgrees(h: seq<Observation>, b: Bounds)
    requires AllValid(h) && NoRepeats(h) && Fits(h, b) && b.Valid() && Sound(h, b)
    ensures CoverageComplete(Fold(h, b)) <==> WatchedThroughout(h)
  {
    hide Fold, Sound, Reaches, RemembersSpans, RemembersWatermark, LastTime, Transitions, Covers, Watched, Fits, AllValid,
         NoRepeats, Shows;
    var r := Fold(h, b);
    RecordAgrees(h, b);
    SourcesAgree(h, b);
    var shelfAt, exitAt := LastTime(h, ShelfDeparture), LastTime(h, ExitCrossed);
    assert TimeOf(r, ShelfDeparture) == shelfAt && TimeOf(r, ExitCrossed) == exitAt;
    if 0 <= shelfAt {
      TimesDiffer(h, b, ShelfDeparture, ExitCrossed);
    }
    if shelfAt < exitAt {
      CoverageAgrees(r, h, b, shelfAt, exitAt);
    }
  }

  /** The record of a history without repeats leads to the answer that the history deserves. */
  lemma DecisionAgrees(h: seq<Observation>, b: Bounds)
    requires AllValid(h) && NoRepeats(h) && Fits(h, b) && b.Valid()
    ensures Means(Decide(Fold(h, b), false, b), h, b)
  {
    hide Fold, Sound, Reaches, LastTime, Transitions, Watched, Fits, AllValid, NoRepeats, Shows, CoverageComplete,
         WatchedThroughout, Alarming, Resolved;
    RecordAgrees(h, b);
    AlarmAgrees(h, b);
    CompleteIsSound(h, b);
    if Sound(h, b) {
      GapAgrees(h, b);
      StateSays(h, Fold(h, b).state);
    } else {
      CompromisedNeverAlarms(Fold(h, b), b);
    }
  }

  lemma CompromisedNeverAlarms(r: RecordState, b: Bounds)
    ensures r.compromised ==> !Alarming(r, b)
    ensures Alarming(r, b) ==> CoverageComplete(r)
  {
  }

  /** A complete chain is sound, without a gap and not resolved. */
  lemma CompleteIsSound(h: seq<Observation>, b: Bounds)
    requires AllValid(h)
    ensures Complete(h, b) ==> Sound(h, b) && WatchedThroughout(h) && !Resolved(h) && Unexplained(h)
  {
    hide Sound, Watched, LastTime, Transitions;
    if Complete(h, b) {
      CompleteTimes(h, b);
    }
  }

  /** Over every run of the engine since a reset: beyond capacity it always abstains, and within it each answer is
      given exactly when the whole history of its visit and product, exact repeats removed, is as the answer says. */
  lemma DecisionsExactly(os: seq<Observation>, b: Bounds)
    requires b.Valid() && AllValid(os) && os != []
    ensures !WithinCapacity(os, b) ==> Answer(os, b).decision.Abstain?
    ensures WithinCapacity(os, b) ==> Means(Answer(os, b).decision, Dedup(ForSubject(os, Last(os).subject)), b)
    ensures WithinCapacity(os, b) && Sound(Dedup(ForSubject(os, Last(os).subject)), b) ==>
              Reaches(Transitions(Dedup(ForSubject(os, Last(os).subject))), Answer(os, b).state)
    ensures Answer(os, b).alarmEligible <==> Answer(os, b).decision.HighAttention?
  {
    hide Run, Means, Reaches, Transitions, Sound, Alarming, CoverageComplete, Fits, Accepted, Fold, AllValid, NoRepeats, Remembers, Listed;
    var s := Last(os).subject;
    var h := ForSubject(os, s);
    DegradedExactly(os, b);
    assert s in Subjects(os);
    if WithinCapacity(os, b) {
      FitsExactly(h, b);
      SubjectIsValid(os, s);
      ValidHistory(os, h);
      RepeatsChangeNothing(h, b);
      DedupHasNoRepeats(h);
      ValidHistory(h, Dedup(h));
      DecisionAgrees(Dedup(h), b);
      StateReached(Dedup(h), b);
    }
  }

  lemma StateReached(h: seq<Observation>, b: Bounds)
    requires AllValid(h) && NoRepeats(h) && Fits(h, b) && b.Valid()
    ensures Sound(h, b) ==> Reaches(Transitions(h), Fold(h, b).state)
  {
    hide Fold, Sound, Transitions, Reaches, Fits, AllValid, NoRepeats, LastTime;
    RecordAgrees(h, b);
  }

  /** What an answer shows: beyond capacity it says so, and within it the timeline tells of exactly the accepted
      observations of the visit and product, in their order. */
  lemma AnswerShows(os: seq<Observation>, b: Bounds)
    requires b.Valid() && os != []
    ensures Answer(os, b).subject == Last(os).subject && (Answer(os, b).degraded <==> !WithinCapacity(os, b))
    ensures WithinCapacity(os, b) ==> Shown(Answer(os, b).timeline, Accepted(ForSubject(os, Last(os).subject)))
  {
    hide Run, Fits, Accepted, Fold, Listed, Decide, Shown, Tallies;
    var h := ForSubject(os, Last(os).subject);
    DegradedExactly(os, b);
    assert Last(os).subject in Subjects(os);
    if WithinCapacity(os, b) {
      FitsExactly(h, b);
      TallyLength(Fold(h, b), Accepted(h));
    }
  }
}
