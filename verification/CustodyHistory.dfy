/** The custody engine against the whole history of a visit: the incremental record
    raises an alarm exactly when the history, read at once, is a complete chain. */
module CustodyHistory {
  import opened Basics
  import opened CustodyCoverage
  import opened CustodyModel

  // ------------------------------------------------------------ reading a history

  function Last(h: seq<Observation>): Observation
    requires h != []
  {
    h[|h| - 1]
  }

  function Front(h: seq<Observation>): seq<Observation>
    requires h != []
  {
    h[..|h| - 1]
  }

  /** The history without exact repeats. */
  function Dedup(h: seq<Observation>): seq<Observation> {
    if h == [] then [] else if Last(h) in Front(h) then Dedup(Front(h)) else Dedup(Front(h)) + [Last(h)]
  }

  /** The time of the last observation of a fact, minus one if there is none. */
  function LastTime(h: seq<Observation>, f: Fact): int {
    if h == [] then -1 else if Last(h).fact == f then Last(h).at else LastTime(Front(h), f)
  }

  predicate IsTransition(f: Fact) {
    f.ShelfDeparture? || f.HandCustody? || f.ReturnToShelf? || f.PlaceInBasket? || f.ConcealmentTransition?
    || f.CheckoutCompleted?
  }

  /** The product's own transitions, in order. */
  function Transitions(h: seq<Observation>): seq<Fact> {
    if h == [] then []
    else if IsTransition(Last(h).fact) then Transitions(Front(h)) + [Last(h).fact]
    else Transitions(Front(h))
  }

  ghost predicate Shows(h: seq<Observation>, f: Fact) {
    exists o :: o in h && o.fact == f
  }

  /** The last observation that came from the reconciliation source. */
  function LastFromPos(h: seq<Observation>): Option<Observation> {
    if h == [] then None else if Last(h).source.PosReconciliation? then Some(Last(h)) else LastFromPos(Front(h))
  }

  const IN_HAND := [ShelfDeparture, HandCustody]
  const IN_BASKET := [ShelfDeparture, HandCustody, PlaceInBasket]
  const CONCEALED := [ShelfDeparture, HandCustody, ConcealmentTransition]

  /** The transition fits what happened to the product before. */
  ghost predicate FollowsOn(p: seq<Observation>, o: Observation, b: Bounds) {
    match o.fact
    case ShelfDeparture => Transitions(p) == []
    case HandCustody => Transitions(p) == [ShelfDeparture]
    case ReturnToShelf => Transitions(p) == IN_HAND
    case PlaceInBasket => Transitions(p) == IN_HAND
    case ConcealmentTransition => Transitions(p) == IN_HAND && Shows(p, PersonConfirmed)
    case CheckoutCompleted =>
      && (Transitions(p) == IN_HAND || Transitions(p) == IN_BASKET || Transitions(p) == CONCEALED)
      && o.linked && o.source.PosReconciliation?
    case CustodyContinuousToExit => o.source.Tracker? && (Transitions(p) == IN_HAND || Transitions(p) == CONCEALED)
    case CheckoutPathObserved => o.source.Tracker?
    case ExitCrossed => o.source.Tracker?
    case NoMatchedCheckoutEvent =>
      && o.source.PosReconciliation? && o.linked && o.health.Healthy? && Shows(p, ExitCrossed)
      && o.at >= LastTime(p, ExitCrossed) + b.posGraceMs
      && o.watermark.Some? && o.watermark.value >= LastTime(p, ExitCrossed)
    case _ => true
  }

  /** The same camera as before, or a confirmed handoff to another one. */
  ghost predicate KeepsCamera(p: seq<Observation>, o: Observation) {
    if o.fact.CameraHandoff? then
      p != [] && o.camera != Last(p).camera && o.association.Confirmed? && o.source.Tracker?
    else p == [] || o.camera == Last(p).camera
  }

  /** A new, later, direct and clear observation that continues those before it. */
  ghost predicate Continues(p: seq<Observation>, o: Observation, b: Bounds) {
    && (forall q :: q in p ==> q.id != o.id && q.at < o.at)
    && (p != [] ==> o.at - p[0].at <= b.maxEpisodeMs)
    && KeepsCamera(p, o)
    && o.direct && o.visibility.Clear? && !o.fact.VisibilityLost? && !o.fact.CameraGap?
    && (o.Covering() ==> o.CoverageDeclared())
    && FollowsOn(p, o, b)
  }

  ghost predicate Sound(h: seq<Observation>, b: Bounds) {
    forall i :: 0 <= i < |h| ==> Continues(h[..i], h[i], b)
  }

  /** Some declared interval of this fact contains the segment from `k` to `k + 1`. */
  ghost predicate Watched(h: seq<Observation>, f: Fact, k: int) {
    exists o :: o in h && o.fact == f && o.CoverageDeclared() && o.coverageStart.value <= k && k + 1 <= o.coverageEnd.value
  }

  /** A sound history in which the product left the shelf, was in the hand and was concealed, and nothing
      else happened to it; the person was confirmed before it left the shelf and crossed the exit after the
      concealment; custody and checkout path were watched all the way; and the reconciliation that followed
      the last exit was the last word of a healthy source. */
  ghost predicate Complete(h: seq<Observation>, b: Bounds) {
    var shelfAt, exitAt := LastTime(h, ShelfDeparture), LastTime(h, ExitCrossed);
    && Sound(h, b)
    && Transitions(h) == CONCEALED
    && Shows(h, PersonConfirmed) && (forall o :: o in h && o.fact.PersonConfirmed? ==> o.at < shelfAt)
    && LastTime(h, ConcealmentTransition) < exitAt
    && (forall k :: shelfAt <= k < exitAt ==> Watched(h, CustodyContinuousToExit, k) && Watched(h, CheckoutPathObserved, k))
    && exitAt < LastTime(h, NoMatchedCheckoutEvent)
    && LastFromPos(h).Some? && LastFromPos(h).value.health.Healthy?
  }

  // ----------------------------------------------------------- the record's history

  ghost function Fold(h: seq<Observation>, b: Bounds): RecordState {
    if h == [] then FRESH else Received(Fold(Front(h), b), Last(h), b)
  }

  /** No accepted observation found the timeline full. */
  ghost predicate Fits(h: seq<Observation>, b: Bounds) {
    h == [] || (Fits(Front(h), b) && !(Accepts(Fold(Front(h), b), Last(h)) && Overflows(Fold(Front(h), b))))
  }

  /** The observation has a new identifier and a later time than all of these. */
  predicate NewTo(accepted: seq<Observation>, o: Observation) {
    o.at >= 0 && forall q :: q in accepted ==> q.id != o.id && q.at < o.at
  }

  /** The observations of a history that take a place in its timeline: each is new to those before it. */
  function Accepted(h: seq<Observation>): seq<Observation> {
    if h == [] then []
    else if NewTo(Accepted(Front(h)), Last(h)) then Accepted(Front(h)) + [Last(h)]
    else Accepted(Front(h))
  }

  /** The timeline tells of these observations, one entry each. */
  predicate Shown(timeline: seq<Entry>, accepted: seq<Observation>) {
    |timeline| == |accepted|
    && forall i :: 0 <= i < |timeline| ==>
         && timeline[i].id == accepted[i].id && timeline[i].at == accepted[i].at && timeline[i].fact == accepted[i].fact
         && timeline[i].camera == accepted[i].camera && timeline[i].evidence == accepted[i].evidence
  }

  ghost predicate Tallies(r: RecordState, accepted: seq<Observation>) {
    && Shown(r.timeline, accepted)
    && (forall id :: id in r.eventIds <==> exists q :: q in accepted && q.id == id)
    && r.lastAt == (if accepted == [] then -1 else Last(accepted).at)
    && (forall q :: q in accepted ==> 0 <= q.at <= r.lastAt)
  }

  lemma TallyStep(r: RecordState, accepted: seq<Observation>, o: Observation, b: Bounds)
    requires Tallies(r, accepted)
    ensures Accepts(r, o) <==> NewTo(accepted, o)
    ensures !(Accepts(r, o) && Overflows(r)) ==>
              Tallies(Received(r, o, b), if NewTo(accepted, o) then accepted + [o] else accepted)
  {
    hide EntryFault, TransitionFault, NotedCoverage, NotedWatermark, NextState;
    if accepted != [] {
      assert Last(accepted) in accepted;
    }
    var more := accepted + [o];
    assert Last(more) == o && (forall q :: q in more <==> q in accepted || q == o);
  }

  /** A history fits exactly when a timeline has a place for everything in it that is accepted. */
  lemma {:induction false} FitsExactly(h: seq<Observation>, b: Bounds)
    ensures Fits(h, b) <==> |Accepted(h)| <= MAX_EVENTS_PER_RECORD
    ensures Fits(h, b) ==> Tallies(Fold(h, b), Accepted(h))
    decreases |h|
  {
    hide Received, Accepts, NewTo, Tallies;
    if h == [] {
      NothingTallies();
    } else {
      FitsExactly(Front(h), b);
      if Fits(Front(h), b) {
        TallyStep(Fold(Front(h), b), Accepted(Front(h)), Last(h), b);
        TallyLength(Fold(Front(h), b), Accepted(Front(h)));
      }
    }
  }

  lemma NothingTallies()
    ensures Tallies(FRESH, [])
  {
  }

  lemma TallyLength(r: RecordState, accepted: seq<Observation>)
    requires Tallies(r, accepted)
    ensures |r.timeline| == |accepted| && Shown(r.timeline, accepted)
  {
  }

  lemma {:induction false} AcceptedAreDifferent(h: seq<Observation>)
    ensures |Accepted(h)| <= |Dedup(h)| && (forall o :: o in Accepted(h) ==> o in h)
    ensures forall o :: o in h && o !in Accepted(h) ==> !NewTo(Accepted(h), o)
    decreases |h|
  {
    if h != [] {
      AcceptedAreDifferent(Front(h));
      assert h == Front(h) + [Last(h)];
      var before := Accepted(Front(h));
      if NewTo(before, Last(h)) {
        assert forall q :: q in Accepted(h) <==> q in before || q == Last(h);
      }
    }
  }

  /** The record has met this observation: it holds it, or was compromised by it. */
  ghost predicate Met(r: RecordState, o: Observation) {
    || (o.id in r.eventIds && (r.eventIds[o.id] == o || r.compromised))
    || (o.at <= r.lastAt && r.compromised)
  }

  lemma MetChangesNothing(r: RecordState, o: Observation, b: Bounds)
    requires Met(r, o)
    ensures Received(r, o, b) == r
  {
  }

  lemma StaysMet(r: RecordState, o: Observation, p: Observation, b: Bounds)
    requires !(Accepts(r, p) && Overflows(r))
    requires Met(r, o) || o == p
    ensures Met(Received(r, p, b), o)
  {
    hide EntryFault, TransitionFault, NotedCoverage, NotedWatermark, NextState;
  }

  lemma {:induction false} AllMet(h: seq<Observation>, b: Bounds, o: Observation)
    requires Fits(h, b) && o in h
    ensures Met(Fold(h, b), o)
    decreases |h|
  {
    hide Met, Received;
    assert h == Front(h) + [Last(h)];
    if o in Front(h) {
      AllMet(Front(h), b, o);
    }
    StaysMet(Fold(Front(h), b), o, Last(h), b);
  }

  /** Exact repeats change nothing. */
  lemma {:induction false} RepeatsChangeNothing(h: seq<Observation>, b: Bounds)
    requires Fits(h, b)
    ensures Fold(Dedup(h), b) == Fold(h, b) && Fits(Dedup(h), b)
    decreases |h|
  {
    hide Received, Accepts, Overflows;
    if h != [] {
      RepeatsChangeNothing(Front(h), b);
      if Last(h) in Front(h) {
        AllMet(Front(h), b, Last(h));
        MetChangesNothing(Fold(Front(h), b), Last(h), b);
      } else {
        var d := Dedup(h);
        assert Front(d) == Dedup(Front(h)) && Last(d) == Last(h);
      }
    }
  }

  // ------------------------------------------------------- record and history agree

  lemma {:induction false} SoundStep(h: seq<Observation>, b: Bounds)
    requires h != []
    ensures Sound(h, b) <==> Sound(Front(h), b) && Continues(Front(h), Last(h), b)
  {
    hide Continues;
    assert forall i :: 0 <= i < |h| - 1 ==> Front(h)[..i] == h[..i] && Front(h)[i] == h[i];
    assert h[..|h| - 1] == Front(h);
    if Sound(Front(h), b) && Continues(Front(h), Last(h), b) {
      forall i | 0 <= i < |h| ensures Continues(h[..i], h[i], b) {
        if i < |h| - 1 {
          assert Continues(Front(h)[..i], Front(h)[i], b);
        }
      }
    }
    if Sound(h, b) {
      assert Continues(h[..|h| - 1], h[|h| - 1], b);
      forall i | 0 <= i < |h| - 1 ensures Continues(Front(h)[..i], Front(h)[i], b) {
        assert Continues(h[..i], h[i], b);
      }
    }
  }

  /** The states that a sound history can reach, and the transitions that lead there. */
  ghost predicate Reaches(t: seq<Fact>, state: CustodyState) {
    match state
    case OnShelf => t == []
    case Unaccounted => t == [ShelfDeparture]
    case InHand => t == IN_HAND
    case Returned => t == IN_HAND + [ReturnToShelf]
    case InBasket => t == IN_BASKET
    case ConcealedObserved => t == CONCEALED
    case Purchased => t == IN_HAND + [CheckoutCompleted] || t == IN_BASKET + [CheckoutCompleted] || t == CONCEALED + [CheckoutCompleted]
  }

  /** What the uncompromised record remembers of its history. */
  ghost predicate Remembers(r: RecordState, h: seq<Observation>) {
    && Reaches(Transitions(h), r.state)
    && r.lastAt == (if h == [] then -1 else Last(h).at)
    && r.startedAt == (if h == [] then -1 else h[0].at)
    && r.lastCamera == (if h == [] then "" else Last(h).camera)
    && (forall f :: f in r.facts <==> Shows(h, f))
    && (forall f :: TimeOf(r, f) == LastTime(h, f))
    && (forall id :: id in r.eventIds ==> r.eventIds[id] in h && r.eventIds[id].id == id)
    && (forall o :: o in h ==> o.id in r.eventIds)
  }

  ghost predicate AllValid(h: seq<Observation>) {
    forall o :: o in h ==> o.Valid()
  }

  ghost predicate NoRepeats(h: seq<Observation>) {
    h == [] || (NoRepeats(Front(h)) && Last(h) !in Front(h))
  }

  lemma {:induction false} DedupHasNoRepeats(h: seq<Observation>)
    ensures NoRepeats(Dedup(h)) && (forall o :: o in Dedup(h) <==> o in h)
    decreases |h|
  {
    if h != [] {
      DedupHasNoRepeats(Front(h));
      assert h == Front(h) + [Last(h)];
      if Last(h) !in Front(h) {
        var d := Dedup(h);
        assert Front(d) == Dedup(Front(h)) && Last(d) == Last(h);
      }
    }
  }

  lemma ShowsStep(h: seq<Observation>, f: Fact)
    requires h != []
    ensures Shows(h, f) <==> Shows(Front(h), f) || Last(h).fact == f
  {
    assert h == Front(h) + [Last(h)];
    if Last(h).fact == f {
      assert Last(h) in h;
    }
  }

  lemma {:induction false} LastTimeShown(h: seq<Observation>, f: Fact)
    requires AllValid(h)
    ensures LastTime(h, f) >= -1 && (LastTime(h, f) >= 0 <==> Shows(h, f))
    decreases |h|
  {
    if h != [] {
      assert h == Front(h) + [Last(h)];
      assert Last(h) in h;
      ShowsStep(h, f);
      LastTimeShown(Front(h), f);
    }
  }

  /** In a sound history later means later: nothing is after the last observation. */
  lemma {:induction false} LastIsLatest(h: seq<Observation>, b: Bounds, f: Fact)
    requires h != [] && Sound(h, b) && AllValid(h)
    ensures forall o :: o in h && o != Last(h) ==> o.at < Last(h).at && o.id != Last(h).id
    ensures LastTime(h, f) <= Last(h).at
    decreases |h|
  {
    hide FollowsOn, KeepsCamera, Sound;
    SoundStep(h, b);
    assert h == Front(h) + [Last(h)];
    assert Last(h) in h;
    if Front(h) != [] {
      LastIsLatest(Front(h), b, f);
      assert Last(Front(h)) in Front(h);
    }
  }

  lemma EntryAgrees(r: RecordState, p: seq<Observation>, o: Observation, b: Bounds)
    requires Remembers(r, p) && AllValid(p) && o.Valid() && Accepts(r, o)
    ensures EntryFault(r, o, b) <==>
              !((p != [] ==> o.at - p[0].at <= b.maxEpisodeMs) && KeepsCamera(p, o)
                && o.direct && o.visibility.Clear? && !o.fact.VisibilityLost? && !o.fact.CameraGap?
                && (o.Covering() ==> o.CoverageDeclared()))
  {
    if p != [] {
      assert p[0] in p && Last(p) in p;
    }
  }

  /** The transitions of a history decide the state. */
  lemma ReachesOne(t: seq<Fact>, state: CustodyState)
    requires Reaches(t, state)
    ensures t == [] <==> state.OnShelf?
    ensures t == [ShelfDeparture] <==> state.Unaccounted?
    ensures t == IN_HAND <==> state.InHand?
    ensures t == IN_BASKET <==> state.InBasket?
    ensures t == CONCEALED <==> state.ConcealedObserved?
  {
    assert |t| == 3 ==> t[2] == CheckoutCompleted || t[2] == ReturnToShelf || t[2] == PlaceInBasket || t[2] == ConcealmentTransition;
  }

  lemma TransitionAgrees(r: RecordState, p: seq<Observation>, o: Observation, b: Bounds)
    requires Remembers(r, p) && AllValid(p) && b.Valid()
    ensures TransitionFault(r.state, PersonConfirmed in r.facts || o.fact.PersonConfirmed?,
                            if o.fact.ExitCrossed? then o.at else TimeOf(r, ExitCrossed), o, b)
         == !FollowsOn(p, o, b)
  {
    LastTimeShown(p, ExitCrossed);
    ReachesOne(Transitions(p), r.state);
    assert TimeOf(r, ExitCrossed) == LastTime(p, ExitCrossed);
    assert PersonConfirmed in r.facts <==> Shows(p, PersonConfirmed);
    hide Reaches, Shows, Transitions, LastTime;
  }

  lemma TransitionsReach(state: CustodyState, p: seq<Observation>, o: Observation, b: Bounds)
    requires Reaches(Transitions(p), state) && FollowsOn(p, o, b)
    ensures Reaches(Transitions(p + [o]), NextState(state, o.fact))
  {
    assert Front(p + [o]) == p && Last(p + [o]) == o;
  }

  /** A conflicting or late observation does not continue the history. */
  lemma RefusedBreaks(r: RecordState, p: seq<Observation>, o: Observation, b: Bounds)
    requires Remembers(r, p) && o !in p && o.Valid() && !Accepts(r, o)
    ensures Received(r, o, b).compromised && !Continues(p, o, b)
  {
    hide FollowsOn, KeepsCamera, Reaches, Absorbed;
    if o.id in r.eventIds {
      assert r.eventIds[o.id] in p;
    } else if p != [] {
      assert Last(p) in p;
    }
  }

  /** What an accepted observation writes, field by field. */
  lemma AcceptedFields(r: RecordState, o: Observation, b: Bounds)
    requires Accepts(r, o) && !Overflows(r)
    ensures var r' := Received(r, o, b);
            && r'.state == NextState(r.state, o.fact) && r'.lastAt == o.at && r'.lastCamera == o.camera
            && r'.startedAt == (if r.startedAt < 0 then o.at else r.startedAt)
            && r'.facts == r.facts + {o.fact} && r'.factTimes == r.factTimes[o.fact := o.at]
            && r'.eventIds == r.eventIds[o.id := o] && |r'.timeline| == |r.timeline| + 1
            && r'.coverage == NotedCoverage(r.coverage, o) && r'.watermark == NotedWatermark(r.watermark, o)
            && r'.health == r.health[o.source := o.health]
  {
    hide EntryFault, TransitionFault, NotedCoverage, NotedWatermark, NextState;
  }

  lemma AcceptedCompromise(r: RecordState, o: Observation, b: Bounds)
    requires Accepts(r, o) && !r.compromised
    ensures Received(r, o, b).compromised
         == (EntryFault(r, o, b)
             || TransitionFault(r.state, PersonConfirmed in r.facts || o.fact.PersonConfirmed?,
                                if o.fact.ExitCrossed? then o.at else TimeOf(r, ExitCrossed), o, b))
  {
    hide EntryFault, TransitionFault, NotedCoverage, NotedWatermark, NextState;
    var noted := Trimmed(Noted(r, o));
    assert noted.facts == r.facts + {o.fact};
    assert TimeOf(noted, ExitCrossed) == if o.fact.ExitCrossed? then o.at else TimeOf(r, ExitCrossed);
  }

  lemma AcceptedIsLater(r: RecordState, p: seq<Observation>, o: Observation, b: Bounds)
    requires Remembers(r, p) && Sound(p, b) && AllValid(p) && Accepts(r, o)
    ensures forall q :: q in p ==> q.id != o.id && q.at < o.at
  {
    hide Continues, Reaches, TimeOf, LastTime, Shows;
    if p != [] {
      LastIsLatest(p, b, ExitCrossed);
    }
  }

  lemma AcceptedAgrees(r: RecordState, p: seq<Observation>, o: Observation, b: Bounds)
    requires Remembers(r, p) && !r.compromised && Sound(p, b) && AllValid(p) && o.Valid() && b.Valid() && Accepts(r, o)
    ensures Received(r, o, b).compromised <==> !Continues(p, o, b)
  {
    hide EntryFault, TransitionFault, FollowsOn, KeepsCamera, Remembers, Received, Sound, AllValid, TimeOf, Accepts;
    EntryAgrees(r, p, o, b);
    TransitionAgrees(r, p, o, b);
    AcceptedIsLater(r, p, o, b);
    AcceptedCompromise(r, o, b);
  }

  lemma RemembersStep(r: RecordState, p: seq<Observation>, o: Observation, b: Bounds)
    requires Remembers(r, p) && AllValid(p) && o.Valid() && Accepts(r, o) && !Overflows(r)
    requires FollowsOn(p, o, b) && |r.timeline| == |p|
    ensures Remembers(Received(r, o, b), p + [o]) && |Received(r, o, b).timeline| == |p + [o]|
  {
    hide Received, NextState, Reaches, FollowsOn, NotedCoverage, NotedWatermark;
    var h := p + [o];
    assert Front(h) == p && Last(h) == o;
    AcceptedFields(r, o, b);
    TransitionsReach(r.state, p, o, b);
    RemembersFacts(r, p, o, b);
    assert p != [] ==> p[0] in p && h[0] == p[0];
    assert forall q :: q in h <==> q in p || q == o;
  }

  lemma RemembersFacts(r: RecordState, p: seq<Observation>, o: Observation, b: Bounds)
    requires Remembers(r, p) && Accepts(r, o) && !Overflows(r)
    ensures forall f :: f in Received(r, o, b).facts <==> Shows(p + [o], f)
    ensures forall f :: TimeOf(Received(r, o, b), f) == LastTime(p + [o], f)
  {
    hide Received, NextState, Reaches, NotedCoverage, NotedWatermark;
    var h, r' := p + [o], Received(r, o, b);
    assert Front(h) == p && Last(h) == o;
    AcceptedFields(r, o, b);
    forall f ensures f in r'.facts <==> Shows(h, f) {
      ShowsStep(h, f);
    }
    forall f ensures TimeOf(r', f) == LastTime(h, f) {
      assert TimeOf(r, f) == LastTime(p, f);
    }
  }

  /** The record is uncompromised exactly when its history is sound, and then it remembers it. */
  lemma {:induction false} RecordAgrees(h: seq<Observation>, b: Bounds)
    requires AllValid(h) && NoRepeats(h) && Fits(h, b) && b.Valid()
    ensures !Fold(h, b).compromised <==> Sound(h, b)
    ensures Sound(h, b) ==> Remembers(Fold(h, b), h) && |Fold(h, b).timeline| == |h|
    decreases |h|
  {
    hide Remembers, Received, Continues, Accepts, Overflows, Reaches;
    if h == [] {
      FreshRemembers();
    } else {
      var p, o := Front(h), Last(h);
      assert h == p + [o] && o in h;
      RecordAgrees(p, b);
      SoundStep(h, b);
      if !Sound(p, b) {
        StaysCompromised(Fold(p, b), o, b);
      } else if !Accepts(Fold(p, b), o) {
        RefusedBreaks(Fold(p, b), p, o, b);
      } else {
        AcceptedAgrees(Fold(p, b), p, o, b);
        if Continues(p, o, b) {
          ContinuesFollows(p, o, b);
          RemembersStep(Fold(p, b), p, o, b);
        }
      }
    }
  }

  lemma FreshRemembers()
    ensures Remembers(FRESH, [])
  {
  }

  lemma ContinuesFollows(p: seq<Observation>, o: Observation, b: Bounds)
    requires Continues(p, o, b)
    ensures FollowsOn(p, o, b)
  {
  }

  /** A compromise is never taken back. */
  lemma StaysCompromised(r: RecordState, o: Observation, b: Bounds)
    requires r.compromised
    ensures Received(r, o, b).compromised
  {
  }

  // ------------------------------------------------------- what the sources declared

  ghost predicate RemembersPos(r: RecordState, h: seq<Observation>) {
    && (PosReconciliation in r.health <==> LastFromPos(h).Some?)
    && (PosReconciliation in r.health ==> r.health[PosReconciliation] == LastFromPos(h).value.health)
  }

  ghost predicate RemembersSpans(r: RecordState, h: seq<Observation>, f: Fact) {
    forall k :: SomeContains(SpansOf(r, f), k) <==> Watched(h, f, k)
  }

  /** A reconciliation after the last exit came late enough and looked far enough. */
  ghost predicate RemembersWatermark(r: RecordState, h: seq<Observation>, b: Bounds) {
    var exitAt, askedAt := LastTime(h, ExitCrossed), LastTime(h, NoMatchedCheckoutEvent);
    askedAt > exitAt ==> 0 <= exitAt && exitAt + b.posGraceMs <= askedAt && (exitAt > 0 ==> r.watermark >= exitAt)
  }

  lemma PosStep(r: RecordState, p: seq<Observation>, o: Observation, b: Bounds)
    requires Accepts(r, o) && !Overflows(r) && RemembersPos(r, p)
    ensures RemembersPos(Received(r, o, b), p + [o])
  {
    hide Received, NextState, NotedCoverage, NotedWatermark;
    AcceptedFields(r, o, b);
    assert Front(p + [o]) == p && Last(p + [o]) == o;
  }

  lemma WatchedStep(p: seq<Observation>, o: Observation, f: Fact, k: int)
    ensures Watched(p + [o], f, k)
         == (Watched(p, f, k)
             || (o.fact == f && o.CoverageDeclared() && o.coverageStart.value <= k && k + 1 <= o.coverageEnd.value))
  {
    assert forall q :: q in p + [o] <==> q in p || q == o;
  }

  lemma ContainsStep(spans: seq<Span>, s: Span, k: int)
    ensures SomeContains(spans + [s], k) <==> SomeContains(spans, k) || Contains(s, k)
  {
    var all := spans + [s];
    assert all[|spans|] == s;
    if SomeContains(spans, k) {
      var i :| 0 <= i < |spans| && Contains(spans[i], k);
      assert Contains(all[i], k);
    }
  }

  lemma SpansStep(r: RecordState, p: seq<Observation>, o: Observation, b: Bounds, f: Fact)
    requires Accepts(r, o) && !Overflows(r) && RemembersSpans(r, p, f)
    requires f.CustodyContinuousToExit? || f.CheckoutPathObserved?
    ensures RemembersSpans(Received(r, o, b), p + [o], f)
  {
    hide Received, NextState, NotedWatermark, Watched, SomeContains;
    AcceptedFields(r, o, b);
    var r' := Received(r, o, b);
    forall k ensures SomeContains(SpansOf(r', f), k) <==> Watched(p + [o], f, k) {
      WatchedStep(p, o, f, k);
      if o.fact == f && o.CoverageDeclared() {
        ContainsStep(SpansOf(r, f), Span(o.coverageStart.value, o.coverageEnd.value), k);
      }
    }
  }

  lemma WatermarkStep(r: RecordState, p: seq<Observation>, o: Observation, b: Bounds)
    requires Accepts(r, o) && !Overflows(r) && RemembersWatermark(r, p, b)
    requires AllValid(p) && o.Valid() && Sound(p, b) && Continues(p, o, b)
    ensures RemembersWatermark(Received(r, o, b), p + [o], b)
  {
    hide Received, NextState, NotedCoverage, KeepsCamera, Sound;
    AcceptedFields(r, o, b);
    assert Front(p + [o]) == p && Last(p + [o]) == o;
    LastTimeShown(p, ExitCrossed);
    if o.fact.ExitCrossed? && p != [] {
      LastIsLatest(p, b, NoMatchedCheckoutEvent);
      assert Last(p) in p;
    }
  }

  lemma {:induction false} SourcesAgree(h: seq<Observation>, b: Bounds)
    requires AllValid(h) && NoRepeats(h) && Fits(h, b) && b.Valid() && Sound(h, b)
    ensures RemembersPos(Fold(h, b), h)
    ensures RemembersSpans(Fold(h, b), h, CustodyContinuousToExit) && RemembersSpans(Fold(h, b), h, CheckoutPathObserved)
    ensures RemembersWatermark(Fold(h, b), h, b)
    decreases |h|
  {
    hide Received, Remembers, Continues, Overflows, RemembersPos, RemembersSpans, RemembersWatermark;
    if h == [] {
      FreshSources(b);
    } else {
      var p, o := Front(h), Last(h);
      assert h == p + [o] && o in h;
      SoundStep(h, b);
      SourcesAgree(p, b);
      RecordAgrees(p, b);
      SoundIsAccepted(Fold(p, b), p, o, b);
      PosStep(Fold(p, b), p, o, b);
      SpansStep(Fold(p, b), p, o, b, CustodyContinuousToExit);
      SpansStep(Fold(p, b), p, o, b, CheckoutPathObserved);
      WatermarkStep(Fold(p, b), p, o, b);
    }
  }

  lemma FreshSources(b: Bounds)
    ensures RemembersPos(FRESH, []) && RemembersWatermark(FRESH, [], b)
    ensures RemembersSpans(FRESH, [], CustodyContinuousToExit) && RemembersSpans(FRESH, [], CheckoutPathObserved)
  {
  }

  lemma SoundIsAccepted(r: RecordState, p: seq<Observation>, o: Observation, b: Bounds)
    requires Remembers(r, p) && Continues(p, o, b) && o.Valid()
    ensures Accepts(r, o)
  {
    hide Reaches, FollowsOn, KeepsCamera;
    if p != [] {
      assert Last(p) in p;
    }
  }

  // --------------------------------------------------------------------- the order

  /** The transitions of a sound history happened one after the other, each of them once. */
  ghost predicate InOrder(h: seq<Observation>) {
    var t := Transitions(h);
    && (forall i :: 0 <= i < |t| ==> IsTransition(t[i]) && LastTime(h, t[i]) >= 0)
    && (forall i, j :: 0 <= i < j < |t| ==> LastTime(h, t[i]) < LastTime(h, t[j]))
    && (forall f :: IsTransition(f) && f !in t ==> LastTime(h, f) < 0)
  }

  lemma FollowsOnIsNew(p: seq<Observation>, o: Observation, b: Bounds)
    requires FollowsOn(p, o, b) && IsTransition(o.fact)
    ensures o.fact !in Transitions(p)
  {
  }

  lemma OrderStep(p: seq<Observation>, o: Observation)
    requires InOrder(p) && o.at >= 0 && (forall f :: LastTime(p, f) < o.at)
    requires IsTransition(o.fact) ==> o.fact !in Transitions(p)
    ensures InOrder(p + [o])
  {
    var h, t := p + [o], Transitions(p);
    assert Front(h) == p && Last(h) == o;
    assert forall f :: LastTime(h, f) == if f == o.fact then o.at else LastTime(p, f);
    assert Transitions(h) == if IsTransition(o.fact) then t + [o.fact] else t;
    assert forall i :: 0 <= i < |t| ==> t[i] != o.fact;
    hide Transitions, LastTime;
  }

  lemma {:induction false} SoundIsInOrder(h: seq<Observation>, b: Bounds)
    requires AllValid(h) && Sound(h, b)
    ensures InOrder(h)
    decreases |h|
  {
    hide Continues, Sound, InOrder, Transitions, LastTime, FollowsOn;
    if h == [] {
      NothingInOrder();
    } else {
      var p, o := Front(h), Last(h);
      assert h == p + [o] && o in h;
      SoundStep(h, b);
      SoundIsInOrder(p, b);
      ContinuesFollows(p, o, b);
      if IsTransition(o.fact) {
        FollowsOnIsNew(p, o, b);
      }
      forall f ensures LastTime(p, f) < o.at {
        LaterThanAll(p, o, b, f);
      }
      OrderStep(p, o);
    }
  }

  lemma NothingInOrder()
    ensures InOrder([])
  {
  }

  /** Two facts were never last seen at the same time. */
  lemma {:induction false} TimesDiffer(h: seq<Observation>, b: Bounds, f: Fact, g: Fact)
    requires AllValid(h) && Sound(h, b) && f != g && LastTime(h, f) >= 0
    ensures LastTime(h, f) != LastTime(h, g)
    decreases |h|
  {
    hide Continues, Sound;
    var p, o := Front(h), Last(h);
    assert h == p + [o] && o in h;
    SoundStep(h, b);
    if o.fact == f {
      LaterThanAll(p, o, b, g);
    } else if o.fact == g {
      LaterThanAll(p, o, b, f);
    } else {
      TimesDiffer(p, b, f, g);
    }
  }

  lemma LaterThanAll(p: seq<Observation>, o: Observation, b: Bounds, f: Fact)
    requires Sound(p, b) && AllValid(p) && o.Valid() && Continues(p, o, b)
    ensures LastTime(p, f) < o.at
  {
    hide FollowsOn, KeepsCamera, Sound;
    if p != [] {
      LastIsLatest(p, b, f);
      assert Last(p) in p;
    }
  }

  /** No observation of a fact is later than its last one. */
  lemma {:induction false} LastTimeIsLast(h: seq<Observation>, b: Bounds, f: Fact)
    requires AllValid(h) && Sound(h, b)
    ensures forall o :: o in h && o.fact == f ==> o.at <= LastTime(h, f)
    ensures LastTime(h, f) >= 0 ==> exists o :: o in h && o.fact == f && o.at == LastTime(h, f)
    decreases |h|
  {
    hide Continues, Sound;
    if h != [] {
      var p, o := Front(h), Last(h);
      assert h == p + [o] && o in h;
      SoundStep(h, b);
      LastTimeIsLast(p, b, f);
      LastIsLatest(h, b, f);
    }
  }
}
