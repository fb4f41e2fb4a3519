/** The custody engine as the program has it: records whose fields are rewritten in
    place, held in a dictionary that remembers the order of insertion. */
module CustodyEngine {
  import opened Basics
  import opened CustodyCoverage
  import opened CustodyModel

  class Record {
    var state: CustodyState
    var lastAt: int
    var startedAt: int
    var lastCamera: string
    var facts: set<Fact>
    var factTimes: map<Fact, int>
    var eventIds: map<string, Observation>
    var timeline: seq<Entry>
    var compromised: bool
    var coverage: map<Fact, seq<Span>>
    var watermark: int
    var health: map<SourceKind, Health>

    constructor ()
      ensures Snapshot() == FRESH
    {
      state, lastAt, startedAt, lastCamera := OnShelf, -1, -1, "";
      facts, factTimes, eventIds, timeline := {}, map[], map[], [];
      compromised, coverage, watermark, health := false, map[], -1, map[];
    }

    function Snapshot(): RecordState
      reads this
    {
      RecordState(state, lastAt, startedAt, lastCamera, facts, factTimes, eventIds, timeline, compromised, coverage,
                  watermark, health)
    }

    /** Time, identifier and camera of an accepted observation. */
    method NoteArrival(o: Observation, b: Bounds)
      modifies this
      ensures Snapshot() == old(Snapshot()).(
                lastAt := o.at, startedAt := if old(startedAt) < 0 then o.at else old(startedAt),
                eventIds := old(eventIds)[o.id := o], lastCamera := o.camera,
                compromised := old(compromised) || DurationFault(old(Snapshot()), o, b) || CameraFault(old(Snapshot()), o))
    {
      lastAt := o.at;
      if startedAt < 0 {
        startedAt := o.at;
      } else if o.at - startedAt > b.maxEpisodeMs {
        compromised := true;
      }
      eventIds := eventIds[o.id := o];
      if lastCamera != "" && o.camera != lastCamera {
        if !o.fact.CameraHandoff? {
          compromised := true;
        }
      }
      if o.fact.CameraHandoff? {
        if lastCamera == "" || o.camera == lastCamera {
          compromised := true;
        }
        if !o.association.Confirmed? {
          compromised := true;
        }
        if !o.source.Tracker? {
          compromised := true;
        }
      }
      lastCamera := o.camera;
    }

    /** What it observed, the interval it declares and the state of its source. */
    method NoteFact(o: Observation)
      modifies this
      ensures var r := old(Snapshot());
              Snapshot() == r.(
                facts := r.facts + {o.fact}, factTimes := r.factTimes[o.fact := o.at],
                health := r.health[o.source := o.health], coverage := NotedCoverage(r.coverage, o), watermark := NotedWatermark(r.watermark, o),
                timeline := r.timeline + [EntryOf(o)],
                compromised := r.compromised || QualityFault(o) || CoverageFault(o))
    {
      hide NotedCoverage, CoverageFault, EntryOf;
      if !o.direct || !o.visibility.Clear? {
        compromised := true;
      }
      if o.fact.VisibilityLost? || o.fact.CameraGap? {
        compromised := true;
      }
      facts := facts + {o.fact};
      factTimes := factTimes[o.fact := o.at];
      health := health[o.source := o.health];
      NoteCoverage(o);
      if o.fact.NoMatchedCheckoutEvent? {
        watermark := if o.watermark.Some? && o.watermark.value != 0 then o.watermark.value else -1;
      }
      timeline := timeline + [EntryOf(o)];
    }

    method NoteCoverage(o: Observation)
      modifies this`coverage, this`compromised
      ensures coverage == NotedCoverage(old(coverage), o)
      ensures compromised == (old(compromised) || CoverageFault(o))
    {
      if o.Covering() {
        if o.coverageStart.None? || o.coverageEnd.None? || o.coverageEnd.value < o.coverageStart.value {
          compromised := true;
        } else {
          var spans := if o.fact in coverage then coverage[o.fact] else [];
          coverage := coverage[o.fact := spans + [Span(o.coverageStart.value, o.coverageEnd.value)]];
        }
      }
    }

    method Transition(o: Observation, b: Bounds)
      modifies this`compromised, this`state
      ensures state == NextState(old(state), o.fact)
      ensures compromised == (old(compromised)
        || TransitionFault(old(state), PersonConfirmed in facts, TimeOf(old(Snapshot()), ExitCrossed), o, b))
    {
      match o.fact
      case ShelfDeparture =>
        if !state.OnShelf? { compromised := true; }
        state := Unaccounted;
      case HandCustody =>
        if !state.Unaccounted? { compromised := true; }
        state := InHand;
      case ReturnToShelf =>
        if !state.InHand? { compromised := true; }
        state := Returned;
      case PlaceInBasket =>
        if !state.InHand? { compromised := true; }
        state := InBasket;
      case ConcealmentTransition =>
        if !state.InHand? || PersonConfirmed !in facts { compromised := true; }
        state := ConcealedObserved;
      case CheckoutCompleted =>
        if !o.linked || !o.source.PosReconciliation? { compromised := true; }
        if !(state.InHand? || state.InBasket? || state.ConcealedObserved?) { compromised := true; }
        state := Purchased;
      case CustodyContinuousToExit =>
        if !o.source.Tracker? || !(state.InHand? || state.ConcealedObserved?) { compromised := true; }
      case CheckoutPathObserved =>
        if !o.source.Tracker? { compromised := true; }
      case NoMatchedCheckoutEvent =>
        var exitAt := if ExitCrossed in factTimes then factTimes[ExitCrossed] else -1;
        if !o.source.PosReconciliation? || !o.linked || !o.health.Healthy? || exitAt < 0
           || o.at < exitAt + b.posGraceMs || o.watermark.None? || o.watermark.value < exitAt {
          compromised := true;
        }
      case ExitCrossed =>
        if !o.source.Tracker? { compromised := true; }
      case _ =>
    }

    /** Takes in one observation; the answer says whether the timeline lost its oldest entry. */
    method Absorb(o: Observation, b: Bounds) returns (truncated: bool)
      modifies this
      ensures Snapshot() == Absorbed(old(Snapshot()), o, b)
      ensures truncated == Overflows(old(Snapshot()))
    {
      hide DurationFault, CameraFault, QualityFault, CoverageFault, TransitionFault, NextState;
      ghost var before := Snapshot();
      NoteArrival(o, b);
      NoteFact(o);
      truncated := |timeline| > MAX_EVENTS_PER_RECORD;
      if truncated {
        var removed := timeline[0];
        timeline := timeline[1..];
        eventIds := eventIds - {removed.id};
      }
      assert Snapshot() == Trimmed(Noted(before, o)).(compromised := before.compromised || EntryFault(before, o, b));
      Transition(o, b);
    }

    /** Takes in an observation unless it is a repeat or late. */
    method Receive(o: Observation, b: Bounds) returns (truncated: bool)
      modifies this
      ensures Snapshot() == Received(old(Snapshot()), o, b)
      ensures truncated == (Accepts(old(Snapshot()), o) && Overflows(old(Snapshot())))
    {
      hide Absorbed;
      truncated := false;
      if o.id in eventIds {
        if eventIds[o.id] != o {
          compromised := true;
        }
      } else if o.at <= lastAt {
        compromised := true;
      } else {
        truncated := Absorb(o, b);
      }
    }

    /** The decision, read from the record as it is. */
    method Decision(degraded: bool, b: Bounds) returns (decision: Decision)
      ensures decision == Decide(Snapshot(), degraded, b)
    {
      if degraded || compromised {
        decision := Abstain;
      } else if state.Returned? || state.Purchased? {
        decision := NormalResolved;
      } else if state.InBasket? {
        decision := Observing;
      } else if state.ConcealedObserved? {
        decision := ReviewRequired;
      } else if ExitCrossed in facts && (state.InHand? || state.Unaccounted?) {
        decision := ReviewRequired;
      } else {
        decision := Observing;
      }
      var shelfAt := TimeOf(Snapshot(), ShelfDeparture);
      var exitAt := TimeOf(Snapshot(), ExitCrossed);
      var complete := shelfAt >= 0 && exitAt >= shelfAt;
      if complete {
        complete := RunSweep(SpansOf(Snapshot(), CustodyContinuousToExit), shelfAt, exitAt);
      }
      if complete {
        complete := RunSweep(SpansOf(Snapshot(), CheckoutPathObserved), shelfAt, exitAt);
      }
      if ExitCrossed in facts && (CustodyContinuousToExit in facts || CheckoutPathObserved in facts) && !complete {
        decision := Abstain;
      }
      var resolvedAt := Max(TimeOf(Snapshot(), CheckoutCompleted), TimeOf(Snapshot(), ReturnToShelf));
      if !compromised && !degraded && REQUIRED_FACTS <= facts && OrderedChain(Snapshot()) && complete
         && PosFinalized(Snapshot(), b) && resolvedAt < shelfAt {
        decision := HighAttention;
      }
    }

    method Report(subject: Subject, degraded: bool, b: Bounds) returns (a: Assessment)
      ensures a == Assess(Snapshot(), subject, degraded, b)
    {
      hide Decide;
      var decision := Decision(degraded, b);
      a := Assessment(subject, state, decision, decision.HighAttention? && !degraded, degraded, timeline);
    }
  }

  lemma EvictionMeans(e: EngineState, b: Bounds)
    requires Listed(e) && b.Valid()
    ensures Listed(Evicted(e, b))
    ensures if |e.records| >= b.maxRecords
            then e.order != [] && (forall k :: k in e.order ==> k in e.records)
                 && var oldest := Oldest(LastTimes(e.records), e.order);
                    Evicted(e, b) == EngineState(e.records - {oldest}, Without(e.order, oldest), true)
            else Evicted(e, b) == e
  {
    if |e.records| >= b.maxRecords {
      MustBeListed(e);
      WithoutOne(e.order, Oldest(LastTimes(e.records), e.order));
    }
  }

  lemma ObservedMeans(e: EngineState, o: Observation, b: Bounds)
    requires Listed(e) && b.Valid() && o.subject in Opened(e, o.subject, b).records
    ensures var open := Opened(e, o.subject, b);
            var r := open.records[o.subject];
            Observed(e, o, b) == EngineState(open.records[o.subject := Received(r, o, b)], open.order,
                                             open.degraded || (Accepts(r, o) && Overflows(r)))
  {
    hide Received, Accepts, Overflows, Opened;
  }

  lemma ListedByKeys(e: EngineState, e': EngineState)
    requires Listed(e) && e'.order == e.order && e'.records.Keys == e.records.Keys
    ensures Listed(e')
  {
  }

  lemma AppendListed(e: EngineState, s: Subject)
    requires Listed(e) && s !in e.records
    ensures Listed(e.(records := e.records[s := FRESH], order := e.order + [s]))
  {
  }

  lemma SameTimes(engine: ProductCustodyEngine)
    ensures LastTimes(engine.Snapshot().records) == engine.Times()
    ensures engine.Snapshot().records.Keys == engine.records.Keys && engine.Snapshot().order == engine.order
    ensures |engine.Snapshot().records| == |engine.records|
  {
    assert |engine.Snapshot().records| == |engine.Snapshot().records.Keys|;
    assert |engine.records| == |engine.records.Keys|;
  }

  class ProductCustodyEngine {
    const bounds: Bounds
    var records: map<Subject, Record>
    var order: seq<Subject>
    var capacityDegraded: bool

    ghost predicate Valid()
      reads this, records.Values
    {
      && bounds.Valid() && Listed(Snapshot())
      && (forall j, k | j in records && k in records && records[j] == records[k] :: j == k)
    }

    constructor (bounds: Bounds)
      requires bounds.Valid()
      ensures Valid() && Snapshot() == EMPTY && this.bounds == bounds
    {
      this.bounds := bounds;
      records, order, capacityDegraded := map[], [], false;
    }

    ghost function Snapshot(): EngineState
      reads this, records.Values
    {
      EngineState(map k | k in records :: records[k].Snapshot(), order, capacityDegraded)
    }

    method Reset()
      modifies this
      ensures bounds.Valid() ==> Valid()
      ensures Snapshot() == EMPTY
    {
      records, order, capacityDegraded := map[], [], false;
    }

    function Times(): map<Subject, int>
      reads this, records.Values
    {
      map k | k in records :: records[k].lastAt
    }

    /** The first key, in order of insertion, with the smallest last observation. */
    method FindOldest() returns (oldest: Subject)
      requires order != [] && forall k :: k in order ==> k in records
      ensures oldest == Oldest(Times(), order)
    {
      ghost var times := Times();
      var n := |order| - 1;
      oldest := order[n];
      while n > 0
        invariant 0 <= n < |order|
        invariant oldest == Oldest(times, order[n..])
        invariant oldest in records
      {
        n := n - 1;
        assert order[n..][1..] == order[n + 1..] && order[n..][0] == order[n];
        if records[order[n]].lastAt <= records[oldest].lastAt {
          oldest := order[n];
        }
      }
      assert order[0..] == order;
    }

    method Forget(s: Subject)
      modifies this
      ensures Snapshot() == EngineState(old(Snapshot()).records - {s}, Without(old(order), s), true)
      ensures records == old(records) - {s}
    {
      hide Without, Record.Snapshot;
      records := records - {s};
      order := Without(order, s);
      capacityDegraded := true;
    }

    method MakeRoom()
      requires Valid()
      modifies this
      ensures Valid()
      ensures Snapshot() == Evicted(old(Snapshot()), bounds)
      ensures forall k :: k in records ==> k in old(records) && records[k] == old(records[k])
    {
      hide Oldest, Without, Listed, Evicted, Record.Snapshot, Snapshot;
      SameTimes(this);
      EvictionMeans(Snapshot(), bounds);
      if |records| >= bounds.maxRecords {
        var oldest := FindOldest();
        Forget(oldest);
      }
    }

    method Open(s: Subject) returns (record: Record)
      requires Valid()
      modifies this
      ensures Valid() && s in records && records[s] == record
      ensures Snapshot() == Opened(old(Snapshot()), s, bounds)
      ensures forall k :: k in records && k != s ==> k in old(records) && records[k] == old(records[k])
      ensures s in old(records) ==> record == old(records[s])
      ensures s !in old(records) ==> fresh(record)
    {
      hide Evicted, Record.Snapshot;
      if s in records {
        return records[s];
      }
      MakeRoom();
      ghost var room := Snapshot();
      record := new Record();
      records := records[s := record];
      order := order + [s];
      assert Snapshot().records == room.records[s := FRESH];
      assert forall k :: k in room.order <==> k in room.records;
      AppendListed(room, s);
    }

    method Observe(o: Observation) returns (r: Option<Assessment>)
      requires Valid()
      modifies this, records.Values
      ensures Valid()
      ensures !o.Valid() ==> r == None && Snapshot() == old(Snapshot())
      ensures o.Valid() ==> Snapshot() == Observed(old(Snapshot()), o, bounds)
      ensures o.Valid() ==>
                r == Some(Assess(Snapshot().records[o.subject], o.subject, capacityDegraded, bounds))
    {
      hide Received, Overflows, Accepts, Assess, Opened, Observed, Listed, Record.Snapshot;
      if !o.Valid() {
        return None;
      }
      ghost var start := Snapshot();
      var record := Open(o.subject);
      ghost var before := Snapshot();
      var truncated := record.Receive(o, bounds);
      if truncated {
        capacityDegraded := true;
      }
      assert Snapshot().records == before.records[o.subject := Received(before.records[o.subject], o, bounds)];
      ListedByKeys(before, Snapshot());
      ObservedMeans(start, o, bounds);
      var report := record.Report(o.subject, capacityDegraded, bounds);
      r := Some(report);
    }
  }
}
