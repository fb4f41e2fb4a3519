/** The custody record of one anonymous visit and product, the effect of one
    observation on it, and the decision read from it. */
module CustodyModel {
  import opened Basics
  import opened CustodyCoverage

  const MAX_EVENTS_PER_RECORD := 128
  const MAX_TEXT := 160

  datatype Fact =
    | PersonConfirmed | ShelfDeparture | HandCustody | ReturnToShelf | PlaceInBasket
    | ConcealmentTransition | CheckoutCompleted | ExitCrossed | CameraHandoff
    | CustodyContinuousToExit | CheckoutPathObserved | NoMatchedCheckoutEvent
    | VisibilityLost | CameraGap

  datatype CustodyState = OnShelf | InHand | InBasket | ConcealedObserved | Purchased | Returned | Unaccounted

  datatype Decision = Observing | NormalResolved | ReviewRequired | HighAttention | Abstain

  datatype Visibility = Clear | Partial | Poor

  datatype Association = NotApplicable | Confirmed | Ambiguous

  datatype SourceKind = Vision | Tracker | PosReconciliation

  datatype Health = Unknown | Healthy | Degraded

  datatype Subject = Subject(visit: string, episode: string, product: string)

  datatype Observation = Observation(
    id: string, subject: Subject, camera: string, at: int, fact: Fact,
    visibility: Visibility, direct: bool, association: Association, linked: bool, source: SourceKind,
    coverageStart: Option<int>, coverageEnd: Option<int>, health: Health, watermark: Option<int>,
    evidence: string)
  {
    predicate Valid() {
      && id != "" && subject.visit != "" && subject.episode != "" && subject.product != "" && camera != ""
      && at >= 0
      && (coverageStart.Some? ==> coverageStart.value >= 0)
      && (coverageEnd.Some? ==> coverageEnd.value >= 0)
      && (watermark.Some? ==> watermark.value >= 0)
      && |id| <= MAX_TEXT && |subject.visit| <= MAX_TEXT && |subject.episode| <= MAX_TEXT
      && |subject.product| <= MAX_TEXT && |camera| <= MAX_TEXT && |evidence| <= MAX_TEXT
    }

    predicate Covering() {
      fact.CustodyContinuousToExit? || fact.CheckoutPathObserved?
    }

    predicate CoverageDeclared() {
      coverageStart.Some? && coverageEnd.Some? && coverageStart.value <= coverageEnd.value
    }
  }

  datatype Bounds = Bounds(maxRecords: int, maxEpisodeMs: int, posGraceMs: int)
  {
    predicate Valid() {
      maxRecords >= 1 && maxEpisodeMs >= 60_000 && posGraceMs >= 0
    }
  }

  datatype Entry = Entry(id: string, at: int, fact: Fact, camera: string, evidence: string)

  datatype RecordState = RecordState(
    state: CustodyState, lastAt: int, startedAt: int, lastCamera: string,
    facts: set<Fact>, factTimes: map<Fact, int>, eventIds: map<string, Observation>,
    timeline: seq<Entry>, compromised: bool, coverage: map<Fact, seq<Span>>,
    watermark: int, health: map<SourceKind, Health>)

  const FRESH := RecordState(OnShelf, -1, -1, "", {}, map[], map[], [], false, map[], -1, map[])

  function TimeOf(r: RecordState, f: Fact): int {
    if f in r.factTimes then r.factTimes[f] else -1
  }

  function SpansOf(r: RecordState, f: Fact): seq<Span> {
    if f in r.coverage then r.coverage[f] else []
  }

  function EntryOf(o: Observation): Entry {
    Entry(o.id, o.at, o.fact, o.camera, o.evidence)
  }

  // ------------------------------------------------ faults of the observation itself

  predicate DurationFault(r: RecordState, o: Observation, b: Bounds) {
    r.startedAt >= 0 && o.at - r.startedAt > b.maxEpisodeMs
  }

  predicate CameraFault(r: RecordState, o: Observation) {
    if o.fact.CameraHandoff? then
      r.lastCamera == "" || o.camera == r.lastCamera || !o.association.Confirmed? || !o.source.Tracker?
    else r.lastCamera != "" && o.camera != r.lastCamera
  }

  predicate QualityFault(o: Observation) {
    !o.direct || !o.visibility.Clear? || o.fact.VisibilityLost? || o.fact.CameraGap?
  }

  predicate CoverageFault(o: Observation) {
    o.Covering() && !o.CoverageDeclared()
  }

  predicate EntryFault(r: RecordState, o: Observation, b: Bounds) {
    DurationFault(r, o, b) || CameraFault(r, o) || QualityFault(o) || CoverageFault(o)
  }

  // --------------------------------------------------------- faults of the transition

  predicate TransitionFault(state: CustodyState, personSeen: bool, exitAt: int, o: Observation, b: Bounds) {
    match o.fact
    case ShelfDeparture => !state.OnShelf?
    case HandCustody => !state.Unaccounted?
    case ReturnToShelf => !state.InHand?
    case PlaceInBasket => !state.InHand?
    case ConcealmentTransition => !state.InHand? || !personSeen
    case CheckoutCompleted =>
      !o.linked || !o.source.PosReconciliation? || !(state.InHand? || state.InBasket? || state.ConcealedObserved?)
    case CustodyContinuousToExit => !o.source.Tracker? || !(state.InHand? || state.ConcealedObserved?)
    case CheckoutPathObserved => !o.source.Tracker?
    case NoMatchedCheckoutEvent =>
      !o.source.PosReconciliation? || !o.linked || !o.health.Healthy? || exitAt < 0
      || o.at < exitAt + b.posGraceMs || o.watermark.None? || o.watermark.value < exitAt
    case ExitCrossed => !o.source.Tracker?
    case _ => false
  }

  function NextState(state: CustodyState, f: Fact): CustodyState {
    match f
    case ShelfDeparture => Unaccounted
    case HandCustody => InHand
    case ReturnToShelf => Returned
    case PlaceInBasket => InBasket
    case ConcealmentTransition => ConcealedObserved
    case CheckoutCompleted => Purchased
    case _ => state
  }

  // ------------------------------------------------------------------ one observation

  function NotedCoverage(coverage: map<Fact, seq<Span>>, o: Observation): map<Fact, seq<Span>> {
    if o.Covering() && o.CoverageDeclared() then
      var spans := if o.fact in coverage then coverage[o.fact] else [];
      coverage[o.fact := spans + [Span(o.coverageStart.value, o.coverageEnd.value)]]
    else coverage
  }

  /** A missing watermark and the watermark zero are both kept as minus one. */
  function NotedWatermark(watermark: int, o: Observation): int {
    if !o.fact.NoMatchedCheckoutEvent? then watermark
    else if o.watermark.None? || o.watermark.value == 0 then -1
    else o.watermark.value
  }

  /** The fields that every accepted observation writes. */
  function Noted(r: RecordState, o: Observation): RecordState {
    r.(lastAt := o.at,
       startedAt := if r.startedAt < 0 then o.at else r.startedAt,
       eventIds := r.eventIds[o.id := o],
       lastCamera := o.camera,
       facts := r.facts + {o.fact},
       factTimes := r.factTimes[o.fact := o.at],
       health := r.health[o.source := o.health],
       coverage := NotedCoverage(r.coverage, o),
       watermark := NotedWatermark(r.watermark, o),
       timeline := r.timeline + [EntryOf(o)])
  }

  predicate Overflows(r: RecordState) {
    |r.timeline| >= MAX_EVENTS_PER_RECORD
  }

  /** Drops the oldest entry, and its identifier, once there is one too many. */
  function Trimmed(r: RecordState): RecordState {
    if |r.timeline| > MAX_EVENTS_PER_RECORD
    then r.(timeline := r.timeline[1..], eventIds := r.eventIds - {r.timeline[0].id})
    else r
  }

  function Absorbed(r: RecordState, o: Observation, b: Bounds): RecordState {
    var noted := Trimmed(Noted(r, o));
    noted.(compromised := r.compromised || EntryFault(r, o, b)
             || TransitionFault(r.state, PersonConfirmed in noted.facts, TimeOf(noted, ExitCrossed), o, b),
           state := NextState(r.state, o.fact))
  }

  /** An exact repeat changes nothing, a conflicting or late one compromises the record. */
  function Received(r: RecordState, o: Observation, b: Bounds): RecordState {
    if o.id in r.eventIds then
      if r.eventIds[o.id] != o then r.(compromised := true) else r
    else if o.at <= r.lastAt then r.(compromised := true)
    else Absorbed(r, o, b)
  }

  predicate Accepts(r: RecordState, o: Observation) {
    o.id !in r.eventIds && o.at > r.lastAt
  }

  // ----------------------------------------------------------------------- the decision

  predicate OrderedChain(r: RecordState) {
    TimeOf(r, PersonConfirmed) < TimeOf(r, ShelfDeparture) < TimeOf(r, HandCustody)
      < TimeOf(r, ConcealmentTransition) < TimeOf(r, ExitCrossed)
  }

  predicate CoverageComplete(r: RecordState) {
    var shelfAt, exitAt := TimeOf(r, ShelfDeparture), TimeOf(r, ExitCrossed);
    && shelfAt >= 0 && exitAt >= shelfAt
    && Covers(SpansOf(r, CustodyContinuousToExit), shelfAt, exitAt)
    && Covers(SpansOf(r, CheckoutPathObserved), shelfAt, exitAt)
  }

  predicate PosFinalized(r: RecordState, b: Bounds) {
    var exitAt := TimeOf(r, ExitCrossed);
    && PosReconciliation in r.health && r.health[PosReconciliation].Healthy?
    && r.watermark >= exitAt >= 0
    && TimeOf(r, NoMatchedCheckoutEvent) >= exitAt + b.posGraceMs
  }

  const REQUIRED_FACTS: set<Fact> := {
    PersonConfirmed, ShelfDeparture, HandCustody, ConcealmentTransition, ExitCrossed,
    CustodyContinuousToExit, CheckoutPathObserved, NoMatchedCheckoutEvent }

  predicate Alarming(r: RecordState, b: Bounds) {
    && !r.compromised && REQUIRED_FACTS <= r.facts
    && OrderedChain(r) && CoverageComplete(r) && PosFinalized(r, b)
    && Max(TimeOf(r, CheckoutCompleted), TimeOf(r, ReturnToShelf)) < TimeOf(r, ShelfDeparture)
  }

  function Decide(r: RecordState, degraded: bool, b: Bounds): Decision {
    if !degraded && Alarming(r, b) then HighAttention
    else if ExitCrossed in r.facts && (CustodyContinuousToExit in r.facts || CheckoutPathObserved in r.facts)
            && !CoverageComplete(r) then Abstain
    else if degraded || r.compromised then Abstain
    else if r.state.Returned? || r.state.Purchased? then NormalResolved
    else if r.state.InBasket? then Observing
    else if r.state.ConcealedObserved? then ReviewRequired
    else if ExitCrossed in r.facts && (r.state.InHand? || r.state.Unaccounted?) then ReviewRequired
    else Observing
  }

  datatype Assessment = Assessment(
    subject: Subject, state: CustodyState, decision: Decision, alarmEligible: bool, degraded: bool, timeline: seq<Entry>)

  function Assess(r: RecordState, subject: Subject, degraded: bool, b: Bounds): Assessment {
    var decision := Decide(r, degraded, b);
    Assessment(subject, r.state, decision, decision.HighAttention? && !degraded, degraded, r.timeline)
  }

  // ------------------------------------------------------------------------- the engine

  /** The records, in the order in which they were created, and the capacity flag. */
  datatype EngineState = EngineState(records: map<Subject, RecordState>, order: seq<Subject>, degraded: bool)

  const EMPTY := EngineState(map[], [], false)

  function LastTimes(records: map<Subject, RecordState>): map<Subject, int> {
    map k | k in records :: records[k].lastAt
  }

  /** The first of the records that were seen longest ago. */
  function Oldest(times: map<Subject, int>, order: seq<Subject>): (s: Subject)
    requires order != [] && forall k :: k in order ==> k in times
    ensures s in order && forall k :: k in order ==> times[s] <= times[k]
  {
    if |order| == 1 then order[0]
    else
      var rest := Oldest(times, order[1..]);
      if times[order[0]] <= times[rest] then order[0] else rest
  }

  function Without(order: seq<Subject>, s: Subject): seq<Subject> {
    if order == [] then [] else if order[0] == s then order[1..] else [order[0]] + Without(order[1..], s)
  }

  ghost predicate Distinct(order: seq<Subject>) {
    forall i, j :: 0 <= i < j < |order| ==> order[i] != order[j]
  }

  ghost predicate Listed(e: EngineState) {
    && (forall k :: k in e.order <==> k in e.records)
    && Distinct(e.order)
  }

  lemma MustBeListed(e: EngineState)
    requires Listed(e) && |e.records| >= 1
    ensures e.order != []
  {
    assert e.records.Keys != {};
    var k :| k in e.records.Keys;
    assert k in e.order;
  }

  lemma WithoutOne(order: seq<Subject>, s: Subject)
    requires Distinct(order)
    ensures forall k :: k in Without(order, s) <==> k in order && k != s
    ensures Distinct(Without(order, s))
  {
    if order != [] && order[0] != s {
      var tail := Without(order[1..], s);
      WithoutOne(order[1..], s);
      assert order == [order[0]] + order[1..];
      assert order[0] !in order[1..] && order[0] !in tail;
      assert Without(order, s) == [order[0]] + tail;
    }
  }

  /** Makes room by forgetting the oldest record, which ends the run for every record. */
  function Evicted(e: EngineState, b: Bounds): EngineState
    requires Listed(e) && b.Valid()
  {
    if |e.records| >= b.maxRecords then
      MustBeListed(e);
      var oldest := Oldest(LastTimes(e.records), e.order);
      EngineState(e.records - {oldest}, Without(e.order, oldest), true)
    else e
  }

  function Opened(e: EngineState, s: Subject, b: Bounds): EngineState
    requires Listed(e) && b.Valid()
  {
    if s in e.records then e
    else
      var room := Evicted(e, b);
      room.(records := room.records[s := FRESH], order := room.order + [s])
  }

  function Observed(e: EngineState, o: Observation, b: Bounds): EngineState
    requires Listed(e) && b.Valid()
  {
    var open := Opened(e, o.subject, b);
    var r := if o.subject in open.records then open.records[o.subject] else FRESH;
    open.(records := open.records[o.subject := Received(r, o, b)],
          degraded := open.degraded || (Accepts(r, o) && Overflows(r)))
  }
}
