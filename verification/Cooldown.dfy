/** The replay of the alarm cooldown over recorded windows: a greedy choice per session,
    shown to be as large as any other choice that keeps the same distance. */
module Cooldown {
  import opened Basics
  import opened Sorting

  const TOLERANCE := 0.000001

  /** `concealment` is the adjudicated label. */
  datatype Window = Window(id: Id, session: Id, start: real, end: real, concealment: bool)

  datatype Prediction = Prediction(ok: bool, alarmEligible: bool, wallMs: Option<real>)

  predicate ByEndAndId(a: Window, b: Window) {
    a.end < b.end || (a.end == b.end && a.id <= b.id)
  }

  predicate ByEnd(a: Window, b: Window) {
    a.end <= b.end
  }

  predicate ByStart(a: Window, b: Window) {
    a.start <= b.start
  }

  /** The browser's own threshold, on measured processing time. */
  predicate SoundCandidate(p: Prediction, freshnessSeconds: real) {
    p.ok && p.alarmEligible && p.wallMs.Some? && p.wallMs.value <= freshnessSeconds * 1000.0
  }

  predicate Signals(p: Prediction) {
    p.alarmEligible && p.ok
  }

  // -------------------------------------------------------------- the greedy choice

  /** What has been chosen so far: how many, and when the last of them ended. */
  datatype Choice = Choice(count: nat, last: Option<real>)

  predicate Sounds(c: Choice, end: real, cooldown: real) {
    c.last.None? || end - c.last.value >= cooldown
  }

  function Choose(c: Choice, end: real, cooldown: real): Choice {
    if Sounds(c, end, cooldown) then Choice(c.count + 1, Some(end)) else c
  }

  /** The greedy choice over times in ascending order. */
  function Greedy(times: seq<real>, cooldown: real): Choice {
    if times == [] then Choice(0, None)
    else Choose(Greedy(times[..|times| - 1], cooldown), times[|times| - 1], cooldown)
  }

  ghost predicate Ascends(times: seq<real>) {
    forall i, j :: 0 <= i < j < |times| ==> times[i] <= times[j]
  }

  /** Positions whose times are pairwise at least the cooldown apart. */
  ghost predicate Apart(times: seq<real>, picks: set<int>, cooldown: real) {
    && (forall i :: i in picks ==> 0 <= i < |times|)
    && (forall i, j :: i in picks && j in picks && i < j ==> times[j] - times[i] >= cooldown)
  }

  lemma {:induction false} LastWasChosen(times: seq<real>, cooldown: real)
    requires Ascends(times)
    ensures Greedy(times, cooldown).last.Some? <==> times != []
    ensures times != [] ==> Greedy(times, cooldown).last.value <= times[|times| - 1]
    ensures Greedy(times, cooldown).count == 0 <==> times == []
    decreases |times|
  {
    if times != [] {
      LastWasChosen(times[..|times| - 1], cooldown);
    }
  }

  lemma NoPicks(times: seq<real>, picks: set<int>, cooldown: real)
    requires Apart(times, picks, cooldown) && times == []
    ensures picks == {}
  {
    assert forall i: int :: i !in picks;
    assert picks == set i: int | i in picks;
  }

  lemma ApartFront(times: seq<real>, picks: set<int>, cooldown: real, n: int)
    requires Apart(times, picks, cooldown) && n == |times| - 1 >= 0
    ensures Apart(times[..n], picks - {n}, cooldown)
    ensures n in picks ==> |picks| == |picks - {n}| + 1 && (forall i :: i in picks - {n} ==> times[n] - times[i] >= cooldown)
    ensures n !in picks ==> picks - {n} == picks
  {
    if n in picks {
      assert picks == (picks - {n}) + {n};
    }
  }

  /** The greedy choice stays ahead of any other: it has as many, and where the other one
      has as many and could take a later time, so can the greedy one. */
  lemma {:induction false} StaysAhead(times: seq<real>, cooldown: real, picks: set<int>, t: real)
    requires Ascends(times) && Apart(times, picks, cooldown) && cooldown >= 0.0
    requires forall i :: i in picks ==> t - times[i] >= cooldown
    ensures |picks| <= Greedy(times, cooldown).count
    ensures |picks| == Greedy(times, cooldown).count ==> Sounds(Greedy(times, cooldown), t, cooldown)
    decreases |times|
  {
    hide Apart;
    if times == [] {
      NoPicks(times, picks, cooldown);
    } else {
      var n := |times| - 1;
      var front, fewer := times[..n], picks - {n};
      ApartFront(times, picks, cooldown, n);
      LastWasChosen(front, cooldown);
      StaysAhead(front, cooldown, fewer, if n in picks then times[n] else t);
      assert front == [] || front[|front| - 1] <= times[n];
    }
  }

  /** No choice of times that keeps the cooldown is larger than the greedy one. */
  lemma GreedyIsLargest(times: seq<real>, cooldown: real, picks: set<int>)
    requires Ascends(times) && Apart(times, picks, cooldown) && cooldown >= 0.0
    ensures |picks| <= Greedy(times, cooldown).count
  {
    if times == [] {
      NoPicks(times, picks, cooldown);
    } else {
      StaysAhead(times, cooldown, picks, times[|times| - 1] + cooldown);
    }
  }

  // ------------------------------------------------------------------ one session

  datatype Replay = Replay(emitted: seq<Window>, suppressed: seq<Window>, stale: seq<Window>, unassessed: seq<Window>)

  const NOTHING := Replay([], [], [], [])

  function Together(a: Replay, b: Replay): Replay {
    Replay(a.emitted + b.emitted, a.suppressed + b.suppressed, a.stale + b.stale, a.unassessed + b.unassessed)
  }

  predicate Known(ws: seq<Window>, found: map<Id, Prediction>) {
    forall w :: w in ws ==> w.id in found
  }

  function Fresh(ws: seq<Window>, found: map<Id, Prediction>, freshness: real): (r: seq<Window>)
    requires Known(ws, found)
  {
    if ws == [] then []
    else
      var rest := Fresh(ws[..|ws| - 1], found, freshness);
      if SoundCandidate(found[ws[|ws| - 1].id], freshness) then rest + [ws[|ws| - 1]] else rest
  }

  function Eligible(ws: seq<Window>, found: map<Id, Prediction>): (r: seq<Window>)
    requires Known(ws, found)
  {
    if ws == [] then []
    else
      var rest := Eligible(ws[..|ws| - 1], found);
      if Signals(found[ws[|ws| - 1].id]) then rest + [ws[|ws| - 1]] else rest
  }

  function Ends(ws: seq<Window>): (r: seq<real>)
    ensures |r| == |ws|
  {
    seq(|ws|, i requires 0 <= i < |ws| => ws[i].end)
  }

  ghost predicate Spaced(ws: seq<Window>, cooldown: real) {
    forall i, j :: 0 <= i < j < |ws| ==> ws[j].end - ws[i].end >= cooldown
  }

  ghost function Counted(r: Replay): multiset<Window> {
    multiset(r.emitted) + multiset(r.suppressed) + multiset(r.stale) + multiset(r.unassessed)
  }

  ghost function Prompt(r: Replay): multiset<Window> {
    multiset(r.emitted) + multiset(r.suppressed)
  }

  /** The four lists hold every eligible window once, the first two every fresh one. */
  ghost predicate Partitions(r: Replay, ws: seq<Window>, found: map<Id, Prediction>, freshness: real)
    requires Known(ws, found)
  {
    && Counted(r) == multiset(Eligible(ws, found))
    && Prompt(r) == multiset(Fresh(ws, found, freshness))
    && (forall w :: w in r.unassessed ==> w.id in found && found[w.id].wallMs.None?)
    && (forall w :: w in r.stale ==>
          w.id in found && found[w.id].wallMs.Some? && found[w.id].wallMs.value > freshness * 1000.0)
  }

  lemma StepFresh(ws: seq<Window>, n: nat, found: map<Id, Prediction>, freshness: real)
    requires Known(ws, found) && n < |ws|
    ensures Known(ws[..n], found) && Known(ws[..n + 1], found)
    ensures Fresh(ws[..n + 1], found, freshness)
         == Fresh(ws[..n], found, freshness) + if SoundCandidate(found[ws[n].id], freshness) then [ws[n]] else []
    ensures Eligible(ws[..n + 1], found) == Eligible(ws[..n], found) + if Signals(found[ws[n].id]) then [ws[n]] else []
  {
    assert ws[..n + 1][..n] == ws[..n];
  }

  lemma EndsOne(ws: seq<Window>, w: Window)
    ensures Ends(ws + [w]) == Ends(ws) + [w.end]
  {
  }

  lemma GreedyOne(times: seq<real>, t: real, cooldown: real)
    ensures Greedy(times + [t], cooldown) == Choose(Greedy(times, cooldown), t, cooldown)
  {
    assert (times + [t])[..|times|] == times;
  }

  /** Where one window goes. */
  function Placed(r: Replay, w: Window, p: Prediction, sounds: bool, freshness: real): Replay {
    if SoundCandidate(p, freshness) then
      if sounds then r.(emitted := r.emitted + [w]) else r.(suppressed := r.suppressed + [w])
    else if Signals(p) && p.wallMs.None? then r.(unassessed := r.unassessed + [w])
    else if Signals(p) then r.(stale := r.stale + [w])
    else r
  }

  lemma PlacedCounts(r: Replay, w: Window, p: Prediction, sounds: bool, freshness: real)
    ensures var r' := Placed(r, w, p, sounds, freshness);
            && Counted(r') == Counted(r) + (if Signals(p) then multiset{w} else multiset{})
            && Prompt(r') == Prompt(r) + (if SoundCandidate(p, freshness) then multiset{w} else multiset{})
  {
  }

  lemma PlacedPartitions(r: Replay, ws: seq<Window>, n: nat, found: map<Id, Prediction>, sounds: bool, freshness: real)
    requires Known(ws, found) && n < |ws| && Known(ws[..n], found)
    requires Partitions(r, ws[..n], found, freshness)
    ensures Known(ws[..n + 1], found)
    ensures Partitions(Placed(r, ws[n], found[ws[n].id], sounds, freshness), ws[..n + 1], found, freshness)
  {
    hide Fresh, Eligible, Counted, Prompt;
    StepFresh(ws, n, found, freshness);
    PlacedCounts(r, ws[n], found[ws[n].id], sounds, freshness);
  }

  /** What the replay has done with the first windows. */
  ghost predicate Replayed(r: Replay, last: Option<real>, ws: seq<Window>, found: map<Id, Prediction>,
                           cooldown: real, freshness: real)
    requires Known(ws, found)
  {
    && Spaced(r.emitted, cooldown)
    && Choice(|r.emitted|, last) == Greedy(Ends(Fresh(ws, found, freshness)), cooldown)
    && last == (if r.emitted == [] then None else Some(r.emitted[|r.emitted| - 1].end))
    && (forall w :: w in r.emitted ==> w in ws)
  }

  lemma PlacedReplays(r: Replay, last: Option<real>, ws: seq<Window>, n: nat, found: map<Id, Prediction>,
                      cooldown: real, freshness: real)
    requires Known(ws, found) && n < |ws| && Known(ws[..n], found) && cooldown >= 0.0
    requires Replayed(r, last, ws[..n], found, cooldown, freshness)
    ensures Known(ws[..n + 1], found)
    ensures var p := found[ws[n].id];
            var sounds := SoundCandidate(p, freshness) && Sounds(Choice(0, last), ws[n].end, cooldown);
            Replayed(Placed(r, ws[n], p, sounds, freshness), if sounds then Some(ws[n].end) else last,
                     ws[..n + 1], found, cooldown, freshness)
  {
    hide Fresh, Eligible, Greedy, SoundCandidate, Signals;
    var w := ws[n];
    StepFresh(ws, n, found, freshness);
    EndsOne(Fresh(ws[..n], found, freshness), w);
    GreedyOne(Ends(Fresh(ws[..n], found, freshness)), w.end, cooldown);
    assert ws[..n + 1] == ws[..n] + [w];
    assert Fresh(ws[..n], found, freshness) + [] == Fresh(ws[..n], found, freshness);
    var e := r.emitted;
    assert forall i :: 0 <= i < |e| ==> e[i].end <= e[|e| - 1].end;
  }

  /** Replays one session, its windows in the order of their ends. */
  method ReplaySession(candidates: seq<Window>, found: map<Id, Prediction>, cooldown: real, freshness: real)
    returns (r: Replay)
    requires Known(candidates, found) && cooldown >= 0.0
    ensures Partitions(r, candidates, found, freshness)
    ensures Spaced(r.emitted, cooldown)
    ensures |r.emitted| == Greedy(Ends(Fresh(candidates, found, freshness)), cooldown).count
    ensures forall w :: w in r.emitted ==> w in candidates
  {
    hide Partitions, Spaced, Greedy, Fresh, Eligible;
    r := NOTHING;
    var last: Option<real> := None;
    var n := 0;
    assert candidates[..0] == [];
    NothingReplayed(found, cooldown, freshness);
    while n < |candidates|
      invariant n <= |candidates| && Known(candidates[..n], found)
      invariant Partitions(r, candidates[..n], found, freshness)
      invariant Replayed(r, last, candidates[..n], found, cooldown, freshness)
    {
      var w := candidates[n];
      var p := found[w.id];
      var eligible := Signals(p);
      var prompt := SoundCandidate(p, freshness);
      var sounded := prompt && (last.None? || w.end - last.value >= cooldown);
      PlacedPartitions(r, candidates, n, found, sounded, freshness);
      PlacedReplays(r, last, candidates, n, found, cooldown, freshness);
      if eligible && p.wallMs.None? {
        r := r.(unassessed := r.unassessed + [w]);
      } else if eligible && !prompt {
        r := r.(stale := r.stale + [w]);
      }
      if sounded {
        r := r.(emitted := r.emitted + [w]);
        last := Some(w.end);
      } else if prompt {
        r := r.(suppressed := r.suppressed + [w]);
      }
      n := n + 1;
    }
    assert candidates[..n] == candidates;
  }

  lemma NothingReplayed(found: map<Id, Prediction>, cooldown: real, freshness: real)
    ensures Partitions(NOTHING, [], found, freshness) && Replayed(NOTHING, None, [], found, cooldown, freshness)
  {
  }

  // ----------------------------------------------------------------- all sessions

  function OfSession(ws: seq<Window>, sid: Id): (r: seq<Window>)
    ensures forall w :: w in r ==> w in ws && w.session == sid
  {
    if ws == [] then []
    else
      var rest := OfSession(ws[..|ws| - 1], sid);
      if ws[|ws| - 1].session == sid then rest + [ws[|ws| - 1]] else rest
  }

  lemma {:induction false} SessionCount(ws: seq<Window>, sid: Id, w: Window)
    ensures multiset(OfSession(ws, sid))[w] == if w.session == sid then multiset(ws)[w] else 0
    decreases |ws|
  {
    if ws != [] {
      assert ws == ws[..|ws| - 1] + [ws[|ws| - 1]];
      SessionCount(ws[..|ws| - 1], sid, w);
    }
  }

  lemma {:induction false} FreshCount(ws: seq<Window>, found: map<Id, Prediction>, freshness: real, w: Window)
    requires Known(ws, found)
    ensures multiset(Fresh(ws, found, freshness))[w]
         == if w in ws && SoundCandidate(found[w.id], freshness) then multiset(ws)[w] else 0
    ensures multiset(Eligible(ws, found))[w] == if w in ws && Signals(found[w.id]) then multiset(ws)[w] else 0
    decreases |ws|
  {
    if ws != [] {
      assert ws == ws[..|ws| - 1] + [ws[|ws| - 1]];
      FreshCount(ws[..|ws| - 1], found, freshness, w);
    }
  }

  lemma OrdersAreOrders()
    ensures IsOrder(ByEndAndId) && IsOrder(ByEnd) && IsOrder(ByStart)
  {
  }

  /** The windows of one session, as the replay reads them. */
  function InReplayOrder(ws: seq<Window>, sid: Id): seq<Window> {
    Sort(OfSession(ws, sid), ByEndAndId)
  }

  lemma ReplayOrderKnown(ws: seq<Window>, sid: Id, found: map<Id, Prediction>)
    requires Known(ws, found)
    ensures Known(InReplayOrder(ws, sid), found)
    ensures forall w :: w in InReplayOrder(ws, sid) ==> w in ws && w.session == sid
    ensures multiset(InReplayOrder(ws, sid)) == multiset(OfSession(ws, sid))
  {
    OrdersAreOrders();
    SortOrders(OfSession(ws, sid), ByEndAndId);
    SortMembers(OfSession(ws, sid), ByEndAndId);
  }

  /** How many sounds one session gets. */
  function SoundsOf(ws: seq<Window>, sid: Id, found: map<Id, Prediction>, cooldown: real, freshness: real): nat
    requires Known(ws, found)
  {
    ReplayOrderKnown(ws, sid, found);
    Greedy(Ends(Fresh(InReplayOrder(ws, sid), found, freshness)), cooldown).count
  }

  /** How often the lists hold this window, once the sessions in `done` were replayed. */
  ghost predicate AccountsFor(r: Replay, ws: seq<Window>, done: set<Id>, found: map<Id, Prediction>, freshness: real,
                              w: Window)
    requires Known(ws, found)
  {
    && Counted(r)[w] == (if w.session in done && w in ws && Signals(found[w.id]) then multiset(ws)[w] else 0)
    && Prompt(r)[w] == (if w.session in done && w in ws && SoundCandidate(found[w.id], freshness) then multiset(ws)[w] else 0)
  }

  ghost predicate Accounts(r: Replay, ws: seq<Window>, done: set<Id>, found: map<Id, Prediction>, freshness: real)
    requires Known(ws, found)
  {
    forall w :: AccountsFor(r, ws, done, found, freshness, w)
  }

  lemma SessionAccounts(one: Replay, ws: seq<Window>, sid: Id, found: map<Id, Prediction>, freshness: real, w: Window)
    requires Known(ws, found)
    requires Known(InReplayOrder(ws, sid), found) && Partitions(one, InReplayOrder(ws, sid), found, freshness)
    ensures AccountsFor(one, ws, {sid}, found, freshness, w)
  {
    hide Fresh, Eligible, Signals, SoundCandidate, InReplayOrder, Counted;
    var session := InReplayOrder(ws, sid);
    ReplayOrderKnown(ws, sid, found);
    SessionCount(ws, sid, w);
    FreshCount(session, found, freshness, w);
    assert w in session <==> w in multiset(session);
    assert w in ws <==> w in multiset(ws);
  }

  lemma TogetherCounts(a: Replay, b: Replay)
    ensures Counted(Together(a, b)) == Counted(a) + Counted(b)
    ensures Prompt(Together(a, b)) == Prompt(a) + Prompt(b)
  {
  }

  lemma AccountsOneMore(r: Replay, one: Replay, ws: seq<Window>, done: set<Id>, sid: Id, found: map<Id, Prediction>,
                        freshness: real)
    requires Known(ws, found) && sid !in done && Accounts(r, ws, done, found, freshness)
    requires Known(InReplayOrder(ws, sid), found) && Partitions(one, InReplayOrder(ws, sid), found, freshness)
    ensures Accounts(Together(r, one), ws, done + {sid}, found, freshness)
  {
    hide Fresh, Eligible, Signals, SoundCandidate, InReplayOrder, Counted, Prompt, Partitions;
    TogetherCounts(r, one);
    forall w ensures AccountsFor(Together(r, one), ws, done + {sid}, found, freshness, w) {
      SessionAccounts(one, ws, sid, found, freshness, w);
      assert AccountsFor(r, ws, done, found, freshness, w);
    }
  }

  lemma {:induction false} SessionsConcatenate(a: seq<Window>, b: seq<Window>, sid: Id)
    ensures OfSession(a + b, sid) == OfSession(a, sid) + OfSession(b, sid)
    decreases |b|
  {
    if b == [] {
      assert a + b == a;
    } else {
      var n := |b| - 1;
      assert (a + b)[..|a + b| - 1] == a + b[..n];
      SessionsConcatenate(a, b[..n], sid);
    }
  }

  lemma {:induction false} OneSession(ws: seq<Window>, sid: Id, other: Id)
    requires forall w :: w in ws ==> w.session == sid
    ensures OfSession(ws, sid) == ws && (other != sid ==> OfSession(ws, other) == [])
    decreases |ws|
  {
    if ws != [] {
      assert ws == ws[..|ws| - 1] + [ws[|ws| - 1]];
      assert ws[|ws| - 1] in ws;
      OneSession(ws[..|ws| - 1], sid, other);
    }
  }

  /** Each replayed session got its own greedy choice, and the others nothing. */
  ghost predicate EachSession(r: Replay, ws: seq<Window>, done: set<Id>, found: map<Id, Prediction>, cooldown: real,
                              freshness: real)
    requires Known(ws, found)
  {
    forall sid ::
      if sid in done then
        |OfSession(r.emitted, sid)| == SoundsOf(ws, sid, found, cooldown, freshness) && Spaced(OfSession(r.emitted, sid), cooldown)
      else OfSession(r.emitted, sid) == []
  }

  lemma EachSessionOneMore(r: Replay, one: Replay, ws: seq<Window>, done: set<Id>, sid: Id, found: map<Id, Prediction>,
                           cooldown: real, freshness: real)
    requires Known(ws, found) && sid !in done && EachSession(r, ws, done, found, cooldown, freshness)
    requires |one.emitted| == SoundsOf(ws, sid, found, cooldown, freshness) && Spaced(one.emitted, cooldown)
    requires forall w :: w in one.emitted ==> w.session == sid
    ensures EachSession(Together(r, one), ws, done + {sid}, found, cooldown, freshness)
  {
    hide SoundsOf, Spaced, Known;
    forall other
      ensures OfSession(Together(r, one).emitted, other) == if other == sid then one.emitted else OfSession(r.emitted, other)
    {
      assert OfSession(r.emitted, sid) == [];
      SessionsConcatenate(r.emitted, one.emitted, other);
      OneSession(one.emitted, sid, other);
    }
  }

  /** The replay of all sessions: every eligible window is in exactly one of the four lists, and
      each session's sounds keep the cooldown and are as many as any choice could be. */
  method SimulatedDelivery(windows: seq<Window>, found: map<Id, Prediction>, cooldown: real, freshness: real)
    returns (r: Replay)
    requires Known(windows, found) && cooldown >= 0.0
    ensures Counted(r) == multiset(Eligible(windows, found))
    ensures Prompt(r) == multiset(Fresh(windows, found, freshness))
    ensures forall sid :: |OfSession(r.emitted, sid)| == SoundsOf(windows, sid, found, cooldown, freshness)
    ensures forall sid :: Spaced(OfSession(r.emitted, sid), cooldown)
  {
    hide Accounts, EachSession, Partitions, Spaced, InReplayOrder, SoundsOf, Fresh, Eligible, Greedy;
    r := NOTHING;
    var todo := set w | w in windows :: w.session;
    ghost var all := todo;
    NothingDone(windows, found, cooldown, freshness);
    assert all - todo == {};
    while todo != {}
      invariant todo <= all
      invariant Accounts(r, windows, all - todo, found, freshness)
      invariant EachSession(r, windows, all - todo, found, cooldown, freshness)
      decreases |todo|
    {
      var sid :| sid in todo;
      ReplayOrderKnown(windows, sid, found);
      var one := ReplaySession(InReplayOrder(windows, sid), found, cooldown, freshness);
      AccountsOneMore(r, one, windows, all - todo, sid, found, freshness);
      SoundsOfSession(windows, sid, found, cooldown, freshness);
      EachSessionOneMore(r, one, windows, all - todo, sid, found, cooldown, freshness);
      assert all - todo + {sid} == all - (todo - {sid});
      todo := todo - {sid};
      r := Together(r, one);
    }
    assert all - todo == all;
    AllAccounted(r, windows, all, found, freshness);
    AllSessions(r, windows, all, found, cooldown, freshness);
  }

  lemma NothingDone(ws: seq<Window>, found: map<Id, Prediction>, cooldown: real, freshness: real)
    requires Known(ws, found)
    ensures Accounts(NOTHING, ws, {}, found, freshness) && EachSession(NOTHING, ws, {}, found, cooldown, freshness)
  {
  }

  lemma SoundsOfSession(ws: seq<Window>, sid: Id, found: map<Id, Prediction>, cooldown: real, freshness: real)
    requires Known(ws, found) && Known(InReplayOrder(ws, sid), found)
    ensures SoundsOf(ws, sid, found, cooldown, freshness)
         == Greedy(Ends(Fresh(InReplayOrder(ws, sid), found, freshness)), cooldown).count
  {
  }

  lemma AllAccounted(r: Replay, ws: seq<Window>, all: set<Id>, found: map<Id, Prediction>, freshness: real)
    requires Known(ws, found) && Accounts(r, ws, all, found, freshness)
    requires forall w :: w in ws ==> w.session in all
    ensures Counted(r) == multiset(Eligible(ws, found))
    ensures Prompt(r) == multiset(Fresh(ws, found, freshness))
  {
    hide Fresh, Eligible, Signals, SoundCandidate, Counted, Prompt;
    forall w
      ensures Counted(r)[w] == multiset(Eligible(ws, found))[w]
      ensures Prompt(r)[w] == multiset(Fresh(ws, found, freshness))[w]
    {
      assert AccountsFor(r, ws, all, found, freshness, w);
      FreshCount(ws, found, freshness, w);
    }
  }

  lemma AllSessions(r: Replay, ws: seq<Window>, all: set<Id>, found: map<Id, Prediction>, cooldown: real,
                    freshness: real)
    requires Known(ws, found) && EachSession(r, ws, all, found, cooldown, freshness)
    requires forall w :: w in ws ==> w.session in all
    ensures forall sid :: |OfSession(r.emitted, sid)| == SoundsOf(ws, sid, found, cooldown, freshness)
    ensures forall sid :: Spaced(OfSession(r.emitted, sid), cooldown)
  {
    hide SoundsOf, Spaced, Known;
    forall sid
      ensures |OfSession(r.emitted, sid)| == SoundsOf(ws, sid, found, cooldown, freshness)
      ensures Spaced(OfSession(r.emitted, sid), cooldown)
    {
      if sid !in all {
        NoSounds(ws, sid, found, cooldown, freshness);
        NothingIsSpaced(cooldown);
      }
    }
  }

  lemma NothingIsSpaced(cooldown: real)
    ensures Spaced([], cooldown)
  {
  }

  lemma NoSounds(ws: seq<Window>, sid: Id, found: map<Id, Prediction>, cooldown: real, freshness: real)
    requires Known(ws, found) && forall w :: w in ws ==> w.session != sid
    ensures SoundsOf(ws, sid, found, cooldown, freshness) == 0
  {
    NoneOfSession(ws, sid);
    assert Sort(OfSession(ws, sid), ByEndAndId) == [];
  }

  lemma {:induction false} NoneOfSession(ws: seq<Window>, sid: Id)
    requires forall w :: w in ws ==> w.session != sid
    ensures OfSession(ws, sid) == []
    decreases |ws|
  {
    if ws != [] {
      assert ws[|ws| - 1] in ws;
      NoneOfSession(ws[..|ws| - 1], sid);
    }
  }

  // ------------------------------------------------------------- what the replay means

  lemma FreshAscends(ws: seq<Window>, found: map<Id, Prediction>, freshness: real)
    requires Known(ws, found) && (forall i, j :: 0 <= i < j < |ws| ==> ws[i].end <= ws[j].end)
    ensures Ascends(Ends(Fresh(ws, found, freshness)))
    ensures forall w :: w in Fresh(ws, found, freshness) ==> w in ws
  {
    if ws != [] {
      var front := ws[..|ws| - 1];
      FreshAscends(front, found, freshness);
      var chosen := Fresh(front, found, freshness);
      forall i | 0 <= i < |chosen| ensures chosen[i].end <= ws[|ws| - 1].end {
        assert chosen[i] in front;
        var j :| 0 <= j < |front| && front[j] == chosen[i];
        assert ws[j] == chosen[i];
      }
      EndsOne(chosen, ws[|ws| - 1]);
    }
  }

  lemma ReplayOrderAscends(ws: seq<Window>, sid: Id)
    ensures var s := InReplayOrder(ws, sid); forall i, j :: 0 <= i < j < |s| ==> s[i].end <= s[j].end
  {
    OrdersAreOrders();
    SortOrders(OfSession(ws, sid), ByEndAndId);
  }

  /** No choice of fresh windows of one session that keeps the cooldown is larger than the sounds it gets. */
  lemma SoundsAreMost(ws: seq<Window>, sid: Id, found: map<Id, Prediction>, cooldown: real, freshness: real,
                      picks: set<int>)
    requires Known(ws, found) && Known(InReplayOrder(ws, sid), found) && cooldown >= 0.0
    requires Apart(Ends(Fresh(InReplayOrder(ws, sid), found, freshness)), picks, cooldown)
    ensures |picks| <= SoundsOf(ws, sid, found, cooldown, freshness)
  {
    hide InReplayOrder, Fresh, Greedy, Apart;
    ReplayOrderAscends(ws, sid);
    FreshAscends(InReplayOrder(ws, sid), found, freshness);
    GreedyIsLargest(Ends(Fresh(InReplayOrder(ws, sid), found, freshness)), cooldown, picks);
    SoundsOfSession(ws, sid, found, cooldown, freshness);
  }

  lemma LastIsMost(a: seq<real>, b: seq<real>)
    requires Ascends(a) && Ascends(b) && a != [] && b != [] && multiset(a) == multiset(b)
    ensures a[|a| - 1] <= b[|b| - 1]
  {
    assert a[|a| - 1] in multiset(b);
    var k :| 0 <= k < |b| && b[k] == a[|a| - 1];
  }

  lemma WithoutLast(a: seq<real>)
    requires a != []
    ensures multiset(a[..|a| - 1]) == multiset(a) - multiset{a[|a| - 1]}
  {
    assert a == a[..|a| - 1] + [a[|a| - 1]];
  }

  lemma SameLength(a: seq<real>, b: seq<real>)
    requires multiset(a) == multiset(b)
    ensures |a| == |b|
  {
    assert |a| == |multiset(a)| && |b| == |multiset(b)|;
  }

  /** Two ascending sequences of the same times are the same. */
  lemma {:induction false} AscendingIsUnique(a: seq<real>, b: seq<real>)
    requires Ascends(a) && Ascends(b) && multiset(a) == multiset(b)
    ensures a == b
    decreases |a|
  {
    SameLength(a, b);
    if a != [] {
      var n := |a| - 1;
      LastIsMost(a, b);
      LastIsMost(b, a);
      WithoutLast(a);
      WithoutLast(b);
      AscendingIsUnique(a[..n], b[..n]);
      assert a == a[..n] + [a[n]] && b == b[..n] + [b[n]];
    }
  }

  lemma EndsWithout(b: seq<Window>, k: nat)
    requires k < |b|
    ensures var rest := b[..k] + b[k + 1..];
            && multiset(rest) == multiset(b) - multiset{b[k]}
            && multiset(Ends(b)) == multiset(Ends(rest)) + multiset{b[k].end}
  {
    var rest := b[..k] + b[k + 1..];
    assert b == b[..k] + [b[k]] + b[k + 1..];
    assert Ends(b) == Ends(b[..k]) + [b[k].end] + Ends(b[k + 1..]);
    assert Ends(rest) == Ends(b[..k]) + Ends(b[k + 1..]);
  }

  lemma {:induction false} EndsOfSame(a: seq<Window>, b: seq<Window>)
    requires multiset(a) == multiset(b)
    ensures multiset(Ends(a)) == multiset(Ends(b))
    decreases |a|
  {
    hide Ends;
    assert |a| == |multiset(a)| == |multiset(b)| == |b|;
    if a == [] {
      assert b == [];
    } else {
      assert a[0] in multiset(b);
      var k :| 0 <= k < |b| && b[k] == a[0];
      EndsWithout(a, 0);
      EndsWithout(b, k);
      EndsOfSame(a[..0] + a[1..], b[..k] + b[k + 1..]);
    }
  }

  /** The order among windows that end together does not change the number of sounds. */
  lemma TiesDoNotMatter(ws: seq<Window>, found: map<Id, Prediction>, cooldown: real, freshness: real)
    requires Known(ws, found) && Known(Sort(ws, ByEnd), found) && Known(Sort(ws, ByEndAndId), found)
    ensures Greedy(Ends(Fresh(Sort(ws, ByEnd), found, freshness)), cooldown)
         == Greedy(Ends(Fresh(Sort(ws, ByEndAndId), found, freshness)), cooldown)
  {
    hide Fresh, Greedy, Sort;
    OrdersAreOrders();
    SortOrders(ws, ByEnd);
    SortOrders(ws, ByEndAndId);
    var a, b := Sort(ws, ByEnd), Sort(ws, ByEndAndId);
    forall w ensures multiset(Fresh(a, found, freshness))[w] == multiset(Fresh(b, found, freshness))[w] {
      FreshCount(a, found, freshness, w);
      FreshCount(b, found, freshness, w);
      assert w in a <==> w in multiset(a);
      assert w in b <==> w in multiset(b);
    }
    assert multiset(Fresh(a, found, freshness)) == multiset(Fresh(b, found, freshness));
    EndsOfSame(Fresh(a, found, freshness), Fresh(b, found, freshness));
    FreshAscends(a, found, freshness);
    FreshAscends(b, found, freshness);
    AscendingIsUnique(Ends(Fresh(a, found, freshness)), Ends(Fresh(b, found, freshness)));
  }

  /** The evaluator's own count of the alarms in one session, its windows ordered by their ends alone:
      always as many as the replay gives that session. */
  method NormalAlarms(windows: seq<Window>, sid: Id, found: map<Id, Prediction>, cooldown: real, freshness: real)
    returns (alarms: nat)
    requires Known(windows, found)
    ensures alarms == SoundsOf(windows, sid, found, cooldown, freshness)
  {
    hide Fresh, Greedy, Sort, InReplayOrder, SoundsOf, SoundCandidate;
    var candidates := OfSession(windows, sid);
    var sorted := Sort(candidates, ByEnd);
    BothOrdersKnown(windows, sid, found);
    alarms := 0;
    var last: Option<real> := None;
    var n := 0;
    assert sorted[..0] == [];
    NothingChosen(found, cooldown, freshness);
    while n < |sorted|
      invariant n <= |sorted| && Known(sorted[..n], found)
      invariant Choice(alarms, last) == Greedy(Ends(Fresh(sorted[..n], found, freshness)), cooldown)
    {
      var w := sorted[n];
      StepFresh(sorted, n, found, freshness);
      EndsOne(Fresh(sorted[..n], found, freshness), w);
      GreedyOne(Ends(Fresh(sorted[..n], found, freshness)), w.end, cooldown);
      assert Fresh(sorted[..n], found, freshness) + [] == Fresh(sorted[..n], found, freshness);
      if SoundCandidate(found[w.id], freshness) && (last.None? || w.end - last.value >= cooldown) {
        alarms := alarms + 1;
        last := Some(w.end);
      }
      n := n + 1;
    }
    assert sorted[..n] == sorted;
    TiesDoNotMatter(candidates, found, cooldown, freshness);
    SoundsInReplayOrder(windows, sid, found, cooldown, freshness);
  }

  lemma NothingChosen(found: map<Id, Prediction>, cooldown: real, freshness: real)
    ensures Greedy(Ends(Fresh([], found, freshness)), cooldown) == Choice(0, None)
  {
  }

  lemma BothOrdersKnown(ws: seq<Window>, sid: Id, found: map<Id, Prediction>)
    requires Known(ws, found)
    ensures Known(OfSession(ws, sid), found)
    ensures Known(Sort(OfSession(ws, sid), ByEnd), found) && Known(Sort(OfSession(ws, sid), ByEndAndId), found)
  {
    OrdersAreOrders();
    SortMembers(OfSession(ws, sid), ByEnd);
    SortMembers(OfSession(ws, sid), ByEndAndId);
  }

  lemma SoundsInReplayOrder(ws: seq<Window>, sid: Id, found: map<Id, Prediction>, cooldown: real, freshness: real)
    requires Known(ws, found) && Known(Sort(OfSession(ws, sid), ByEndAndId), found)
    ensures SoundsOf(ws, sid, found, cooldown, freshness)
         == Greedy(Ends(Fresh(Sort(OfSession(ws, sid), ByEndAndId), found, freshness)), cooldown).count
  {
  }

  // ----------------------------------------------------------------------- coverage

  /** Some window has begun, within the tolerance, by time `t` and lasts beyond it. */
  ghost predicate Spans(ws: seq<Window>, t: real) {
    exists w :: w in ws && w.start <= t + TOLERANCE && t < w.end
  }

  ghost predicate SpansAll(ws: seq<Window>, duration: real) {
    forall t: real :: 0.0 <= t < duration - TOLERANCE ==> Spans(ws, t)
  }

  /** A session counts as covered exactly when its windows leave no instant of it unwatched. */
  method CoveredSession(windows: seq<Window>, duration: real) returns (covered: bool)
    requires forall w :: w in windows ==> 0.0 <= w.start < w.end <= duration
    ensures covered <==> SpansAll(windows, duration)
  {
    hide Sort;
    OrdersAreOrders();
    SortOrders(windows, ByStart);
    SortMembers(windows, ByStart);
    var sorted := Sort(windows, ByStart);
    var cursor := 0.0;
    var n := 0;
    while n < |sorted|
      invariant n <= |sorted| && cursor >= 0.0
      invariant forall i :: 0 <= i < n ==> sorted[i].end <= cursor
      invariant forall t: real :: 0.0 <= t < cursor ==> Spans(windows, t)
      invariant cursor <= duration || cursor == 0.0
    {
      var w := sorted[n];
      assert w in windows;
      if w.start > cursor + TOLERANCE {
        assert forall i :: n <= i < |sorted| ==> w.start <= sorted[i].start;
        assert !Spans(sorted, cursor);
        assert !Spans(windows, cursor);
        return false;
      }
      if cursor < w.end {
        cursor := w.end;
      }
      n := n + 1;
    }
    if cursor < duration - TOLERANCE {
      assert !Spans(sorted, cursor);
      assert !Spans(windows, cursor);
    }
    return cursor >= duration - TOLERANCE;
  }
}
