/** The evaluator's count of false alarms in normal recordings, against the replay of all windows. */
module Evaluation {
  import opened Basics
  import opened Cooldown

  /** One session of the manifest. `normal` tells an observation of normal behaviour from a staged one. */
  datatype Recording = Recording(sid: Id, split: Id, normal: bool, measured: bool, duration: real)

  datatype Exclusion = NotMeasured | NotCovered | InferenceErrors | TimingMissing

  /** Windows lie within their recordings, as the manifest's validation demands. */
  ghost predicate Within(ws: seq<Window>, recordings: seq<Recording>) {
    forall w, s | w in ws && s in recordings && w.session == s.sid :: 0.0 <= w.start < w.end <= s.duration
  }

  ghost predicate Distinct(recordings: seq<Recording>) {
    forall i, j :: 0 <= i < j < |recordings| ==> recordings[i].sid != recordings[j].sid
  }

  /** Why a recording is left out of the count, if it is: the first reason that applies. */
  ghost function Verdict(s: Recording, ws: seq<Window>, found: map<Id, Prediction>): Option<Exclusion>
    requires Known(ws, found)
  {
    var own := OfSession(ws, s.sid);
    if !s.measured then Some(NotMeasured)
    else if !SpansAll(own, s.duration) then Some(NotCovered)
    else if exists w :: w in own && !found[w.id].ok then Some(InferenceErrors)
    else if exists w :: w in own && found[w.id].alarmEligible && found[w.id].wallMs.None? then Some(TimingMissing)
    else None
  }

  function Ids(recordings: seq<Recording>): set<Id> {
    set s | s in recordings :: s.sid
  }

  /** The windows of any of these sessions. */
  function OfSessions(ws: seq<Window>, sids: set<Id>): seq<Window> {
    if ws == [] then []
    else
      var rest := OfSessions(ws[..|ws| - 1], sids);
      if ws[|ws| - 1].session in sids then rest + [ws[|ws| - 1]] else rest
  }

  lemma {:induction false} OneMoreSession(ws: seq<Window>, sids: set<Id>, sid: Id)
    requires sid !in sids
    ensures |OfSessions(ws, sids + {sid})| == |OfSessions(ws, sids)| + |OfSession(ws, sid)|
    decreases |ws|
  {
    if ws != [] {
      OneMoreSession(ws[..|ws| - 1], sids, sid);
    }
  }

  lemma {:induction false} OfNoSession(ws: seq<Window>)
    ensures OfSessions(ws, {}) == []
    decreases |ws|
  {
    if ws != [] {
      OfNoSession(ws[..|ws| - 1]);
    }
  }

  function Durations(recordings: seq<Recording>): real {
    if recordings == [] then 0.0 else Durations(recordings[..|recordings| - 1]) + recordings[|recordings| - 1].duration
  }

  predicate Considered(s: Recording, split: Id) {
    s.split == split && s.normal
  }

  /** What was decided on the recordings looked at so far. */
  ghost predicate Decided(recordings: seq<Recording>, split: Id, ws: seq<Window>, found: map<Id, Prediction>,
                          included: seq<Recording>, excluded: map<Id, Exclusion>)
    requires Known(ws, found)
  {
    && Distinct(included)
    && (forall s :: s in included <==> s in recordings && Considered(s, split) && Verdict(s, ws, found).None?)
    && (forall s | s in recordings :: s.sid in excluded <==> Considered(s, split) && Verdict(s, ws, found).Some?)
    && (forall s | s in recordings && s.sid in excluded :: Verdict(s, ws, found) == Some(excluded[s.sid]))
    && (forall sid :: sid in excluded ==> exists s :: s in recordings && s.sid == sid)
  }

  /** One recording is judged. */
  method Judge(s: Recording, windows: seq<Window>, found: map<Id, Prediction>) returns (verdict: Option<Exclusion>)
    requires Known(windows, found)
    requires forall w :: w in windows && w.session == s.sid ==> 0.0 <= w.start < w.end <= s.duration
    ensures verdict == Verdict(s, windows, found)
  {
    var own := OfSession(windows, s.sid);
    if !s.measured {
      return Some(NotMeasured);
    }
    var covered := CoveredSession(own, s.duration);
    if !covered {
      return Some(NotCovered);
    }
    if exists w :: w in own && !found[w.id].ok {
      return Some(InferenceErrors);
    }
    if exists w :: w in own && found[w.id].alarmEligible && found[w.id].wallMs.None? {
      return Some(TimingMissing);
    }
    return None;
  }

  /** The evaluation: the alarms counted over the included recordings, one by one and each in its own order,
      are exactly the sounds that the replay of all windows gives those recordings. */
  method Evaluate(recordings: seq<Recording>, split: Id, windows: seq<Window>, found: map<Id, Prediction>,
                  cooldown: real, freshness: real)
    returns (alarms: nat, seconds: real, included: seq<Recording>, excluded: map<Id, Exclusion>, replay: Replay)
    requires Known(windows, found) && cooldown >= 0.0
    requires Distinct(recordings) && Within(windows, recordings)
    ensures Decided(recordings, split, windows, found, included, excluded)
    ensures alarms == |OfSessions(replay.emitted, Ids(included))|
    ensures seconds == Durations(included)
    ensures Counted(replay) == multiset(Eligible(windows, found))
    ensures forall sid :: Spaced(OfSession(replay.emitted, sid), cooldown)
  {
    hide Fresh, Eligible, Counted, Prompt, Spaced, SoundsOf, OfSession, OfSessions, Verdict, Decided;
    replay := SimulatedDelivery(windows, found, cooldown, freshness);
    alarms, seconds, included, excluded := 0, 0.0, [], map[];
    OfNoSession(replay.emitted);
    NothingDecided(split, windows, found);
    var n := 0;
    assert recordings[..0] == [] && Ids([]) == {};
    while n < |recordings|
      invariant n <= |recordings|
      invariant Decided(recordings[..n], split, windows, found, included, excluded)
      invariant alarms == |OfSessions(replay.emitted, Ids(included))|
      invariant seconds == Durations(included)
    {
      var s := recordings[n];
      NotYetDecided(recordings, n, split, windows, found, included, excluded);
      if Considered(s, split) {
        var verdict := Judge(s, windows, found);
        DecidedOneMore(recordings, n, split, windows, found, included, excluded);
        if verdict.Some? {
          excluded := excluded[s.sid := verdict.value];
        } else {
          var more := NormalAlarms(windows, s.sid, found, cooldown, freshness);
          OneMoreSession(replay.emitted, Ids(included), s.sid);
          IdsOneMore(included, s);
          alarms := alarms + more;
          seconds := seconds + s.duration;
          included := included + [s];
          assert included[..|included| - 1] + [s] == included;
        }
      } else {
        DecidedOneMore(recordings, n, split, windows, found, included, excluded);
      }
      n := n + 1;
    }
    assert recordings[..n] == recordings;
  }

  lemma NothingDecided(split: Id, ws: seq<Window>, found: map<Id, Prediction>)
    requires Known(ws, found)
    ensures Decided([], split, ws, found, [], map[])
  {
  }

  lemma IdsOneMore(included: seq<Recording>, s: Recording)
    ensures Ids(included + [s]) == Ids(included) + {s.sid}
  {
  }

  lemma NotYetDecided(recordings: seq<Recording>, n: nat, split: Id, ws: seq<Window>, found: map<Id, Prediction>,
                      included: seq<Recording>, excluded: map<Id, Exclusion>)
    requires Known(ws, found) && n < |recordings| && Distinct(recordings)
    requires Decided(recordings[..n], split, ws, found, included, excluded)
    ensures recordings[n].sid !in Ids(included) && recordings[n].sid !in excluded
  {
    hide Verdict;
  }

  lemma DecidedOneMore(recordings: seq<Recording>, n: nat, split: Id, ws: seq<Window>, found: map<Id, Prediction>,
                       included: seq<Recording>, excluded: map<Id, Exclusion>)
    requires Known(ws, found) && n < |recordings| && Distinct(recordings)
    requires Decided(recordings[..n], split, ws, found, included, excluded)
    ensures var s := recordings[n];
            var verdict := Verdict(s, ws, found);
            Decided(recordings[..n + 1], split, ws, found,
                    if Considered(s, split) && verdict.None? then included + [s] else included,
                    if Considered(s, split) && verdict.Some? then excluded[s.sid := verdict.value] else excluded)
  {
    hide Verdict;
    NotYetDecided(recordings, n, split, ws, found, included, excluded);
    assert recordings[..n + 1] == recordings[..n] + [recordings[n]];
  }
}
