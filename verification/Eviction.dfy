/** Rolling eviction of retained samples: a branch makes room for a new one by giving up its
    oldest unreviewed samples of low value, and nothing else. */
module Eviction {
  import opened Basics

  const SITE_LIMIT := 100
  const TOTAL_LIMIT := 600

  datatype Status = Pending | Running | Completed | Failed | Cancelled

  datatype Action =
    | NormalShopping | Unclear | TakeProduct | ReturnProduct | PlaceInBasket | PossibleConcealment

  /** A sample without a result has neither an action nor an eligible alarm. */
  datatype Sample = Sample(
    organisation: Id, site: Id, created: int, status: Status, action: Option<Action>, alarmEligible: bool, reviewed: bool)

  datatype Branch = Branch(organisation: Id, site: Id)

  predicate In(s: Sample, b: Branch) {
    s.organisation == b.organisation && s.site == b.site
  }

  predicate LowValue(s: Sample) {
    || s.status.Failed? || s.status.Cancelled?
    || (s.status.Completed? && s.action.Some? && !s.action.value.PossibleConcealment? && !s.alarmEligible)
  }

  /** What pressure may remove from this branch. */
  predicate Evictable(s: Sample, b: Branch) {
    In(s, b) && !s.reviewed && LowValue(s)
  }

  function OfBranch(entities: map<Id, Sample>, b: Branch): set<Id> {
    set k | k in entities && In(entities[k], b)
  }

  function Evictables(entities: map<Id, Sample>, b: Branch): set<Id> {
    set k | k in entities && Evictable(entities[k], b)
  }

  function AgeKey(entities: map<Id, Sample>, k: Id): Key
    requires k in entities
  {
    Key(0, entities[k].created, k)
  }

  function AgeKeys(entities: map<Id, Sample>, b: Branch): set<Key> {
    set k | k in OfBranch(entities, b) :: AgeKey(entities, k)
  }

  predicate HasRoom(count: int, total: int) {
    count < SITE_LIMIT && total < TOTAL_LIMIT
  }

  /** How many samples have to go before one more fits. */
  function Needed(entities: map<Id, Sample>, b: Branch): nat {
    Max(0, Max(|OfBranch(entities, b)| - (SITE_LIMIT - 1), |entities| - (TOTAL_LIMIT - 1)))
  }

  /** The removed samples are the oldest evictable ones: exactly as many as needed, or all there are. */
  ghost predicate RolledOff(entities: map<Id, Sample>, b: Branch, removed: set<Id>) {
    && removed <= Evictables(entities, b)
    && |removed| == Min(Needed(entities, b), |Evictables(entities, b)|)
    && (forall r, k :: r in removed && k in Evictables(entities, b) && k !in removed ==>
          Before(AgeKey(entities, r), AgeKey(entities, k)))
  }

  // ------------------------------------------------------------------ reading the rows

  /** These are the branch's rows, oldest first. */
  ghost predicate AreRows(entities: map<Id, Sample>, b: Branch, rows: seq<Key>) {
    && Ascending(rows)
    && (forall i :: 0 <= i < |rows| ==> rows[i].id in OfBranch(entities, b) && rows[i] == AgeKey(entities, rows[i].id))
    && (forall k :: k in OfBranch(entities, b) ==> AgeKey(entities, k) in rows)
    && |rows| == |OfBranch(entities, b)|
  }

  lemma AgeKeysSize(entities: map<Id, Sample>, ids: set<Id>)
    requires ids <= entities.Keys
    ensures |set k | k in ids :: AgeKey(entities, k)| == |ids|
  {
    if ids != {} {
      var k :| k in ids;
      AgeKeysSize(entities, ids - {k});
      assert (set j | j in ids :: AgeKey(entities, j)) == (set j | j in ids - {k} :: AgeKey(entities, j)) + {AgeKey(entities, k)};
    }
  }

  lemma FirstIsAll(rows: set<Key>)
    ensures First(rows, |rows|) == rows
  {
    forall k | k in rows ensures |Below(rows, k)| < |rows| {
      SubsetSize(Below(rows, k), rows - {k});
    }
  }

  lemma ReadAll(entities: map<Id, Sample>, b: Branch, rows: seq<Key>)
    requires Ascending(rows) && Elements(rows) == First(AgeKeys(entities, b), |AgeKeys(entities, b)|)
    ensures AreRows(entities, b, rows)
  {
    FirstIsAll(AgeKeys(entities, b));
    AgeKeysSize(entities, OfBranch(entities, b));
    ElementsSize(rows);
    assert forall i :: 0 <= i < |rows| ==> rows[i] in Elements(rows);
    forall k | k in OfBranch(entities, b) ensures AgeKey(entities, k) in rows {
      assert AgeKey(entities, k) in Elements(rows);
    }
  }

  function Ids(ids: seq<Id>): set<Id> {
    set k | k in ids
  }

  /** The evictable samples among the first rows. */
  function Low(entities: map<Id, Sample>, b: Branch, rows: seq<Key>): seq<Id> {
    if rows == [] then []
    else
      var n := |rows| - 1;
      var k := rows[n].id;
      if k in entities && Evictable(entities[k], b) then Low(entities, b, rows[..n]) + [k] else Low(entities, b, rows[..n])
  }

  ghost predicate Among(rows: seq<Key>, k: Id) {
    exists i :: 0 <= i < |rows| && rows[i].id == k
  }

  lemma AmongOneMore(rows: seq<Key>, k: Id)
    requires rows != []
    ensures Among(rows, k) <==> Among(rows[..|rows| - 1], k) || rows[|rows| - 1].id == k
  {
    var front := rows[..|rows| - 1];
    assert forall i :: 0 <= i < |front| ==> front[i] == rows[i];
    if Among(front, k) {
      var i :| 0 <= i < |front| && front[i].id == k;
      assert rows[i].id == k;
    }
    if Among(rows, k) {
      var i :| 0 <= i < |rows| && rows[i].id == k;
      assert i == |rows| - 1 || front[i].id == k;
    }
  }

  lemma {:induction false} LowIsEvictable(entities: map<Id, Sample>, b: Branch, rows: seq<Key>)
    ensures forall k :: k in Low(entities, b, rows) <==>
              k in Evictables(entities, b) && Among(rows, k)
    decreases |rows|
  {
    if rows != [] {
      var n := |rows| - 1;
      LowIsEvictable(entities, b, rows[..n]);
      forall k ensures Among(rows, k) <==> Among(rows[..n], k) || rows[n].id == k {
        AmongOneMore(rows, k);
      }
    }
  }

  lemma RowsAreDistinct(entities: map<Id, Sample>, b: Branch, rows: seq<Key>, i: int, j: int)
    requires AreRows(entities, b, rows) && 0 <= i < j < |rows|
    ensures rows[i].id != rows[j].id
  {
    assert Before(rows[i], rows[j]);
  }

  /** One more row: its sample is in none of the rows before. */
  lemma LowGrows(entities: map<Id, Sample>, b: Branch, rows: seq<Key>, n: nat)
    requires AreRows(entities, b, rows) && n < |rows|
    ensures rows[n].id in entities && rows[n].id !in Low(entities, b, rows[..n])
    ensures Low(entities, b, rows[..n + 1])
         == if Evictable(entities[rows[n].id], b) then Low(entities, b, rows[..n]) + [rows[n].id] else Low(entities, b, rows[..n])
  {
    LowIsEvictable(entities, b, rows[..n]);
    forall i | 0 <= i < n ensures rows[..n][i].id != rows[n].id {
      RowsAreDistinct(entities, b, rows, i, n);
    }
    assert rows[..n + 1][..n] == rows[..n];
  }

  /** What the first rows give up is older than everything evictable that they keep. */
  lemma LowIsOldest(entities: map<Id, Sample>, b: Branch, rows: seq<Key>, n: nat, r: Id, k: Id)
    requires AreRows(entities, b, rows) && n <= |rows|
    requires r in Evictables(entities, b) && r in Low(entities, b, rows[..n]) && k in Evictables(entities, b) && k !in Low(entities, b, rows[..n])
    ensures Before(AgeKey(entities, r), AgeKey(entities, k))
  {
    LowIsEvictable(entities, b, rows[..n]);
    var i :| 0 <= i < n && rows[..n][i].id == r;
    assert AgeKey(entities, k) in rows;
    var j :| 0 <= j < |rows| && rows[j] == AgeKey(entities, k);
    forall l | 0 <= l < n ensures rows[l].id != k {
      assert rows[..n][l].id == rows[l].id;
    }
    assert Before(rows[i], rows[j]);
  }

  lemma LowIsAll(entities: map<Id, Sample>, b: Branch, rows: seq<Key>)
    requires AreRows(entities, b, rows)
    ensures Ids(Low(entities, b, rows)) == Evictables(entities, b)
  {
    LowIsEvictable(entities, b, rows);
    forall k | k in Evictables(entities, b) ensures k in Low(entities, b, rows) {
      assert AgeKey(entities, k) in rows;
    }
  }

  lemma EnoughOrAll(entities: map<Id, Sample>, b: Branch, rows: seq<Key>, n: nat, gone: set<Id>)
    requires AreRows(entities, b, rows) && n <= |rows| && gone == Ids(Low(entities, b, rows[..n]))
    requires |gone| <= Needed(entities, b)
    requires n == |rows| || |gone| == Needed(entities, b)
    ensures RolledOff(entities, b, gone)
  {
    hide AreRows, Low, Needed;
    LowIsEvictable(entities, b, rows[..n]);
    SubsetSize(gone, Evictables(entities, b));
    if n == |rows| {
      assert rows[..n] == rows;
      LowIsAll(entities, b, rows);
    }
    forall r, k | r in gone && k in Evictables(entities, b) && k !in gone
      ensures Before(AgeKey(entities, r), AgeKey(entities, k))
    {
      LowIsOldest(entities, b, rows, n, r, k);
    }
  }

  lemma CountsAfter(entities: map<Id, Sample>, b: Branch, gone: set<Id>)
    requires gone <= OfBranch(entities, b)
    ensures |entities - gone| == |entities| - |gone|
    ensures |OfBranch(entities - gone, b)| == |OfBranch(entities, b)| - |gone|
    ensures forall other: Branch :: other != b ==> OfBranch(entities - gone, other) == OfBranch(entities, other)
  {
    assert (entities - gone).Keys == entities.Keys - gone;
    assert OfBranch(entities - gone, b) == OfBranch(entities, b) - gone;
  }

  class InteractionService {
    var entities: map<Id, Sample>

    /** Every branch within its allowance, and all of them within the total. */
    ghost predicate Valid()
      reads this
    {
      |entities| <= TOTAL_LIMIT && forall b: Branch :: |OfBranch(entities, b)| <= SITE_LIMIT
    }

    constructor ()
      ensures Valid() && entities == map[]
    {
      entities := map[];
    }

    /** Gives up samples of this branch until one more fits, or none is left to give up. */
    method MakeRoom(b: Branch) returns (ok: bool, removed: seq<Id>)
      modifies this
      ensures var gone := Ids(removed);
              && RolledOff(old(entities), b, gone) && |gone| == |removed|
              && entities == old(entities) - gone
      ensures ok <==> HasRoom(|OfBranch(entities, b)|, |entities|)
    {
      hide First, AreRows, Low, Evictables, RolledOff, Ascending, Elements, AgeKeys;
      ghost var before := entities;
      var rows := OrderBy(AgeKeys(entities, b), |AgeKeys(entities, b)|);
      ReadAll(before, b, rows);
      RowsCounted(before, b, rows);
      var count, total := |rows|, |entities|;
      removed := [];
      ghost var gone: set<Id> := {};
      var n := 0;
      LowOfNone(before, b);
      while n < |rows| && !HasRoom(count, total)
        invariant n <= |rows|
        invariant removed == Low(before, b, rows[..n])
        invariant gone == Ids(removed) && |gone| == |removed| && gone <= OfBranch(before, b)
        invariant entities == before - gone
        invariant count == |OfBranch(before, b)| - |removed| && total == |before| - |removed|
        invariant |removed| <= Needed(before, b)
      {
        LowGrows(before, b, rows, n);
        assert rows[..n + 1] == rows[..n] + [rows[n]];
        var id := rows[n].id;
        RowOfBranch(before, b, rows, n);
        var item := entities[id];
        if !item.reviewed && LowValue(item) {
          entities := entities - {id};
          removed := removed + [id];
          gone := gone + {id};
          count := count - 1;
          total := total - 1;
        }
        n := n + 1;
      }
      EnoughOrAll(before, b, rows, n, gone);
      CountsAfter(before, b, gone);
      ok := HasRoom(count, total);
    }

    /** A new pending sample, if its branch has or can make room and the model is free; otherwise
        the transaction is undone. */
    method Submit(b: Branch, id: Id, created: int, modelFree: bool) returns (accepted: bool)
      requires Valid() && id !in entities
      modifies this
      ensures Valid()
      ensures !accepted ==> entities == old(entities)
      ensures accepted ==> id in entities && In(entities[id], b) && entities[id].status.Pending?
      ensures accepted ==> exists gone :: RolledOff(old(entities), b, gone) && entities - {id} == old(entities) - gone
      ensures accepted <==> modelFree && |Evictables(old(entities), b)| >= Needed(old(entities), b)
    {
      hide RolledOff, Evictables, Needed;
      var saved := entities;
      var room, removed := MakeRoom(b);
      ghost var gone := Ids(removed);
      RoomExactly(saved, b, gone);
      if !room || !modelFree {
        entities := saved;
        return false;
      }
      var sample := Sample(b.organisation, b.site, created, Pending, None, false, false);
      OneMoreSample(entities, b, id, sample);
      StillBounded(saved, b, gone);
      entities := entities[id := sample];
      assert entities - {id} == saved - gone;
      forall other: Branch ensures |OfBranch(entities, other)| <= SITE_LIMIT {
        if other != b {
          assert OfBranch(entities, other) == OfBranch(saved, other);
        }
      }
      return true;
    }

    /** Deletion, by hand or by expiry. */
    method Delete(ids: set<Id>)
      requires Valid()
      modifies this
      ensures Valid() && entities == old(entities) - ids
    {
      ghost var before := entities;
      entities := entities - ids;
      assert entities.Keys <= before.Keys;
      SubsetSize(entities.Keys, before.Keys);
      forall other: Branch ensures |OfBranch(entities, other)| <= |OfBranch(before, other)| {
        SubsetSize(OfBranch(entities, other), OfBranch(before, other));
      }
    }

    /** Progress, result or review of a sample, which stays in its branch. */
    method Rewrite(id: Id, sample: Sample)
      requires Valid() && id in entities
      requires sample.organisation == entities[id].organisation && sample.site == entities[id].site
      modifies this
      ensures Valid() && entities == old(entities)[id := sample]
    {
      ghost var before := entities;
      entities := entities[id := sample];
      assert entities.Keys == before.Keys;
      assert |entities| == |entities.Keys| == |before.Keys|;
      forall other: Branch ensures OfBranch(entities, other) == OfBranch(before, other) {
      }
    }
  }

  lemma RowsCounted(entities: map<Id, Sample>, b: Branch, rows: seq<Key>)
    requires AreRows(entities, b, rows)
    ensures |rows| == |OfBranch(entities, b)|
  {
  }

  lemma LowOfNone(entities: map<Id, Sample>, b: Branch)
    ensures Low(entities, b, []) == []
  {
  }

  lemma RowOfBranch(entities: map<Id, Sample>, b: Branch, rows: seq<Key>, n: nat)
    requires AreRows(entities, b, rows) && n < |rows|
    ensures rows[n].id in OfBranch(entities, b)
  {
  }

  /** There is room after the pass exactly when enough could be given up. */
  lemma RoomExactly(entities: map<Id, Sample>, b: Branch, gone: set<Id>)
    requires RolledOff(entities, b, gone)
    ensures HasRoom(|OfBranch(entities - gone, b)|, |entities - gone|) <==>
              |Evictables(entities, b)| >= Needed(entities, b)
  {
    CountsAfter(entities, b, gone);
  }

  lemma OneMoreSample(entities: map<Id, Sample>, b: Branch, id: Id, sample: Sample)
    requires id !in entities && In(sample, b)
    ensures |entities[id := sample]| == |entities| + 1
    ensures |OfBranch(entities[id := sample], b)| == |OfBranch(entities, b)| + 1
    ensures forall other: Branch :: other != b ==> OfBranch(entities[id := sample], other) == OfBranch(entities, other)
  {
    assert entities[id := sample].Keys == entities.Keys + {id};
    assert OfBranch(entities[id := sample], b) == OfBranch(entities, b) + {id};
  }

  lemma StillBounded(entities: map<Id, Sample>, b: Branch, gone: set<Id>)
    requires RolledOff(entities, b, gone)
    ensures forall other: Branch :: other != b ==> OfBranch(entities - gone, other) == OfBranch(entities, other)
  {
    CountsAfter(entities, b, gone);
  }

  /** Pressure never touches a reviewed sample, one in progress, a possible concealment or an alarm that was
      raised, nor anything of another branch. */
  lemma ProtectedSurvive(entities: map<Id, Sample>, b: Branch, gone: set<Id>, k: Id)
    requires RolledOff(entities, b, gone) && k in entities
    requires var s := entities[k];
             || s.reviewed || !In(s, b) || s.status.Pending? || s.status.Running?
             || (s.status.Completed? && (s.alarmEligible || s.action == Some(PossibleConcealment)))
    ensures k in entities - gone && (entities - gone)[k] == entities[k]
  {
  }

  /** One sample less would not have been enough. */
  lemma NothingRemovedInVain(entities: map<Id, Sample>, b: Branch, gone: set<Id>, fewer: set<Id>)
    requires RolledOff(entities, b, gone) && fewer < gone
    ensures !HasRoom(|OfBranch(entities - fewer, b)|, |entities - fewer|)
  {
    SubsetSize(fewer, gone);
    assert gone == fewer + (gone - fewer);
    CountsAfter(entities, b, fewer);
  }
}
