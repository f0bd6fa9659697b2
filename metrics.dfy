/**
 The two metrics `LTE_Scheduler` computes from its allocation map: throughput, the sum of
 all held units, and fairness, the mean over users of held units divided by demand.
 Fairness is computed over real numbers, not floating point.
 */
module Metrics {
  import opened Policy
  import opened PolicyProperties

  /** Why fairness cannot be computed. `EmptyUserSet` and `InvalidDemand` are the two
      divisions by zero; `MissingAttribute` is what the comprehension as written raises. */
  datatype FairnessError = EmptyUserSet | InvalidDemand | MissingAttribute

  datatype Result<T> = Ok(value: T) | Err(error: FairnessError)

  ghost predicate HasEntries(ps: seq<Profile>, alloc: map<int, int>) {
    forall j :: 0 <= j < |ps| ==> ps[j].id in alloc
  }

  // ---------------------------------------------------------------------------------------
  // Throughput

  /** `sum(resources_allocated.values())`. The dictionary yields its values in insertion
      order, which is the order of the user list, one value per user since ids are unique. */
  function Throughput(ps: seq<Profile>, alloc: map<int, int>): (t: int)
    requires HasEntries(ps, alloc)
    ensures (forall j :: 0 <= j < |ps| ==> alloc[ps[j].id] >= 0) ==> t >= 0
    decreases |ps|
  {
    if ps == [] then 0 else Throughput(ps[..|ps| - 1], alloc) + alloc[ps[|ps| - 1].id]
  }

  /** Throughput under the per-user cap: between 0 and the cap times the number of users. */
  lemma {:induction false} ThroughputBounds(ps: seq<Profile>, alloc: map<int, int>, total: int)
    requires AllHoldWithin(ps, alloc, total)
    ensures 0 <= Throughput(ps, alloc) <= total * |ps|
    decreases |ps|
  {
    if ps != [] {
      var init := ps[..|ps| - 1];
      ThroughputBounds(init, alloc, total);
      assert total * |ps| == total * |init| + total;
    }
  }

  lemma CapBoundsThroughput(c: Config, alloc: map<int, int>)
    requires HasEntries(c.profiles, alloc)
    ensures WithinCap(c, alloc) ==> 0 <= Throughput(c.profiles, alloc) <= c.total * |c.profiles|
  {
    if WithinCap(c, alloc) {
      ThroughputBounds(c.profiles, alloc, c.total);
    }
  }

  /** Writing one user's entry moves the throughput by exactly the change of that entry: a
      grant adds the demand, an eviction removes what the victim held. */
  lemma {:induction false} ThroughputAfterWrite(ps: seq<Profile>, alloc: map<int, int>, v: nat, x: int)
    requires UniqueIds(ps) && HasEntries(ps, alloc) && v < |ps|
    ensures HasEntries(ps, alloc[ps[v].id := x])
    ensures Throughput(ps, alloc[ps[v].id := x]) == Throughput(ps, alloc) - alloc[ps[v].id] + x
    decreases |ps|
  {
    var last := |ps| - 1;
    var init := ps[..last];
    var after := alloc[ps[v].id := x];
    if v < last {
      assert UniqueIds(init) by {
        forall a, b | 0 <= a < |init| && 0 <= b < |init| && init[a].id == init[b].id
          ensures a == b
        {
          assert ps[a].id == ps[b].id;
        }
      }
      ThroughputAfterWrite(init, alloc, v, x);
      assert init[v] == ps[v];
      assert ps[last].id != ps[v].id;
    } else {
      assert forall j :: 0 <= j < |init| ==> init[j] == ps[j] && init[j].id != ps[v].id;
      ThroughputUnaffected(init, alloc, ps[v].id, x);
    }
  }

  /** What one turn of `allocate_resources` does to the throughput: a grant adds the user's
      demand, and an eviction removes what the victim held. The two never happen in the same
      turn, since a preemption is only triggered by a request that does not fit. */
  lemma TurnThroughput(c: Config, l: Ledger, i: nat, pick: nat)
    requires WellFormed(c, l) && i < |c.profiles| && ValidPickAt(c, i, pick)
    ensures var p := c.profiles[i];
      var r := Turn(c, l, i, pick);
      var cs := Candidates(c.profiles, p.id, p.priority);
      var fits := l.alloc[p.id] + p.demand <= c.total;
      && HasEntries(c.profiles, l.alloc) && HasEntries(c.profiles, r.alloc)
      && (fits ==> Throughput(c.profiles, r.alloc) == Throughput(c.profiles, l.alloc) + p.demand)
      && (!fits && cs != [] ==>
            Throughput(c.profiles, r.alloc) == Throughput(c.profiles, l.alloc) - l.alloc[c.profiles[cs[pick]].id])
      && (!fits && cs == [] ==> Throughput(c.profiles, r.alloc) == Throughput(c.profiles, l.alloc))
  {
    var ps, p := c.profiles, c.profiles[i];
    var cs := Candidates(ps, p.id, p.priority);
    var cleared := ClearPending(l, i);
    var pre := Preempt(c, cleared, p.id, p.priority, p.demand, pick);
    assert Turn(c, l, i, pick) == Grant(c, pre, i);
    if l.alloc[p.id] + p.demand > c.total && cs != [] {
      var v := cs[pick];
      CandidatesExact(ps, p.id, p.priority);
      assert pre.alloc == l.alloc[ps[v].id := 0];
      ThroughputAfterWrite(ps, l.alloc, v, 0);
      assert pre.alloc[p.id] == l.alloc[p.id];
    } else {
      assert pre == cleared;
      if l.alloc[p.id] + p.demand <= c.total {
        ThroughputAfterWrite(ps, l.alloc, i, l.alloc[p.id] + p.demand);
      }
    }
  }

  /** Writing the entry of an id that is not among `ps` leaves their throughput alone. */
  lemma {:induction false} ThroughputUnaffected(ps: seq<Profile>, alloc: map<int, int>, id: int, x: int)
    requires HasEntries(ps, alloc)
    requires forall j :: 0 <= j < |ps| ==> ps[j].id != id
    ensures HasEntries(ps, alloc[id := x])
    ensures Throughput(ps, alloc[id := x]) == Throughput(ps, alloc)
    decreases |ps|
  {
    if ps != [] {
      var init := ps[..|ps| - 1];
      assert forall j :: 0 <= j < |init| ==> init[j] == ps[j];
      ThroughputUnaffected(init, alloc, id, x);
    }
  }

  lemma SomeKey(m: map<int, int>)
    requires m != map[]
    ensures exists k :: k in m
  {
    if forall k :: k !in m {
      assert false;
    }
  }

  /** `sum(d.values())` for a dictionary `d`: the sum of the values of a map, in no
      particular order. */
  ghost function MapSum(m: map<int, int>): (r: int)
    ensures (forall k :: k in m ==> m[k] >= 0) ==> r >= 0
    decreases |m|
  {
    if m == map[] then 0
    else
      SomeKey(m);
      var k :| k in m;
      m[k] + MapSum(m - {k})
  }

  /** The order of summation does not matter: any key may be taken out first. */
  lemma {:induction false} MapSumRemove(m: map<int, int>, k: int)
    requires k in m
    ensures MapSum(m) == m[k] + MapSum(m - {k})
    decreases |m|
  {
    SomeKey(m);
    var j :| j in m && MapSum(m) == m[j] + MapSum(m - {j});
    if j != k {
      var withoutJ, withoutK := m - {j}, m - {k};
      MapSumRemove(withoutJ, k);
      MapSumRemove(withoutK, j);
      assert withoutJ - {k} == withoutK - {j};
    }
  }

  /** Throughput reads only the entries of the listed users. */
  lemma {:induction false} ThroughputAgrees(ps: seq<Profile>, a: map<int, int>, b: map<int, int>)
    requires forall j :: 0 <= j < |ps| ==> ps[j].id in a && ps[j].id in b && a[ps[j].id] == b[ps[j].id]
    ensures HasEntries(ps, a) && HasEntries(ps, b)
    ensures Throughput(ps, a) == Throughput(ps, b)
    decreases |ps|
  {
    if ps != [] {
      var init := ps[..|ps| - 1];
      assert forall j :: 0 <= j < |init| ==> init[j] == ps[j];
      ThroughputAgrees(init, a, b);
    }
  }

  /** Summing the entries user by user, in list order, gives the sum of all the map's
      values: the keys are exactly the users' ids, each once. */
  lemma {:induction false} ThroughputIsMapSum(ps: seq<Profile>, alloc: map<int, int>)
    requires UniqueIds(ps) && alloc.Keys == IdSet(ps)
    ensures HasEntries(ps, alloc)
    ensures Throughput(ps, alloc) == MapSum(alloc)
    decreases |ps|
  {
    forall j | 0 <= j < |ps|
      ensures ps[j].id in alloc
    {
      IdSetMembers(ps, ps[j].id);
    }
    if ps != [] {
      var n := |ps| - 1;
      var init, id := ps[..n], ps[n].id;
      var rest := alloc - {id};
      assert UniqueIds(init) by {
        forall a, b | 0 <= a < |init| && 0 <= b < |init| && init[a].id == init[b].id
          ensures a == b
        {
          assert ps[a].id == ps[b].id;
        }
      }
      assert id !in IdSet(init) by {
        assert forall j :: 0 <= j < n ==> init[j] == ps[j] && ps[j].id != ps[n].id;
        IdSetMembers(init, id);
      }
      assert rest.Keys == IdSet(init);
      ThroughputIsMapSum(init, rest);
      forall j | 0 <= j < |init|
        ensures init[j].id in alloc && init[j].id in rest && alloc[init[j].id] == rest[init[j].id]
      {
        IdSetMembers(init, init[j].id);
      }
      ThroughputAgrees(init, alloc, rest);
      MapSumRemove(alloc, id);
    }
  }

  // ---------------------------------------------------------------------------------------
  // Fairness

  /** One user's held units divided by its demand. */
  function Ratio(p: Profile, alloc: map<int, int>): (r: real)
    requires p.id in alloc && p.demand != 0
    ensures r * (p.demand as real) == alloc[p.id] as real
    ensures p.demand > 0 && alloc[p.id] >= 0 ==> r >= 0.0
  {
    (alloc[p.id] as real) / (p.demand as real)
  }

  /** The sum, over the users in list order, of their ratios. */
  function RatioSum(ps: seq<Profile>, alloc: map<int, int>): (r: real)
    requires HasEntries(ps, alloc)
    requires forall j :: 0 <= j < |ps| ==> ps[j].demand != 0
    ensures (forall j :: 0 <= j < |ps| ==> ps[j].demand > 0 && alloc[ps[j].id] >= 0) ==> r >= 0.0
    decreases |ps|
  {
    if ps == [] then 0.0 else RatioSum(ps[..|ps| - 1], alloc) + Ratio(ps[|ps| - 1], alloc)
  }

  /** `calculate_fairness` as evidently intended: the mean over users of held units divided
      by that user's demand, with the two divisions by zero reported as errors. */
  function Fairness(ps: seq<Profile>, alloc: map<int, int>): (r: Result<real>)
    requires HasEntries(ps, alloc)
    ensures r == Err(EmptyUserSet) <==> |ps| == 0
    ensures r == Err(InvalidDemand) <==> |ps| > 0 && exists j :: 0 <= j < |ps| && ps[j].demand == 0
    ensures r.Ok? || r == Err(EmptyUserSet) || r == Err(InvalidDemand)
  {
    if |ps| == 0 then Err(EmptyUserSet)
    else if exists j :: 0 <= j < |ps| && ps[j].demand == 0 then Err(InvalidDemand)
    else Ok(RatioSum(ps, alloc) / (|ps| as real))
  }

  /** With positive demands, each ratio lies in `[0, total / demand]` under the cap, and
      hence in `[0, total]`. It may exceed 1: a user can hold several demands. */
  lemma RatioBounds(p: Profile, alloc: map<int, int>, total: int)
    requires HoldsWithin(p, alloc, total) && p.demand > 0
    ensures 0.0 <= Ratio(p, alloc) <= (total as real) / (p.demand as real)
    ensures Ratio(p, alloc) <= total as real
  {
    var a, d := alloc[p.id] as real, p.demand as real;
    assert a / d * d == a;
    assert (total as real) / d * d == total as real;
    assert (total as real) / d <= total as real by {
      assert (total as real) / d * d >= (total as real) / d;
    }
  }

  lemma {:induction false} RatioSumBounds(ps: seq<Profile>, alloc: map<int, int>, total: int)
    requires AllHoldWithin(ps, alloc, total)
    requires forall j :: 0 <= j < |ps| ==> ps[j].demand > 0
    ensures 0.0 <= RatioSum(ps, alloc) <= (total as real) * (|ps| as real)
    decreases |ps|
  {
    if ps != [] {
      var init := ps[..|ps| - 1];
      RatioSumBounds(init, alloc, total);
      RatioBounds(ps[|ps| - 1], alloc, total);
    }
  }

  /** Fairness of a non-empty, well-configured scheduler within the cap is defined and lies
      in `[0, total]`. */
  lemma FairnessBounds(c: Config, alloc: map<int, int>)
    requires WellConfigured(c) && WithinCap(c, alloc) && |c.profiles| > 0
    ensures Fairness(c.profiles, alloc).Ok?
    ensures 0.0 <= Fairness(c.profiles, alloc).value <= c.total as real
  {
    var n := |c.profiles| as real;
    RatioSumBounds(c.profiles, alloc, c.total);
    var s := RatioSum(c.profiles, alloc);
    assert s / n * n == s;
    assert s <= (c.total as real) * n;
  }

  lemma CapBoundsFairness(c: Config, alloc: map<int, int>)
    requires HasEntries(c.profiles, alloc)
    ensures WellConfigured(c) && WithinCap(c, alloc) && |c.profiles| > 0 ==>
      Fairness(c.profiles, alloc).Ok? && 0.0 <= Fairness(c.profiles, alloc).value <= c.total as real
  {
    if WellConfigured(c) && WithinCap(c, alloc) && |c.profiles| > 0 {
      FairnessBounds(c, alloc);
    }
  }

  /** The sum of the streaks of the users that are not flagged. */
  function UnflaggedStreaks(states: seq<UserState>): int
    decreases |states|
  {
    if states == [] then 0
    else
      var s := states[|states| - 1];
      UnflaggedStreaks(states[..|states| - 1]) + (if s.preempted then 0 else s.timeOnNetwork)
  }

  /** Each ratio of a user whose holding is its streak times its demand is that streak (or
      0 once flagged), so the ratios add up to the unflagged streaks. */
  lemma {:induction false} RatioSumIsStreaks(ps: seq<Profile>, states: seq<UserState>, alloc: map<int, int>)
    requires |states| == |ps|
    requires forall j :: 0 <= j < |ps| ==>
      && ps[j].demand > 0 && ps[j].id in alloc
      && alloc[ps[j].id] == (if states[j].preempted then 0 else states[j].timeOnNetwork * ps[j].demand)
    ensures HasEntries(ps, alloc)
    ensures RatioSum(ps, alloc) == UnflaggedStreaks(states) as real
    decreases |ps|
  {
    if ps != [] {
      var n := |ps| - 1;
      var init, prior := ps[..n], states[..n];
      assert forall j :: 0 <= j < n ==> init[j] == ps[j] && prior[j] == states[j];
      RatioSumIsStreaks(init, prior, alloc);
      var p, s := ps[n], states[n];
      if !s.preempted {
        var t, d := s.timeOnNetwork as real, p.demand as real;
        assert (alloc[p.id] as real) == t * d;
        assert t * d / d == t;
      }
    }
  }

  /** When held units are accounted for by streaks, fairness is the mean, over all users,
      of the streak of each unflagged user: the number of demands it holds. */
  lemma FairnessIsMeanStreak(c: Config, l: Ledger)
    requires WellFormed(c, l) && StreakAccounts(c, l) && |c.profiles| > 0
    requires forall j :: 0 <= j < |c.profiles| ==> c.profiles[j].demand > 0
    ensures HasEntries(c.profiles, l.alloc)
    ensures Fairness(c.profiles, l.alloc) ==
      Ok((UnflaggedStreaks(l.states) as real) / (|c.profiles| as real))
  {
    RatioSumIsStreaks(c.profiles, l.states, l.alloc);
  }

  // ---------------------------------------------------------------------------------------
  // The comprehension as written

  /** `calculate_fairness` as written: the comprehension unpacks the dictionary's items, whose
      keys are integer ids, and reads `.demand` from each key. Any non-empty map therefore
      raises AttributeError on its first item; an empty one reaches the division by a zero
      length. */
  function FairnessAsWritten(alloc: map<int, int>): (r: Result<real>)
    ensures r.Err?
  {
    if |alloc| == 0 then Err(EmptyUserSet) else Err(MissingAttribute)
  }

  /** For one user with a positive demand the intended metric is defined while the code as
      written fails. */
  lemma FairnessAsWrittenFailsOneUser(p: Profile, held: int)
    requires p.demand > 0
    ensures Fairness([p], map[p.id := held]) == Ok((held as real) / (p.demand as real))
    ensures FairnessAsWritten(map[p.id := held]) == Err(MissingAttribute)
  {
    var ps, alloc := [p], map[p.id := held];
    assert ps[..0] == [];
    assert RatioSum(ps, alloc) == Ratio(p, alloc);
  }
}
