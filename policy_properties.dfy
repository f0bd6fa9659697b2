/**
 What the scheduling rules of `Policy` guarantee: the fixed key set of the allocation map,
 the scope of a preemption and the immunity of the requester, the grant rule of one turn,
 the per-user cap, the accounting of held units by streak, and the lifecycle of the
 `preempted` flag over a whole call of `allocate_resources`.
 */
module PolicyProperties {
  import opened Policy

  // ---------------------------------------------------------------------------------------
  // Invariants of the ledger

  /** The user `p` holds between 0 and `total` units. */
  ghost predicate HoldsWithin(p: Profile, alloc: map<int, int>, total: int) {
    p.id in alloc && 0 <= alloc[p.id] <= total
  }

  /** Every user of `ps` holds between 0 and `total` units. */
  ghost predicate AllHoldWithin(ps: seq<Profile>, alloc: map<int, int>, total: int) {
    forall j :: 0 <= j < |ps| ==> HoldsWithin(ps[j], alloc, total)
  }

  /** Every user's holding lies within the cap. */
  ghost predicate WithinCap(c: Config, alloc: map<int, int>) {
    AllHoldWithin(c.profiles, alloc, c.total)
  }

  /** `k * d`, named so that the product is a term the solver matches on rather than
      arithmetic it tries to reason about. */
  function Times(k: nat, d: int): int {
    k * d
  }

  /** Every user's holding is a whole number of its own demands. */
  ghost predicate MultiplesOfDemand(c: Config, alloc: map<int, int>) {
    forall j :: 0 <= j < |c.profiles| ==>
      c.profiles[j].id in alloc && exists k: nat :: alloc[c.profiles[j].id] == Times(k, c.profiles[j].demand)
  }

  /** A flagged user holds nothing; any other user holds exactly one demand per turn of its
      current streak. */
  ghost predicate StreakAccounts(c: Config, l: Ledger) {
    forall j :: 0 <= j < |c.profiles| ==>
      && c.profiles[j].id in l.alloc && j < |l.states|
      && l.states[j].timeOnNetwork >= 0
      && l.alloc[c.profiles[j].id] ==
         (if l.states[j].preempted then 0 else l.states[j].timeOnNetwork * c.profiles[j].demand)
  }

  /** Nothing about the users outside the positions `skip` differs between `l` and `r`. */
  ghost predicate OthersUnchanged(c: Config, l: Ledger, r: Ledger, skip: set<int>)
    requires WellFormed(c, l) && WellFormed(c, r)
  {
    forall j :: 0 <= j < |c.profiles| && j !in skip ==>
      c.profiles[j].id in l.alloc && c.profiles[j].id in r.alloc &&
      r.states[j] == l.states[j] && r.alloc[c.profiles[j].id] == l.alloc[c.profiles[j].id]
  }

  /** The user at `v` lost its holding and was flagged; its streak is kept. */
  ghost predicate Evicted(c: Config, l: Ledger, r: Ledger, v: int)
    requires WellFormed(c, l) && WellFormed(c, r)
  {
    && 0 <= v < |c.profiles|
    && c.profiles[v].id in r.alloc
    && r.alloc[c.profiles[v].id] == 0
    && r.states[v] == UserState(l.states[v].timeOnNetwork, true)
  }

  // ---------------------------------------------------------------------------------------
  // Construction

  /** The constructor's map has one zero entry per user; the ledger it starts is well formed,
      within the cap when the cap is non-negative, and held in whole demands. */
  lemma InitialLedger(c: Config, states: seq<UserState>)
    requires UniqueIds(c.profiles) && |states| == |c.profiles|
    ensures var l := Ledger(states, InitialAlloc(c.profiles));
      && WellFormed(c, l)
      && (forall j :: 0 <= j < |c.profiles| ==> c.profiles[j].id in l.alloc && l.alloc[c.profiles[j].id] == 0)
      && (c.total >= 0 ==> WithinCap(c, l.alloc))
      && MultiplesOfDemand(c, l.alloc)
      && ((forall j :: 0 <= j < |states| ==> states[j] == UserState(0, false)) ==> StreakAccounts(c, l))
  {
    var l := Ledger(states, InitialAlloc(c.profiles));
    forall j | 0 <= j < |c.profiles|
      ensures c.profiles[j].id in l.alloc && l.alloc[c.profiles[j].id] == 0
      ensures exists k: nat :: l.alloc[c.profiles[j].id] == Times(k, c.profiles[j].demand)
    {
      IdSetMembers(c.profiles, c.profiles[j].id);
      assert l.alloc[c.profiles[j].id] == Times(0, c.profiles[j].demand);
    }
    assert MultiplesOfDemand(c, l.alloc);
    assert WellFormed(c, l);
  }

  // ---------------------------------------------------------------------------------------
  // Preemption

  /** `preempt_if_needed` changes nothing when the requester's own holding plus the demand
      fits the cap, or when no other user shares its priority. Otherwise it affects exactly
      one user: a peer of the requester with the same priority and another id, whose entry
      becomes 0 and whose flag becomes set. The requester's own entry never changes. */
  lemma PreemptScope(c: Config, l: Ledger, id: int, priority: int, demand: int, pick: nat)
    requires WellFormed(c, l) && id in l.alloc
    requires ValidPick(Candidates(c.profiles, id, priority), pick)
    ensures var r := Preempt(c, l, id, priority, demand, pick);
      && r.alloc[id] == l.alloc[id]
      && (l.alloc[id] + demand <= c.total || Candidates(c.profiles, id, priority) == [] ==> r == l)
      && (l.alloc[id] + demand > c.total && Candidates(c.profiles, id, priority) != [] ==>
            exists v :: 0 <= v < |c.profiles| && IsPeer(c.profiles[v], id, priority)
                        && Evicted(c, l, r, v) && OthersUnchanged(c, l, r, {v}))
  {
    var cs := Candidates(c.profiles, id, priority);
    CandidatesExact(c.profiles, id, priority);
    var r := Preempt(c, l, id, priority, demand, pick);
    if l.alloc[id] + demand > c.total && cs != [] {
      var v := cs[pick];
      assert IsPeer(c.profiles[v], id, priority);
      assert Evicted(c, l, r, v) && OthersUnchanged(c, l, r, {v});
    }
  }

  /** When no same-priority peer exists, every user other than the requester is untouched
      by its turn, whatever its holding. */
  lemma NoPeerNoPreemption(c: Config, l: Ledger, i: nat, pick: nat)
    requires WellFormed(c, l) && i < |c.profiles| && ValidPickAt(c, i, pick)
    requires forall j :: 0 <= j < |c.profiles| ==> !IsPeer(c.profiles[j], c.profiles[i].id, c.profiles[i].priority)
    ensures OthersUnchanged(c, l, Turn(c, l, i, pick), {i})
  {
    TurnOthersEffect(c, l, i, pick);
  }

  // ---------------------------------------------------------------------------------------
  // One turn

  /** The grant rule of a turn. The entry grows by exactly the demand, and the streak by
      exactly one, if and only if the user's own holding at the start of its turn plus its
      demand fits the cap; a bare denial changes neither. A pending flag resets the streak
      first and is cleared. A turn that triggers a preemption is therefore a denial: the
      preemption never touches the requester's own entry. */
  lemma TurnOwnEffect(c: Config, l: Ledger, i: nat, pick: nat)
    requires WellFormed(c, l) && i < |c.profiles| && ValidPickAt(c, i, pick)
    ensures var p := c.profiles[i];
      var r := Turn(c, l, i, pick);
      var fits := l.alloc[p.id] + p.demand <= c.total;
      && p.id in l.alloc
      && r.alloc[p.id] == (if fits then l.alloc[p.id] + p.demand else l.alloc[p.id])
      && r.states[i].timeOnNetwork ==
         (if l.states[i].preempted then 0 else l.states[i].timeOnNetwork) + (if fits then 1 else 0)
      && !r.states[i].preempted
  {
    var p := c.profiles[i];
    IdInAlloc(c, l, i);
    var cleared := ClearPending(l, i);
    var pre := Preempt(c, cleared, p.id, p.priority, p.demand, pick);
    PreemptScope(c, cleared, p.id, p.priority, p.demand, pick);
    if pre != cleared {
      var v :| 0 <= v < |c.profiles| && IsPeer(c.profiles[v], p.id, p.priority)
               && Evicted(c, cleared, pre, v) && OthersUnchanged(c, cleared, pre, {v});
      assert v != i;
    }
  }

  /** The effect of a turn on everybody else: when it triggers a preemption and a peer
      exists, exactly one peer is evicted and all others are untouched; otherwise no other
      user is touched. */
  lemma TurnOthersEffect(c: Config, l: Ledger, i: nat, pick: nat)
    requires WellFormed(c, l) && i < |c.profiles| && ValidPickAt(c, i, pick)
    ensures var p := c.profiles[i];
      var r := Turn(c, l, i, pick);
      var evicts := l.alloc[p.id] + p.demand > c.total && Candidates(c.profiles, p.id, p.priority) != [];
      && p.id in l.alloc
      && (evicts ==> exists v :: 0 <= v < |c.profiles| && IsPeer(c.profiles[v], p.id, p.priority)
                                && v != i && Evicted(c, l, r, v) && OthersUnchanged(c, l, r, {i, v}))
      && (!evicts ==> OthersUnchanged(c, l, r, {i}))
  {
    var p := c.profiles[i];
    IdInAlloc(c, l, i);
    var cleared := ClearPending(l, i);
    var pre := Preempt(c, cleared, p.id, p.priority, p.demand, pick);
    var r := Turn(c, l, i, pick);
    PreemptScope(c, cleared, p.id, p.priority, p.demand, pick);
    assert r == Grant(c, pre, i);
    if l.alloc[p.id] + p.demand > c.total && Candidates(c.profiles, p.id, p.priority) != [] {
      var v :| 0 <= v < |c.profiles| && IsPeer(c.profiles[v], p.id, p.priority)
               && Evicted(c, cleared, pre, v) && OthersUnchanged(c, cleared, pre, {v});
      assert v != i;
      forall j | 0 <= j < |c.profiles| && j != i && j != v
        ensures c.profiles[j].id in l.alloc && c.profiles[j].id in r.alloc
        ensures r.states[j] == l.states[j] && r.alloc[c.profiles[j].id] == l.alloc[c.profiles[j].id]
      {
        IdInAlloc(c, l, j);
        IdInAlloc(c, r, j);
        assert c.profiles[j].id != p.id;
      }
      assert c.profiles[v].id != p.id;
      assert Evicted(c, l, r, v) && OthersUnchanged(c, l, r, {i, v});
    } else {
      forall j | 0 <= j < |c.profiles| && j != i
        ensures c.profiles[j].id in l.alloc && c.profiles[j].id in r.alloc
        ensures r.states[j] == l.states[j] && r.alloc[c.profiles[j].id] == l.alloc[c.profiles[j].id]
      {
        IdInAlloc(c, l, j);
        IdInAlloc(c, r, j);
        assert c.profiles[j].id != p.id;
      }
    }
  }

  /** A turn keeps every holding within the cap. */
  lemma TurnKeepsCap(c: Config, l: Ledger, i: nat, pick: nat)
    requires WellFormed(c, l) && i < |c.profiles| && ValidPickAt(c, i, pick)
    requires WellConfigured(c) && WithinCap(c, l.alloc)
    ensures WithinCap(c, Turn(c, l, i, pick).alloc)
  {
    var r := Turn(c, l, i, pick);
    TurnOwnEffect(c, l, i, pick);
    TurnOthersEffect(c, l, i, pick);
    forall j | 0 <= j < |c.profiles|
      ensures c.profiles[j].id in r.alloc && 0 <= r.alloc[c.profiles[j].id] <= c.total
    {
      IdInAlloc(c, r, j);
    }
  }

  /** A turn keeps every holding a whole number of demands. */
  lemma TurnKeepsMultiples(c: Config, l: Ledger, i: nat, pick: nat)
    requires WellFormed(c, l) && i < |c.profiles| && ValidPickAt(c, i, pick)
    requires MultiplesOfDemand(c, l.alloc)
    ensures MultiplesOfDemand(c, Turn(c, l, i, pick).alloc)
  {
    var r := Turn(c, l, i, pick);
    var p := c.profiles[i];
    TurnOwnEffect(c, l, i, pick);
    TurnOthersEffect(c, l, i, pick);
    forall j | 0 <= j < |c.profiles|
      ensures c.profiles[j].id in r.alloc
      ensures exists k: nat :: r.alloc[c.profiles[j].id] == Times(k, c.profiles[j].demand)
    {
      IdInAlloc(c, r, j);
      var d := c.profiles[j].demand;
      var k: nat :| l.alloc[c.profiles[j].id] == Times(k, d);
      if r.alloc[c.profiles[j].id] == 0 {
        assert r.alloc[c.profiles[j].id] == Times(0, d);
      } else if j == i && r.alloc[p.id] != l.alloc[p.id] {
        assert r.alloc[c.profiles[j].id] == Times(k + 1, d);
      } else {
        assert r.alloc[c.profiles[j].id] == Times(k, d);
      }
    }
  }

  /** A turn keeps each holding equal to demand times streak for unflagged users, and 0 for
      flagged ones, with non-negative streaks. */
  lemma TurnKeepsStreakAccounts(c: Config, l: Ledger, i: nat, pick: nat)
    requires WellFormed(c, l) && i < |c.profiles| && ValidPickAt(c, i, pick)
    requires StreakAccounts(c, l)
    ensures StreakAccounts(c, Turn(c, l, i, pick))
  {
    var r := Turn(c, l, i, pick);
    var p := c.profiles[i];
    TurnOwnEffect(c, l, i, pick);
    TurnOthersEffect(c, l, i, pick);
    forall j | 0 <= j < |c.profiles|
      ensures c.profiles[j].id in r.alloc && j < |r.states| && r.states[j].timeOnNetwork >= 0
      ensures r.alloc[c.profiles[j].id] ==
        (if r.states[j].preempted then 0 else r.states[j].timeOnNetwork * c.profiles[j].demand)
    {
      IdInAlloc(c, r, j);
      if j == i {
        var s := if l.states[i].preempted then 0 else l.states[i].timeOnNetwork;
        assert l.alloc[p.id] == s * p.demand;
        if l.alloc[p.id] + p.demand <= c.total {
          assert r.states[i].timeOnNetwork == s + 1;
          assert (s + 1) * p.demand == s * p.demand + p.demand;
        }
      }
    }
  }

  /** After a turn, the user whose turn it was is unflagged, and any other flagged user was
      either flagged before or is a same-priority peer of that user with another id. */
  lemma TurnFlagSource(c: Config, l: Ledger, i: nat, pick: nat)
    requires WellFormed(c, l) && i < |c.profiles| && ValidPickAt(c, i, pick)
    ensures var r := Turn(c, l, i, pick);
      forall j :: 0 <= j < |c.profiles| && r.states[j].preempted ==>
        j != i && (l.states[j].preempted || IsPeer(c.profiles[i], c.profiles[j].id, c.profiles[j].priority))
  {
    TurnOwnEffect(c, l, i, pick);
    TurnOthersEffect(c, l, i, pick);
  }
}
