/**
 The allocation and preemption rules of the LTE priority scheduler, stated on values.

 A scheduler is a fixed, ordered list of users (`Config`) and the state it updates in
 place (`Ledger`): each user's `time_on_network` streak and `preempted` flag, and the
 `resources_allocated` map from user id to held units. The class `Scheduling.LteScheduler`
 runs these rules on objects and is proved to agree with them; the lemmas here state what
 the rules guarantee.

 The one random choice of the source, `random.choice` over the preemption candidates, is a
 caller-supplied index `pick` into the candidate list.
 */
module Policy {

  /** The fields of a user that never change after construction. */
  datatype Profile = Profile(id: int, priority: int, demand: int)

  /** The fields of a user that the scheduler updates in place. */
  datatype UserState = UserState(timeOnNetwork: int, preempted: bool)

  /** `total_resources` (a cap applied to each user on its own) and the ordered user list. */
  datatype Config = Config(total: int, profiles: seq<Profile>)

  /** The mutable part: one state per user, by position in the list, and the allocation map. */
  datatype Ledger = Ledger(states: seq<UserState>, alloc: map<int, int>)

  ghost predicate UniqueIds(ps: seq<Profile>) {
    forall i, j :: 0 <= i < |ps| && 0 <= j < |ps| && ps[i].id == ps[j].id ==> i == j
  }

  /** The ids of the users; the keys of the constructor's dictionary comprehension. */
  function IdSet(ps: seq<Profile>): (ids: set<int>)
    ensures forall j :: 0 <= j < |ps| ==> ps[j].id in ids
    decreases |ps|
  {
    if ps == [] then {} else IdSet(ps[..|ps| - 1]) + {ps[|ps| - 1].id}
  }

  lemma {:induction false} IdSetMembers(ps: seq<Profile>, x: int)
    ensures x in IdSet(ps) <==> exists j :: 0 <= j < |ps| && ps[j].id == x
    decreases |ps|
  {
    if ps != [] {
      var init := ps[..|ps| - 1];
      IdSetMembers(init, x);
      if x in IdSet(init) {
        var j :| 0 <= j < |init| && init[j].id == x;
        assert ps[j].id == x;
      }
      if j :| 0 <= j < |ps| - 1 && ps[j].id == x {
        assert init[j].id == x;
      }
    }
  }

  /** Ids are unique and the map has exactly one key per user. (The last conjunct follows
      from the one before it, by `IdSetMembers`.) */
  ghost predicate KeysMatch(c: Config, alloc: map<int, int>) {
    && UniqueIds(c.profiles)
    && alloc.Keys == IdSet(c.profiles)
    && forall j :: 0 <= j < |c.profiles| ==> c.profiles[j].id in alloc
  }

  /** There is one state per user and the map's keys are the users' ids. */
  ghost predicate WellFormed(c: Config, l: Ledger) {
    |l.states| == |c.profiles| && KeysMatch(c, l.alloc)
  }

  lemma IdInAlloc(c: Config, l: Ledger, j: int)
    requires WellFormed(c, l) && 0 <= j < |c.profiles|
    ensures c.profiles[j].id in l.alloc
  {
    IdSetMembers(c.profiles, c.profiles[j].id);
  }

  /** The scenario the cap and fairness bounds are stated for: a non-negative cap and
      positive demands, as in the source's own driver. */
  ghost predicate WellConfigured(c: Config) {
    c.total >= 0 && forall j :: 0 <= j < |c.profiles| ==> c.profiles[j].demand > 0
  }

  // ---------------------------------------------------------------------------------------
  // Construction

  /** The map built by the constructor: every user id held at 0. */
  function InitialAlloc(ps: seq<Profile>): (m: map<int, int>)
    ensures m.Keys == IdSet(ps)
    ensures forall k :: k in m ==> m[k] == 0
  {
    map id | id in IdSet(ps) :: 0
  }

  // ---------------------------------------------------------------------------------------
  // Preemption

  /** `u` may be preempted on behalf of the requester `(id, priority)`. */
  predicate IsPeer(u: Profile, id: int, priority: int) {
    u.priority == priority && u.id != id
  }

  /** The positions, in list order, of the users other than `id` that share `priority`:
      the candidate list of `preempt_if_needed`. */
  function Candidates(ps: seq<Profile>, id: int, priority: int): (cs: seq<nat>)
    ensures forall k :: 0 <= k < |cs| ==> cs[k] < |ps|
    decreases |ps|
  {
    if ps == [] then []
    else
      var last := |ps| - 1;
      var rest := Candidates(ps[..last], id, priority);
      if IsPeer(ps[last], id, priority) then rest + [last] else rest
  }

  /** The candidate list holds every peer of the requester and nothing else, each once, in
      list order. */
  lemma {:induction false} CandidatesExact(ps: seq<Profile>, id: int, priority: int)
    ensures var cs := Candidates(ps, id, priority);
      && (forall k :: 0 <= k < |cs| ==> cs[k] < |ps| && IsPeer(ps[cs[k]], id, priority))
      && (forall j :: 0 <= j < |ps| ==> (j in cs <==> IsPeer(ps[j], id, priority)))
      && (forall a, b :: 0 <= a < b < |cs| ==> cs[a] < cs[b])
    decreases |ps|
  {
    if ps != [] {
      var last := |ps| - 1;
      CandidatesExact(ps[..last], id, priority);
      var rest := Candidates(ps[..last], id, priority);
      assert forall j :: 0 <= j < last ==> ps[..last][j] == ps[j];
      assert forall k :: 0 <= k < |rest| ==> rest[k] < last;
    }
  }

  /** A choice that `random.choice` could make: an index into a non-empty candidate list
      (any value when the list is empty, since no choice is then made). */
  predicate ValidPick(cs: seq<nat>, pick: nat) {
    cs == [] || pick < |cs|
  }

  /** The user at position `v` loses everything it holds and is flagged as preempted. */
  function Evict(c: Config, l: Ledger, v: nat): (r: Ledger)
    requires WellFormed(c, l) && v < |c.profiles|
    ensures WellFormed(c, r)
    ensures r.alloc[c.profiles[v].id] == 0
    ensures r.states[v] == UserState(l.states[v].timeOnNetwork, true)
    ensures forall j :: 0 <= j < |c.profiles| && j != v ==>
      r.states[j] == l.states[j] && r.alloc[c.profiles[j].id] == l.alloc[c.profiles[j].id]
  {
    IdInAlloc(c, l, v);
    Ledger(l.states[v := l.states[v].(preempted := true)], l.alloc[c.profiles[v].id := 0])
  }

  /** `preempt_if_needed(user, demand)` for the requester `(id, priority)`. */
  function Preempt(c: Config, l: Ledger, id: int, priority: int, demand: int, pick: nat): (r: Ledger)
    requires WellFormed(c, l) && id in l.alloc
    requires ValidPick(Candidates(c.profiles, id, priority), pick)
    ensures WellFormed(c, r)
  {
    var cs := Candidates(c.profiles, id, priority);
    if l.alloc[id] + demand > c.total && cs != [] then Evict(c, l, cs[pick]) else l
  }

  // ---------------------------------------------------------------------------------------
  // One user's turn of `allocate_resources`

  /** Step 1: a pending preemption resets the streak and clears the flag. */
  function ClearPending(l: Ledger, i: nat): (r: Ledger)
    requires i < |l.states|
    ensures |r.states| == |l.states| && r.alloc == l.alloc
  {
    if l.states[i].preempted then Ledger(l.states[i := UserState(0, false)], l.alloc) else l
  }

  /** Step 3: the grant, made only when it keeps the user's own holding within the cap. */
  function Grant(c: Config, l: Ledger, i: nat): (r: Ledger)
    requires WellFormed(c, l) && i < |c.profiles|
    ensures WellFormed(c, r)
  {
    var p := c.profiles[i];
    IdInAlloc(c, l, i);
    if l.alloc[p.id] + p.demand <= c.total then
      Ledger(l.states[i := l.states[i].(timeOnNetwork := l.states[i].timeOnNetwork + 1)],
             l.alloc[p.id := l.alloc[p.id] + p.demand])
    else l
  }

  /** The choice for the user at position `i` is a valid index into its candidate list. */
  predicate ValidPickAt(c: Config, i: nat, pick: nat)
    requires i < |c.profiles|
  {
    ValidPick(Candidates(c.profiles, c.profiles[i].id, c.profiles[i].priority), pick)
  }

  /** The body of the loop of `allocate_resources` for the user at position `i`. */
  function Turn(c: Config, l: Ledger, i: nat, pick: nat): (r: Ledger)
    requires WellFormed(c, l) && i < |c.profiles| && ValidPickAt(c, i, pick)
    ensures WellFormed(c, r)
  {
    var p := c.profiles[i];
    var cleared := ClearPending(l, i);
    IdInAlloc(c, cleared, i);
    Grant(c, Preempt(c, cleared, p.id, p.priority, p.demand, pick), i)
  }
}
