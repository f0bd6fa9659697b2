/**
 The objects of the scheduler: `User`, whose streak and flag are updated in place, and
 `LteScheduler`, which owns the allocation map and runs `preempt_if_needed` and
 `allocate_resources` on them. Each mutating method is proved to leave the objects in the
 state that the value-level rules of `Policy` give; the metrics read the map through
 `Metrics`.
 */
module Scheduling {
  import opened Policy
  import opened PolicyProperties
  import opened Metrics
  import opened Passes

  class User {
    const id: int
    const priority: int
    const demand: int
    /** Stored but never read by any operation. */
    const maxTime: int
    var timeOnNetwork: int
    var preempted: bool

    constructor (id: int, priority: int, demand: int, maxTime: int)
      ensures this.id == id && this.priority == priority && this.demand == demand
      ensures this.maxTime == maxTime
      ensures timeOnNetwork == 0 && !preempted
    {
      this.id := id;
      this.priority := priority;
      this.demand := demand;
      this.maxTime := maxTime;
      timeOnNetwork := 0;
      preempted := false;
    }

    function AsProfile(): Profile {
      Profile(id, priority, demand)
    }

    function AsState(): UserState
      reads this
    {
      UserState(timeOnNetwork, preempted)
    }
  }

  /** The fixed fields of the users, in list order. */
  function Profiles(users: seq<User>): (ps: seq<Profile>)
    ensures |ps| == |users|
    ensures forall j :: 0 <= j < |users| ==> ps[j] == users[j].AsProfile()
  {
    seq(|users|, j requires 0 <= j < |users| => users[j].AsProfile())
  }

  /** The mutable fields of the users, in list order. */
  ghost function States(users: seq<User>): (ss: seq<UserState>)
    reads users
    ensures |ss| == |users|
    ensures forall j :: 0 <= j < |users| ==> ss[j] == users[j].AsState()
  {
    seq(|users|, j requires 0 <= j < |users| reads users => users[j].AsState())
  }

  class LteScheduler {
    const totalResources: int
    const users: seq<User>
    var resourcesAllocated: map<int, int>

    function Setup(): Config {
      Config(totalResources, Profiles(users))
    }

    /** The state this scheduler and its users are in, as a value. */
    ghost function Current(): Ledger
      reads this, users
    {
      Ledger(States(users), resourcesAllocated)
    }

    /** Ids are unique and the map holds exactly one entry per user. */
    ghost predicate Valid()
      reads this
    {
      KeysMatch(Setup(), resourcesAllocated)
    }

    /** `LTE_Scheduler(total_resources, users)`. It creates one entry, 0, per user id and
        leaves the users as they are. */
    constructor (totalResources: int, users: seq<User>)
      requires UniqueIds(Profiles(users))
      ensures this.totalResources == totalResources && this.users == users
      ensures Valid()
      ensures resourcesAllocated == InitialAlloc(Profiles(users))
      ensures forall j :: 0 <= j < |users| ==> resourcesAllocated[users[j].id] == 0
      ensures totalResources >= 0 ==> WithinCap(Setup(), resourcesAllocated)
      ensures MultiplesOfDemand(Setup(), resourcesAllocated)
      ensures (forall u :: u in users ==> u.timeOnNetwork == 0 && !u.preempted) ==>
        StreakAccounts(Setup(), Current())
    {
      this.totalResources := totalResources;
      this.users := users;
      resourcesAllocated := InitialAlloc(Profiles(users));
      new;
      InitialLedger(Setup(), States(users));
      assert forall j :: 0 <= j < |users| ==> users[j] in users;
    }

    /** `preempt_if_needed(user, demand)`. `pick` stands for the draw of `random.choice`
        over the candidate list. */
    method PreemptIfNeeded(user: User, demand: int, pick: nat)
      requires Valid() && user.id in resourcesAllocated
      requires ValidPick(Candidates(Profiles(users), user.id, user.priority), pick)
      modifies this`resourcesAllocated, users
      ensures Valid()
      ensures Current() == Preempt(Setup(), old(Current()), user.id, user.priority, demand, pick)
    {
      if resourcesAllocated[user.id] + demand > totalResources {
        var candidates := Candidates(Profiles(users), user.id, user.priority);
        if candidates != [] {
          var v := candidates[pick];
          var victim := users[v];
          ghost var before := Current();
          resourcesAllocated := resourcesAllocated[victim.id := 0];
          victim.preempted := true;
          assert forall j :: 0 <= j < |users| && j != v ==> users[j] != victim;
          assert Current().states == before.states[v := before.states[v].(preempted := true)];
        }
      }
    }

    /** Step 1 of a turn: a pending preemption resets the user's streak and clears its flag. */
    method ClearPendingOf(i: nat)
      requires Valid() && i < |users|
      modifies users[i]
      ensures Current() == ClearPending(old(Current()), i)
    {
      var user := users[i];
      assert forall j :: 0 <= j < |users| && j != i ==> users[j] != user;
      if user.preempted {
        user.timeOnNetwork := 0;
        user.preempted := false;
      }
      assert Current().states == ClearPending(old(Current()), i).states;
    }

    /** Step 3 of a turn: grant the demand when the user's own holding plus it fits the cap. */
    method GrantIfFits(i: nat)
      requires Valid() && i < |users|
      modifies this`resourcesAllocated, users[i]
      ensures Valid()
      ensures Current() == Grant(Setup(), old(Current()), i)
    {
      var user := users[i];
      assert forall j :: 0 <= j < |users| && j != i ==> users[j] != user;
      var demand := user.demand;
      if resourcesAllocated[user.id] + demand <= totalResources {
        resourcesAllocated := resourcesAllocated[user.id := resourcesAllocated[user.id] + demand];
        user.timeOnNetwork := user.timeOnNetwork + 1;
      }
      assert Current().states == Grant(Setup(), old(Current()), i).states;
    }

    /** The body of the loop of `allocate_resources` for the user at position `i`. */
    method TakeTurn(i: nat, pick: nat)
      requires Valid() && i < |users| && ValidPickAt(Setup(), i, pick)
      modifies this`resourcesAllocated, users
      ensures Valid()
      ensures Current() == Turn(Setup(), old(Current()), i, pick)
    {
      var user := users[i];
      ClearPendingOf(i);
      PreemptIfNeeded(user, user.demand, pick);
      GrantIfFits(i);
    }

    /** The objects are in the state that the first `i` turns of a pass that started from
        `start` produce. */
    ghost predicate InPass(start: Ledger, picks: seq<nat>, i: nat)
      reads this, users
    {
      && Valid() && WellFormed(Setup(), start) && ValidPicks(Setup(), picks) && i <= |users|
      && Current() == Prefix(Setup(), start, picks, i)
    }

    /** The turn of user `i` within a pass: it extends the prefix of turns taken by one. */
    method TakeTurnOfPass(i: nat, picks: seq<nat>, ghost start: Ledger)
      requires InPass(start, picks, i) && i < |users|
      modifies this`resourcesAllocated, users
      ensures InPass(start, picks, i + 1)
    {
      TakeTurn(i, picks[i]);
    }

    /** The loop of `allocate_resources`: the turns of all users, in list order. */
    method TakeAllTurns(picks: seq<nat>)
      requires Valid() && ValidPicks(Setup(), picks)
      modifies this`resourcesAllocated, users
      ensures Valid()
      ensures Current() == Pass(Setup(), old(Current()), picks)
    {
      ghost var start := Current();
      var i := 0;
      while i < |users|
        invariant InPass(start, picks, i)
      {
        TakeTurnOfPass(i, picks, start);
        i := i + 1;
      }
    }

    /** `allocate_resources()`. `picks[i]` stands for the draw of `random.choice` made if
        the turn of user `i` preempts. The pass keeps every holding within the cap, keeps it
        a whole number of demands, and keeps it accounted for by the user's streak. */
    method AllocateResources(picks: seq<nat>)
      requires Valid() && ValidPicks(Setup(), picks)
      modifies this`resourcesAllocated, users
      ensures Valid()
      ensures Current() == Pass(Setup(), old(Current()), picks)
      ensures resourcesAllocated.Keys == old(resourcesAllocated.Keys)
      ensures WellConfigured(Setup()) && WithinCap(Setup(), old(resourcesAllocated)) ==>
        WithinCap(Setup(), resourcesAllocated)
      ensures MultiplesOfDemand(Setup(), old(resourcesAllocated)) ==>
        MultiplesOfDemand(Setup(), resourcesAllocated)
      ensures old(StreakAccounts(Setup(), Current())) ==> StreakAccounts(Setup(), Current())
    {
      TakeAllTurns(picks);
    }

    /** `calculate_throughput()`. */
    function CalculateThroughput(): (t: int)
      reads this
      requires Valid()
      ensures t == MapSum(resourcesAllocated)
      ensures WithinCap(Setup(), resourcesAllocated) ==> 0 <= t <= totalResources * |users|
    {
      ThroughputIsMapSum(Profiles(users), resourcesAllocated);
      CapBoundsThroughput(Setup(), resourcesAllocated);
      Throughput(Profiles(users), resourcesAllocated)
    }

    /** `calculate_fairness()`, looking up each user's demand by its id. */
    function CalculateFairness(): (r: Result<real>)
      reads this
      requires Valid()
      ensures r == Err(EmptyUserSet) <==> |users| == 0
      ensures (exists j :: 0 <= j < |users| && users[j].demand == 0) ==> r == Err(InvalidDemand)
      ensures WellConfigured(Setup()) && WithinCap(Setup(), resourcesAllocated) && |users| > 0 ==>
        r.Ok? && 0.0 <= r.value <= totalResources as real
    {
      CapBoundsFairness(Setup(), resourcesAllocated);
      Fairness(Profiles(users), resourcesAllocated)
    }
  }
}
