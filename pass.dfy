/**
 A whole call of `allocate_resources`: the turns of all users, one after the other, in list
 order. The invariants of a single turn carry over to any number of turns.
 */
module Passes {
  import opened Policy
  import opened PolicyProperties

  /** One valid choice per user, consumed by that user's turn. */
  ghost predicate ValidPicks(c: Config, picks: seq<nat>) {
    |picks| == |c.profiles| && forall i :: 0 <= i < |picks| ==> ValidPickAt(c, i, picks[i])
  }

  /** The four invariants of a turn, each under its own hypothesis. */
  lemma TurnKeepsInvariants(c: Config, l: Ledger, i: nat, pick: nat)
    requires WellFormed(c, l) && i < |c.profiles| && ValidPickAt(c, i, pick)
    ensures var r := Turn(c, l, i, pick);
      && (WellConfigured(c) && WithinCap(c, l.alloc) ==> WithinCap(c, r.alloc))
      && (MultiplesOfDemand(c, l.alloc) ==> MultiplesOfDemand(c, r.alloc))
      && (StreakAccounts(c, l) ==> StreakAccounts(c, r))
  {
    if WellConfigured(c) && WithinCap(c, l.alloc) {
      TurnKeepsCap(c, l, i, pick);
    }
    if MultiplesOfDemand(c, l.alloc) {
      TurnKeepsMultiples(c, l, i, pick);
    }
    if StreakAccounts(c, l) {
      TurnKeepsStreakAccounts(c, l, i, pick);
    }
  }

  /** The ledger after the turns of the first `k` users of the list. Whatever the turns and
      the choices made in them, every holding stays within the cap, stays a whole number of
      demands, and stays accounted for by the user's streak, when it was so at the start.
      A user among the first `k` has its flag set only if a same-priority user with another
      id comes after it among those turns: its own turn cleared any earlier flag. */
  function Prefix(c: Config, l: Ledger, picks: seq<nat>, k: nat): (r: Ledger)
    requires WellFormed(c, l) && ValidPicks(c, picks) && k <= |c.profiles|
    ensures WellFormed(c, r)
    ensures WellConfigured(c) && WithinCap(c, l.alloc) ==> WithinCap(c, r.alloc)
    ensures MultiplesOfDemand(c, l.alloc) ==> MultiplesOfDemand(c, r.alloc)
    ensures StreakAccounts(c, l) ==> StreakAccounts(c, r)
    ensures forall i :: 0 <= i < k && r.states[i].preempted ==>
      exists j :: i < j < k && IsPeer(c.profiles[j], c.profiles[i].id, c.profiles[i].priority)
    decreases k
  {
    if k == 0 then l
    else
      var before := Prefix(c, l, picks, k - 1);
      TurnKeepsInvariants(c, before, k - 1, picks[k - 1]);
      TurnFlagSource(c, before, k - 1, picks[k - 1]);
      Turn(c, before, k - 1, picks[k - 1])
  }

  /** One call of `allocate_resources`. It writes only to existing keys of the map and keeps
      the invariants of a turn. When it returns, a user's flag is set only if a
      same-priority user with another id comes after it in the list. */
  function Pass(c: Config, l: Ledger, picks: seq<nat>): (r: Ledger)
    requires WellFormed(c, l) && ValidPicks(c, picks)
    ensures WellFormed(c, r) && r.alloc.Keys == l.alloc.Keys
    ensures WellConfigured(c) && WithinCap(c, l.alloc) ==> WithinCap(c, r.alloc)
    ensures MultiplesOfDemand(c, l.alloc) ==> MultiplesOfDemand(c, r.alloc)
    ensures StreakAccounts(c, l) ==> StreakAccounts(c, r)
    ensures forall i :: 0 <= i < |c.profiles| && r.states[i].preempted ==>
      exists j :: i < j < |c.profiles| && IsPeer(c.profiles[j], c.profiles[i].id, c.profiles[i].priority)
  {
    Prefix(c, l, picks, |c.profiles|)
  }
}
