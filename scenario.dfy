/**
 A worked run of two users of the same priority, each demanding 5 of a cap of 8: the
 first pass grants both; from then on every pass has user 0 preempt user 1 and be denied,
 after which user 1 has its streak reset and is granted again.
 */
module Scenario {
  import opened Policy
  import opened PolicyProperties
  import opened Passes
  import opened Metrics

  const A := Profile(0, 3, 5)
  const B := Profile(1, 3, 5)
  const Two := Config(8, [A, B])
  const Picks: seq<nat> := [0, 0]

  /** Both users granted once, nobody flagged. */
  const Granted := Ledger([UserState(1, false), UserState(1, false)], map[0 := 5, 1 := 5])

  /** The constructor's state: both ids held at 0. */
  lemma Start()
    ensures InitialAlloc(Two.profiles) == map[0 := 0, 1 := 0]
    ensures WellFormed(Two, Ledger([UserState(0, false), UserState(0, false)], map[0 := 0, 1 := 0]))
    ensures ValidPicks(Two, Picks)
  {
    var ps := Two.profiles;
    assert ps[..1] == [A] && [A][..0] == [];
    assert IdSet(ps) == {0, 1} by {
      assert IdSet([A]) == {0};
    }
    InitialLedger(Two, [UserState(0, false), UserState(0, false)]);
    assert Candidates(ps, 0, 3) == [1] by {
      assert Candidates([A], 0, 3) == [];
    }
    assert Candidates(ps, 1, 3) == [0] by {
      assert Candidates([A], 1, 3) == [0];
    }
  }

  /** The first pass grants both users. */
  lemma FirstPass()
    ensures var start := Ledger([UserState(0, false), UserState(0, false)], map[0 := 0, 1 := 0]);
      && WellFormed(Two, start) && ValidPicks(Two, Picks)
      && Pass(Two, start, Picks) == Granted
  {
    Start();
    var start := Ledger([UserState(0, false), UserState(0, false)], map[0 := 0, 1 := 0]);
    var s1 := Turn(Two, start, 0, 0);
    assert s1 == Ledger([UserState(1, false), UserState(0, false)], map[0 := 5, 1 := 0]);
    assert Turn(Two, s1, 1, 0) == Granted;
    assert Prefix(Two, start, Picks, 1) == s1;
  }

  /** The second pass: user 0 cannot fit another 5, so it preempts user 1, the only peer,
      and is then denied; user 1's turn clears the flag, resets the streak and grants. The
      ledger ends where it began. */
  lemma SecondPass()
    ensures WellFormed(Two, Granted) && ValidPicks(Two, Picks)
    ensures Turn(Two, Granted, 0, 0) ==
      Ledger([UserState(1, false), UserState(1, true)], map[0 := 5, 1 := 0])
    ensures Pass(Two, Granted, Picks) == Granted
  {
    Start();
    assert Two.profiles[..1] == [A] && [A][..0] == [];
    assert Candidates(Two.profiles, 0, 3) == [1] by {
      assert Candidates([A], 0, 3) == [];
    }
    var t1 := Turn(Two, Granted, 0, 0);
    assert Preempt(Two, ClearPending(Granted, 0), 0, 3, 5, 0) ==
      Ledger([UserState(1, false), UserState(1, true)], map[0 := 5, 1 := 0]);
    assert t1 == Ledger([UserState(1, false), UserState(1, true)], map[0 := 5, 1 := 0]);
    assert ClearPending(t1, 1) == Ledger([UserState(1, false), UserState(0, false)], map[0 := 5, 1 := 0]);
    assert Turn(Two, t1, 1, 0) == Granted;
    assert Prefix(Two, Granted, Picks, 1) == t1;
  }

  /** The metrics of that ledger: 10 units in use, each user at one demand. */
  lemma GrantedMetrics()
    ensures Throughput(Two.profiles, Granted.alloc) == 10
    ensures Fairness(Two.profiles, Granted.alloc) == Ok(1.0)
  {
    var ps := Two.profiles;
    assert ps[..1] == [A] && [A][..0] == [];
    assert Throughput([A], Granted.alloc) == 5;
    assert RatioSum([A], Granted.alloc) == 1.0;
    assert RatioSum(ps, Granted.alloc) == 2.0;
  }
}
