# LTE priority scheduler: a verified Dafny model

This project models the allocation and preemption ledger of `LTE_Scheduler` in
`priority_scheduling.py`, together with the `User` records it updates.

A scheduler holds a fixed, ordered list of users and a total `total_resources`. That total is
a cap on each user's own holding, not a pool the users share. It also holds a dictionary
`resources_allocated` that maps each user id to the units that user holds. Each user has a
fixed `id`, `priority` and `demand`, and two fields the scheduler updates in place:
`time_on_network` (the streak of granted turns) and `preempted` (a pending-reset flag).

- `allocate_resources` makes one pass over the users in list order. Each user's turn has
  three steps:
  1. A pending flag resets the user's streak to 0 and is cleared.
  2. `preempt_if_needed` runs. If the user's own holding plus its demand would exceed the
     cap, one other user with the same priority is chosen at random. That user's entry is
     set to 0 and its flag is set.
  3. The demand is granted only if the user's own holding plus the demand now fits the cap.
- `calculate_throughput` sums the dictionary's values.
- `calculate_fairness` is meant to average, over users, the user's holding divided by its
  demand.

The model has three layers:

- **Rules on values.** The rules are pure functions on values, in modules `Policy` and
  `Passes`. They cover the constructor's map, the candidate list, `Preempt`, the three
  steps of a turn, `Turn`, a prefix of the pass (`Prefix`) and a whole call (`Pass`).
- **Properties.** Modules `PolicyProperties`, `Passes` and `Metrics` state what the rules
  guarantee, as lemmas and as contracts. These include requester immunity, the grant rule,
  the per-user cap, holdings in whole demands, the accounting of holdings by streaks, the
  flag lifecycle, and the two metrics.
- **Objects.** In module `Scheduling`, the class `User` has the two mutable fields. The
  class `LteScheduler` has the map as a field and mutating methods for `preempt_if_needed`
  and `allocate_resources`. Each method is proved to leave the objects in the state the value
  rules give (`Current() == Preempt(...)`, `Current() == Pass(...)`). The loop of
  `allocate_resources` carries the invariant `Current() == Prefix(..., i)`.

The one random draw, `random.choice` over the candidates, becomes a caller-supplied index.
`preempt_if_needed` takes it as `pick`. `allocate_resources` takes `picks`, one index per user.
An index must point into the candidate list whenever that list is non-empty.

Module `Scenario` works through a run with two users of priority 3, each demanding 5 under
a cap of 8. The first pass grants both users, so throughput is 10 and fairness is 1.0. From
then on, in every pass user 0 preempts user 1 and is itself denied. User 1 then has its
streak reset and is granted again.

## Model

| member | source | states |
|---|---|---|
| Scheduling.User.constructor | priority_scheduling.py:5-11 | The fields are the arguments; `time_on_network` starts at 0 and `preempted` at false. |
| Scheduling.LteScheduler.constructor | priority_scheduling.py:14-17 | The map has one entry, 0, per user id and no other key; the ledger is well formed, within the cap when the cap is non-negative, held in whole demands, and accounted for by streaks when the users are fresh. |
| Policy.InitialAlloc | priority_scheduling.py:17 | The constructor's map has exactly the users' ids as keys, each mapped to 0. |
| Policy.IdSet | priority_scheduling.py:17 | Every user's id is in the key set of the constructor's dictionary; `IdSetMembers` proves that nothing else is. |
| PolicyProperties.InitialLedger | priority_scheduling.py:17 | The state the constructor creates is well formed, has every entry 0, is within the cap for a non-negative cap, holds whole demands (0 of each), and is accounted for by streaks when every user is fresh. |
| Policy.IdSetMembers | priority_scheduling.py:17 | An id is a key of the constructor's dictionary if and only if some user in the list has it. |
| Policy.CandidatesExact | priority_scheduling.py:21 | The candidate list holds exactly the users with the requester's priority and another id, each once, in list order. |
| Policy.Candidates | priority_scheduling.py:21 | Every candidate is a position in the user list. |
| Policy.Evict | priority_scheduling.py:24-25 | The victim's entry becomes 0 and its flag is set, its streak is kept; no other user's entry or state changes; the map's keys are unchanged. |
| Policy.Preempt | priority_scheduling.py:19-25 | Preemption keeps the state well formed: the key set of the map is unchanged. |
| PolicyProperties.PreemptScope | priority_scheduling.py:19-25 | Nothing changes when the holding plus the demand fits the cap or when no peer exists. Otherwise exactly one user changes, a peer with the same priority and another id: its entry becomes 0 and its flag is set. The requester's own entry never changes. |
| Scheduling.LteScheduler.PreemptIfNeeded | priority_scheduling.py:19-25 | The objects end in the state `Preempt` gives for the same pick, and the map keeps its keys. |
| Policy.ClearPending | priority_scheduling.py:29-31 | Clearing a pending flag touches only the states, never the map. |
| Scheduling.LteScheduler.ClearPendingOf | priority_scheduling.py:29-31 | The users end as `ClearPending` gives: a flagged user has streak 0 and flag false. |
| Policy.Grant | priority_scheduling.py:34-36 | The grant step keeps the map's key set. |
| Scheduling.LteScheduler.GrantIfFits | priority_scheduling.py:34-36 | The objects end as `Grant` gives. |
| Policy.Turn | priority_scheduling.py:28-36 | A user's turn keeps the state well formed. |
| Scheduling.LteScheduler.TakeTurn | priority_scheduling.py:28-36 | The objects end as `Turn` gives for the same pick. |
| PolicyProperties.TurnOwnEffect | priority_scheduling.py:28-36 | The user's entry grows by exactly its demand, and its streak by exactly 1, if and only if its holding at the start of the turn plus its demand fits the cap; otherwise the entry is unchanged. The new streak is `(flag ? 0 : old) + (granted ? 1 : 0)` and the flag ends cleared. A turn that triggers a preemption is therefore a denial. |
| PolicyProperties.TurnOthersEffect | priority_scheduling.py:20-25 | When a turn triggers a preemption and a peer exists, exactly one peer loses its holding and is flagged and no other user changes; otherwise no user other than the one whose turn it is changes. |
| PolicyProperties.NoPeerNoPreemption | priority_scheduling.py:21-22 | Without a same-priority peer, a turn leaves every other user untouched, whatever the holding. |
| PolicyProperties.TurnKeepsCap | priority_scheduling.py:34-35 | With a non-negative cap and positive demands, a turn keeps every entry in `[0, total_resources]`. |
| PolicyProperties.TurnKeepsMultiples | priority_scheduling.py:24-35 | A turn keeps every entry a whole number of its user's demands. |
| PolicyProperties.TurnKeepsStreakAccounts | priority_scheduling.py:28-36 | A turn keeps every flagged user at 0 and every other user at streak times demand. |
| PolicyProperties.TurnFlagSource | priority_scheduling.py:25-31 | After a turn the user whose turn it was is unflagged, and any other flagged user was flagged before or is a peer of that user. |
| Passes.TurnKeepsInvariants | priority_scheduling.py:28-36 | A turn keeps the cap, the whole-demand and the streak invariants, each under its own hypothesis. |
| Passes.Prefix | priority_scheduling.py:28-36 | After the first `k` turns, the cap, whole-demand and streak invariants hold if they held at the start, and a flagged user among those `k` has a same-priority peer with another id after it among them. |
| Passes.Pass | priority_scheduling.py:27-36 | One call keeps the map's key set and the three invariants, and when it returns every flagged user has a same-priority peer with another id later in the list. |
| Scheduling.LteScheduler.TakeAllTurns | priority_scheduling.py:28-36 | The loop over the users leaves the objects as `Pass` gives. |
| Scheduling.LteScheduler.TakeTurnOfPass | priority_scheduling.py:28-36 | The turn of user `i` within a pass takes the objects from the state of the first `i` turns (`Prefix`) to the state of the first `i + 1`. |
| Scheduling.LteScheduler.AllocateResources | priority_scheduling.py:27-36 | The objects end as `Pass` gives; the keys of the map are unchanged; the cap, whole-demand and streak invariants are kept. |
| Metrics.Throughput | priority_scheduling.py:39 | The sum of the users' entries, user by user, is non-negative when every entry is; `ThroughputIsMapSum` proves it equals `sum(resources_allocated.values())`. |
| Metrics.ThroughputBounds | priority_scheduling.py:39 | The sum of entries that each lie in `[0, total]` lies in `[0, total × users]`. |
| Metrics.CapBoundsThroughput | priority_scheduling.py:38-40 | Under the per-user cap, throughput lies in `[0, total_resources × number of users]`. |
| Metrics.ThroughputAfterWrite | priority_scheduling.py:39 | Writing one user's entry moves the throughput by exactly the change of that entry. |
| Metrics.ThroughputUnaffected | priority_scheduling.py:39 | Writing the entry of an id that is not among the users leaves their throughput unchanged. |
| Metrics.TurnThroughput | priority_scheduling.py:19-36 | A turn whose request fits raises the throughput by the user's demand; a turn that evicts a peer lowers it by exactly what the victim held; a turn with neither leaves it unchanged. |
| Metrics.MapSum | priority_scheduling.py:39 | The sum of a dictionary's values, taken in no particular order, is non-negative when every value is; `MapSumRemove` proves that any key may be taken first. |
| Metrics.MapSumRemove | priority_scheduling.py:39 | The sum of a dictionary's values does not depend on the order in which keys are taken. |
| Metrics.ThroughputAgrees | priority_scheduling.py:39 | Throughput depends only on the entries of the listed users. |
| Metrics.ThroughputIsMapSum | priority_scheduling.py:39 | Summing the entries user by user equals `sum(resources_allocated.values())` when the keys are exactly the unique ids. |
| Scheduling.LteScheduler.CalculateThroughput | priority_scheduling.py:38-40 | The result is the sum of the map's values; under the cap it lies in `[0, total_resources × number of users]`. |
| Metrics.Ratio | priority_scheduling.py:43 | A user's ratio times its demand gives back its holding; it is non-negative for a non-negative holding and a positive demand. |
| Metrics.RatioSum | priority_scheduling.py:43-44 | The sum of the users' ratios is non-negative when every holding is non-negative and every demand positive. |
| Metrics.Fairness | priority_scheduling.py:42-45 | Fairness is an error exactly when it cannot be computed: `EmptyUserSet` if and only if there are no users, `InvalidDemand` if and only if there are users and one has demand 0; otherwise a value. |
| Metrics.RatioBounds | priority_scheduling.py:43 | Under the cap, each ratio lies in `[0, total_resources / demand]`, so in `[0, total_resources]`. |
| Metrics.RatioSumBounds | priority_scheduling.py:43-44 | Under the cap and with positive demands, the sum of ratios lies in `[0, total × users]`. |
| Metrics.FairnessBounds | priority_scheduling.py:42-45 | With a non-negative cap, positive demands, at least one user and the cap invariant, fairness is defined and lies in `[0, total_resources]`. |
| Metrics.CapBoundsFairness | priority_scheduling.py:42-45 | The same bound, stated as an implication for any map with an entry per user. |
| Metrics.RatioSumIsStreaks | priority_scheduling.py:43 | When holdings are accounted for by streaks, the sum of ratios is the sum of the unflagged users' streaks. |
| Metrics.FairnessIsMeanStreak | priority_scheduling.py:42-45 | Under streak accounting, fairness is the mean over all users of the unflagged users' streaks. |
| Scheduling.LteScheduler.CalculateFairness | priority_scheduling.py:42-45 | `EmptyUserSet` if and only if there are no users; `InvalidDemand` when a demand is 0; defined and within `[0, total_resources]` under the cap with positive demands. |
| Metrics.FairnessAsWritten | priority_scheduling.py:43 | The comprehension as written always fails: on an empty map with the division by zero, on any other map with the attribute lookup on an integer key. |
| Metrics.FairnessAsWrittenFailsOneUser | priority_scheduling.py:43-44 | For one user with a positive demand the intended fairness is its holding over its demand, while the code as written fails. |
| Scenario.Start | priority_scheduling.py:17 | For the two-user scenario, the constructor's map is `{0: 0, 1: 0}` and the picks are valid. |
| Scenario.FirstPass | priority_scheduling.py:27-36 | The first pass from the constructor's state grants both users once: `{0: 5, 1: 5}`, both at streak 1. |
| Scenario.SecondPass | priority_scheduling.py:19-36 | In the second pass user 0 preempts user 1 and is denied; user 1 is reset and granted; the ledger ends as it began. |
| Scenario.GrantedMetrics | priority_scheduling.py:38-45 | In that state, throughput is 10, above the cap of 8 because the cap is per user, and fairness is 1.0. |

## Left out

- `simulate` (priority_scheduling.py:47-76): it builds a random population, loops 100 times and plots with matplotlib. That is I/O and drawing. Its call `allocate_resources(users)` at line 58 passes an argument to a method that takes none.
- `random.choice` (priority_scheduling.py:23) is not modelled. The caller supplies the index (`pick`, `picks`), which must point into a non-empty candidate list. The proofs hold for every such choice.
- `max_time` (priority_scheduling.py:9) is stored in `User` but no operation reads it, so nothing is proved about it.
- Fairness is computed over reals, not IEEE floating point.
- Duplicate ids: the constructor requires unique ids. With duplicates the Python dictionary would keep one entry for several users, and the ledger would no longer have one entry per user.
- Scheduling.LteScheduler.PreemptIfNeeded requires the requester's id to be a key of the map. The source raises `KeyError` otherwise. That can only happen for a user outside the list, which `allocate_resources` never passes.
- Scheduling.LteScheduler.AllocateResources requires one valid pick per user. This stands in for the random draws, since the model has no random number generator.
- Over the cap with no same-priority peer, line 34 re-checks the cap and denies the grant, so the holding stays as it was (`TurnOwnEffect`).
- A ratio can exceed 1: line 35 adds `demand` on every turn up to the cap, so a ratio can reach `total_resources / demand`. The model proves that fairness lies in `[0, total_resources]` (`FairnessBounds`).
- Scheduling.LteScheduler.CalculateFairness returns `Err(InvalidDemand)` when a demand is 0, where Python would raise `ZeroDivisionError`. The error kinds stand in for the exceptions.

## Findings

| source | as written | input that shows it | evidently intended | confidence | as-written member | corrected member |
|---|---|---|---|---|---|---|
| priority_scheduling.py:43 | The comprehension unpacks `resources_allocated.items()` into `user, allocated`. `user` is then an integer id, and `user.demand` raises `AttributeError` on the first item. An empty map instead reaches the division by `len([])` at line 44. | One user with id 0 and demand 1, so the map is `{0: 0}`. | Look up each user's demand by its id and average held/demand over the users. | not executed | Metrics.FairnessAsWrittenFailsOneUser | Metrics.FairnessBounds |
