# Day-ahead battery dispatch: feasibility and cost model

This project models the deterministic reference model of a day-ahead
battery-storage dispatch problem (`models/ReferenceModel.py`). The source
declares a linear program. A set of storage units each has a capacity,
a maximum power, lower and upper state-of-charge fractions, and charge and
discharge efficiencies. Over a 24-hour horizon, the decision variables are
the state of charge `x[t,i]`, the charge `c[t,i]`, the discharge `d[t,i]`,
the net scheduled load `u_sch[t]` and the market-impact price `p_pm_pred[t]`.
An external solver picks the values.

The model is a schedule validator and cost evaluator. It does not optimise.

- `Horizon`: the periods 0..23 and the cyclic predecessor used by the
  state-of-charge recurrence, where hour 0 follows hour 23.
- `Parameters`: storage units and per-period series, and their declared
  domain (every parameter is a positive real).
- `Dispatch`: an assignment of values to the variables, the variable
  bounds, the constraints, and the predicate `Feasible` that combines them.
- `Dynamics`: forward simulation of the state of charge from the end-of-day
  level. The main results are:
  - every feasible assignment is the completion of its own charge and
    discharge schedule, so two feasible assignments with the same schedule
    are equal;
  - a completion is feasible exactly when the schedule is within the power
    bounds, balances over the cycle, and keeps the simulated state of charge
    within the capacity bounds;
  - an instance has a feasible point exactly when every unit's lower
    state-of-charge fraction is at most its upper one.
- `Costs`: the first- and second-stage costs and the day-ahead objective.
  Each splits into the cost of the predicted load plus the cost of the
  storage units' net flow.

Variables are indexed `[period][unit]`, matching the source's `x[t,i]`.
Pyomo's abstract unit set becomes a sequence of units. Every sum over units
in the source is order-independent, so this loses nothing. Values are Dafny
`real`, so all arithmetic is exact.

Notes on the code:

- `gradient` is declared `within=PositiveReals` (models/ReferenceModel.py:37), so `ValidParams` requires it to be > 0.
- The constraint named `initial_soc` (models/ReferenceModel.py:66-69) fixes the level at the END of period 23, not at the start of the day.
- The time set `T` is an abstract set, but the recurrence and the closure name period 23 literally. The model takes `T` to be exactly 0..23, the horizon on which these rules form a closed daily cycle. This is a modelling choice; see "## Left out".

## Model

| member | source | states |
|---|---|---|
| Parameters.ValidParams | models/ReferenceModel.py:19-37 | every per-unit parameter, every per-period series value and the gradient is a positive real, and the series cover the horizon |
| Dispatch.CapacityBounds | models/ReferenceModel.py:45-48 | every x[t,i] lies in [l_SOC[i]*capacity[i], u_SOC[i]*capacity[i]] |
| Dispatch.PowerBounds | models/ReferenceModel.py:50-55 | every c[t,i] and d[t,i] lies in [0, power[i]] |
| Dispatch.SocClosed | models/ReferenceModel.py:66-69 | x[23,i] == l_SOC[i]*capacity[i] for every unit |
| Dispatch.SocDynamics | models/ReferenceModel.py:71-78 | x[t,i] == x[prev(t),i] + efficiency_c[i]*c[t,i] - d[t,i] for every period and unit, with prev(0) == 23 |
| Dispatch.ScheduledLoad | models/ReferenceModel.py:80-84 | l_pred[t]/1000 + sum over units of (c[t,i] - efficiency_d[i]*d[t,i]) |
| Dispatch.Scheduling | models/ReferenceModel.py:80-84 | u_sch[t] equals the scheduled load of period t, for every period |
| Dispatch.ImpactPrice | models/ReferenceModel.py:86-91 | p_da_pred[t] + gradient*(l_pred[t]/1000 + the same unit aggregate) |
| Dispatch.PriceImpact | models/ReferenceModel.py:86-91 | p_pm_pred[t] equals the impact price of period t, for every period |
| Dispatch.Feasible | models/ReferenceModel.py:45-91 | parameters in their domains, every variable within its bounds, and all four constraint families satisfied |
| Costs.FirstStageCost | models/ReferenceModel.py:98-101 | the first-stage cost expression is the constant 0 |
| Costs.SecondStageCost | models/ReferenceModel.py:103-106 | sum over t of u_sch[t]*p_da_act[t] |
| Costs.DayAheadObjective | models/ReferenceModel.py:113-116 | sum over t of u_sch[t]*p_da_pred[t] |
| Horizon.Prev | models/ReferenceModel.py:71-75 | the predecessor of a period is again in 0..23 and equals (t-1) mod 24, so period 0 wraps to 23 |
| Horizon.Next | models/ReferenceModel.py:71-75 | the successor on the cyclic horizon stays in 0..23 and equals (t+1) mod 24 |
| Horizon.PrevNextInverse | models/ReferenceModel.py:71-75 | Next undoes Prev and Prev undoes Next |
| Horizon.PrevIsBijection | models/ReferenceModel.py:71-75 | Prev is injective on the horizon and every period is some period's predecessor |
| Parameters.SocIntervalNonEmpty | models/ReferenceModel.py:45-46 | for positive capacity, lSoc*capacity <= uSoc*capacity iff lSoc <= uSoc |
| Dispatch.FeasibleWithinBounds | models/ReferenceModel.py:45-55 | at a feasible point, x[t,i] is in [l_SOC*capacity, u_SOC*capacity] and c[t,i], d[t,i] are in [0, power] |
| Dispatch.FeasibleEndsAtLowerBound | models/ReferenceModel.py:66-69 | at a feasible point, x[23,i] == l_SOC[i]*capacity[i] for every unit |
| Dispatch.PriceFollowsSchedule | models/ReferenceModel.py:80-91 | with both the scheduling and price constraints, p_pm_pred[t] == p_da_pred[t] + gradient*u_sch[t] |
| Dispatch.NetFlowIdle | models/ReferenceModel.py:80-84 | with all charge and discharge zero over a prefix of the units, their aggregate c - efficiency_d*d is zero |
| Dispatch.IdleScheduledLoad | models/ReferenceModel.py:80-84 | when no unit charges or discharges in period t, the scheduling constraint gives u_sch[t] == l_pred[t]/1000 |
| Dispatch.NetFlowWithinPower | models/ReferenceModel.py:80-84 | within the power bounds, the aggregate c - efficiency_d*d is between minus the total discharge power and the total charge power |
| Dispatch.ScheduledLoadBounds | models/ReferenceModel.py:80-84 | at a feasible point, u_sch[t] is within l_pred[t]/1000 minus the total discharge power and l_pred[t]/1000 plus the total charge power |
| Dispatch.FeasibleNeedsOrderedSoc | models/ReferenceModel.py:45-48 | a feasible point exists only if l_SOC[i] <= u_SOC[i]; the source does not check this |
| Dynamics.SimulatedSoc | models/ReferenceModel.py:66-78 | forward simulation: the level at period t is the end-of-day level plus the energy stored in periods 0..t |
| Dynamics.Complete | models/ReferenceModel.py:66-91 | the assignment built from a charge and discharge schedule has that schedule and satisfies the scheduling and price constraints |
| Dynamics.LevelIsCumulative | models/ReferenceModel.py:66-78 | under the cyclic recurrence and the closure, every x[t,i] equals the forward-simulated level |
| Dynamics.FeasibleIsBalanced | models/ReferenceModel.py:66-78 | at a feasible point, each unit's sum over t of efficiency_c*c[t,i] - d[t,i] is zero |
| Dynamics.SimulationClosesIffBalanced | models/ReferenceModel.py:66-78 | the simulated levels meet the closure iff the schedule balances over the cycle, and then they also meet the recurrence |
| Dynamics.FeasibleIsComplete | models/ReferenceModel.py:45-91 | every feasible assignment equals the completion of its own charge and discharge schedule |
| Dynamics.FeasibleDeterminedByDispatch | models/ReferenceModel.py:66-91 | two feasible assignments with the same c and d are identical |
| Dynamics.CompleteFeasibleIff | models/ReferenceModel.py:45-91 | a completion is feasible iff power bounds hold, every unit balances over the cycle, and the simulated levels are within the capacity bounds |
| Dynamics.FeasibleExistsIff | models/ReferenceModel.py:45-78 | the idle schedule is feasible iff every l_SOC <= u_SOC, and any feasible point implies the same |
| Dynamics.IdleStoresNothing | models/ReferenceModel.py:71-78 | the idle schedule stores no energy in any prefix of the day |
| Costs.ScheduledCostSplits | models/ReferenceModel.py:80-84 | pricing u_sch is linear: baseline cost of l_pred/1000 plus cost of the storage net flow |
| Costs.ObjectiveSplits | models/ReferenceModel.py:113-116 | at a feasible point, the day-ahead objective is the predicted-price cost of the load plus that of the storage net flow |
| Costs.StageCostsSplit | models/ReferenceModel.py:98-106 | at a feasible point, first-stage cost (zero) plus second-stage cost is the actual-price cost of the load plus that of the storage net flow |
| Costs.IdleStorageCostsNothing | models/ReferenceModel.py:80-84 | with no charge or discharge, the storage cost is zero |
| Costs.IdleCosts | models/ReferenceModel.py:98-116 | with no storage activity, the objective is the sum over t of (l_pred[t]/1000)*p_da_pred[t], and the second-stage cost is the same with p_da_act |

## Left out

- `RunCode.py` is not part of this model. It runs the external solver through a shell command, reads its CSV output at fixed row offsets, and plots a histogram. All of that is I/O.
- The optimisation itself is not modelled. The model defines feasibility and the objective's value, not which feasible assignment the external solver returns or that it is optimal.
- Pyomo's declaration machinery and data loading from the scenario directory are not modelled. Parameters are given as a `Params` value.
- Time sets other than 0..23 are not modelled. With a longer contiguous set the source builds a model whose periods after 23 hang off period 23 outside the cycle, with no closure; a set without period 23 makes the closure rule fail when the model is built. Neither case, nor its construction error, is modelled.
- Parameter domain checks (`within=PositiveReals`) are modelled as the predicate `ValidParams`. Pyomo's error when data violates them is not modelled.
- Floating-point rounding is not modelled. The source declares an exact linear program, and the model uses `real`.
- Scenario sampling, CVaR variables and risk weighting are not modelled. None of them appears in the reference model.
- Mutual exclusion of charge and discharge, and a check that `l_SOC <= u_SOC`, are not modelled as constraints, because the source imposes neither. `FeasibleExistsIff` shows the consequence of the missing check: an instance with `l_SOC > u_SOC` has no feasible point.
