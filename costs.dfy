/** Stage costs and the day-ahead objective of the model, and how they split
    into the cost of the predicted load and the cost of storage activity. */
module Costs {
  import opened Horizon
  import opened Parameters
  import opened Dispatch
  import opened Dynamics

  /** Sum of q[t] * price[t] over periods 0..n-1. */
  function WeightedSum(q: seq<real>, price: seq<real>, n: nat): real
    requires n <= |q| && n <= |price|
  {
    if n == 0 then 0.0 else WeightedSum(q, price, n - 1) + q[n - 1] * price[n - 1]
  }

  /** First-stage cost: the day-ahead decisions carry no cost of their own. */
  function FirstStageCost(p: Params, a: Assignment): real {
    0.0
  }

  /** Second-stage cost: the net scheduled load settled at the actual price. */
  function SecondStageCost(p: Params, a: Assignment): real
    requires |a.uSch| == Periods && |p.pDaAct| == Periods
  {
    WeightedSum(a.uSch, p.pDaAct, Periods)
  }

  /** Day-ahead objective: the net scheduled load priced at the predicted price. */
  function DayAheadObjective(p: Params, a: Assignment): real
    requires |a.uSch| == Periods && |p.pDaPred| == Periods
  {
    WeightedSum(a.uSch, p.pDaPred, Periods)
  }

  /** Cost of the predicted load alone over periods 0..n-1. */
  function BaselineCost(p: Params, price: seq<real>, n: nat): real
    requires n <= |p.lPred| && n <= |price|
  {
    if n == 0 then 0.0 else BaselineCost(p, price, n - 1) + (p.lPred[n - 1] / 1000.0) * price[n - 1]
  }

  /** Cost of the storage units' net flow over periods 0..n-1. */
  function StorageCost(p: Params, c: seq<seq<real>>, d: seq<seq<real>>, price: seq<real>, n: nat): real
    requires DispatchShaped(p, c, d) && n <= Periods && n <= |price|
  {
    if n == 0 then 0.0
    else StorageCost(p, c, d, price, n - 1) + NetFlow(p.units, c[n - 1], d[n - 1], |p.units|) * price[n - 1]
  }

  /** Pricing the net scheduled load of an assignment meeting the scheduling
      constraint is linear: it is the baseline cost plus the storage cost. */
  lemma {:induction false} ScheduledCostSplits(p: Params, a: Assignment, price: seq<real>, n: nat)
    requires SeriesShaped(p) && Shaped(p, a) && Scheduling(p, a)
    requires |price| == Periods && n <= Periods
    ensures WeightedSum(a.uSch, price, n) == BaselineCost(p, price, n) + StorageCost(p, a.c, a.d, price, n)
  {
    if n > 0 {
      ScheduledCostSplits(p, a, price, n - 1);
      var t := n - 1;
      assert a.uSch[t] == p.lPred[t] / 1000.0 + NetFlow(p.units, a.c[t], a.d[t], |p.units|);
      assert a.uSch[t] * price[t]
        == (p.lPred[t] / 1000.0) * price[t] + NetFlow(p.units, a.c[t], a.d[t], |p.units|) * price[t];
    }
  }

  /** At a feasible point the day-ahead objective is the predicted-price cost
      of the predicted load plus that of the storage units' net flow. */
  lemma ObjectiveSplits(p: Params, a: Assignment)
    requires Feasible(p, a)
    ensures DayAheadObjective(p, a)
      == BaselineCost(p, p.pDaPred, Periods) + StorageCost(p, a.c, a.d, p.pDaPred, Periods)
  {
    ScheduledCostSplits(p, a, p.pDaPred, Periods);
  }

  /** At a feasible point the two stage costs together are the actual-price
      cost of the predicted load plus that of the storage units' net flow;
      the first stage contributes nothing. */
  lemma StageCostsSplit(p: Params, a: Assignment)
    requires Feasible(p, a)
    ensures FirstStageCost(p, a) + SecondStageCost(p, a)
      == BaselineCost(p, p.pDaAct, Periods) + StorageCost(p, a.c, a.d, p.pDaAct, Periods)
  {
    ScheduledCostSplits(p, a, p.pDaAct, Periods);
  }

  /** When no unit charges or discharges, the storage cost is zero. */
  lemma {:induction false} IdleStorageCostsNothing(p: Params, c: seq<seq<real>>, d: seq<seq<real>>, price: seq<real>, n: nat)
    requires DispatchShaped(p, c, d) && n <= Periods && n <= |price|
    requires forall t, i :: 0 <= t < Periods && 0 <= i < |p.units| ==> c[t][i] == 0.0 && d[t][i] == 0.0
    ensures StorageCost(p, c, d, price, n) == 0.0
  {
    if n > 0 {
      IdleStorageCostsNothing(p, c, d, price, n - 1);
      NetFlowIdle(p.units, c[n - 1], d[n - 1], |p.units|);
    }
  }

  /** With no storage activity, a feasible point's day-ahead objective is the
      predicted-price cost of the predicted load, and its second-stage cost is
      the actual-price cost of the predicted load. */
  lemma IdleCosts(p: Params, a: Assignment)
    requires Feasible(p, a)
    requires forall t, i :: 0 <= t < Periods && 0 <= i < |p.units| ==> a.c[t][i] == 0.0 && a.d[t][i] == 0.0
    ensures DayAheadObjective(p, a) == BaselineCost(p, p.pDaPred, Periods)
    ensures SecondStageCost(p, a) == BaselineCost(p, p.pDaAct, Periods)
  {
    ObjectiveSplits(p, a);
    StageCostsSplit(p, a);
    IdleStorageCostsNothing(p, a.c, a.d, p.pDaPred, Periods);
    IdleStorageCostsNothing(p, a.c, a.d, p.pDaAct, Periods);
  }
}
