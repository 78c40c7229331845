/** The decision variables of the model, their bounds, and the constraints
    that decide whether an assignment of values to them is feasible. */
module Dispatch {
  import opened Horizon
  import opened Parameters

  /** One value for every decision variable. x, c and d are indexed
      [period][unit] (state of charge, charge and discharge); uSch and pPmPred
      are indexed by period (net scheduled load and market-impact price). */
  datatype Assignment = Assignment(
    x: seq<seq<real>>,
    c: seq<seq<real>>,
    d: seq<seq<real>>,
    uSch: seq<real>,
    pPmPred: seq<real>)

  /** A [period][unit] table covering the horizon and the n units. */
  predicate Table(v: seq<seq<real>>, n: int) {
    |v| == Periods && forall t :: 0 <= t < |v| ==> |v[t]| == n
  }

  /** Charge and discharge tables of the right dimensions. */
  predicate DispatchShaped(p: Params, c: seq<seq<real>>, d: seq<seq<real>>) {
    Table(c, |p.units|) && Table(d, |p.units|)
  }

  /** Every variable of the assignment has a value. */
  predicate Shaped(p: Params, a: Assignment) {
    && Table(a.x, |p.units|)
    && DispatchShaped(p, a.c, a.d)
    && |a.uSch| == Periods
    && |a.pPmPred| == Periods
  }

  /** Power bounds: every charge and discharge value lies in [0, power]. */
  predicate PowerBounds(p: Params, c: seq<seq<real>>, d: seq<seq<real>>)
    requires DispatchShaped(p, c, d)
  {
    forall t, i :: 0 <= t < Periods && 0 <= i < |p.units| ==>
      0.0 <= c[t][i] <= p.units[i].power && 0.0 <= d[t][i] <= p.units[i].power
  }

  /** Capacity bounds: every state of charge lies in [lSoc*capacity, uSoc*capacity]. */
  predicate CapacityBounds(p: Params, x: seq<seq<real>>)
    requires Table(x, |p.units|)
  {
    forall t, i :: 0 <= t < Periods && 0 <= i < |p.units| ==>
      MinSoc(p.units[i]) <= x[t][i] <= MaxSoc(p.units[i])
  }

  /** End-of-day closure: every unit ends period 23 at its lower bound. */
  predicate SocClosed(p: Params, x: seq<seq<real>>)
    requires Table(x, |p.units|)
  {
    forall i :: 0 <= i < |p.units| ==> x[LastPeriod][i] == MinSoc(p.units[i])
  }

  /** Energy change of a unit in one period: charge counts with the charge
      efficiency, discharge leaves the store one to one. */
  function Stored(u: StorageUnit, c: real, d: real): real {
    u.efficiencyC * c - d
  }

  /** Cyclic state-of-charge recurrence: each period's level is its
      predecessor's level plus the energy stored in the period. */
  predicate SocDynamics(p: Params, x: seq<seq<real>>, c: seq<seq<real>>, d: seq<seq<real>>)
    requires Table(x, |p.units|) && DispatchShaped(p, c, d)
  {
    forall t, i :: 0 <= t < Periods && 0 <= i < |p.units| ==>
      x[t][i] == x[Prev(t)][i] + Stored(p.units[i], c[t][i], d[t][i])
  }

  /** Contribution of the first n units to the grid in one period: charge
      draws from the grid, discharge feeds it with the discharge efficiency. */
  function NetFlow(units: seq<StorageUnit>, c: seq<real>, d: seq<real>, n: nat): real
    requires n <= |units| && n <= |c| && n <= |d|
  {
    if n == 0 then 0.0
    else NetFlow(units, c, d, n - 1) + (c[n - 1] - units[n - 1].efficiencyD * d[n - 1])
  }

  /** Net scheduled load at the grid interface in period t: the predicted
      load divided by 1000 plus the storage units' net flow. */
  function ScheduledLoad(p: Params, c: seq<seq<real>>, d: seq<seq<real>>, t: int): real
    requires |p.lPred| == Periods && DispatchShaped(p, c, d) && InHorizon(t)
  {
    p.lPred[t] / 1000.0 + NetFlow(p.units, c[t], d[t], |p.units|)
  }

  /** Linear market impact: the predicted price shifted by gradient times
      the net scheduled load. */
  function ImpactPrice(p: Params, c: seq<seq<real>>, d: seq<seq<real>>, t: int): real
    requires |p.lPred| == Periods && |p.pDaPred| == Periods && DispatchShaped(p, c, d) && InHorizon(t)
  {
    p.pDaPred[t] + p.gradient * (p.lPred[t] / 1000.0 + NetFlow(p.units, c[t], d[t], |p.units|))
  }

  /** The scheduling constraint, one per period. */
  predicate Scheduling(p: Params, a: Assignment)
    requires SeriesShaped(p) && Shaped(p, a)
  {
    forall t :: 0 <= t < Periods ==> a.uSch[t] == ScheduledLoad(p, a.c, a.d, t)
  }

  /** The market-impact price constraint, one per period. */
  predicate PriceImpact(p: Params, a: Assignment)
    requires SeriesShaped(p) && Shaped(p, a)
  {
    forall t :: 0 <= t < Periods ==> a.pPmPred[t] == ImpactPrice(p, a.c, a.d, t)
  }

  /** A feasible point of a model instance: parameters in their domains,
      every variable within its bounds and every constraint satisfied. */
  predicate Feasible(p: Params, a: Assignment) {
    && ValidParams(p)
    && Shaped(p, a)
    && CapacityBounds(p, a.x)
    && PowerBounds(p, a.c, a.d)
    && SocClosed(p, a.x)
    && SocDynamics(p, a.x, a.c, a.d)
    && Scheduling(p, a)
    && PriceImpact(p, a)
  }

  /** At a feasible point every variable lies within its declared bounds. */
  lemma FeasibleWithinBounds(p: Params, a: Assignment, t: int, i: int)
    requires Feasible(p, a) && InHorizon(t) && 0 <= i < |p.units|
    ensures p.units[i].lSoc * p.units[i].capacity <= a.x[t][i] <= p.units[i].uSoc * p.units[i].capacity
    ensures 0.0 <= a.c[t][i] <= p.units[i].power
    ensures 0.0 <= a.d[t][i] <= p.units[i].power
  {
  }

  /** At a feasible point every unit ends the day at its lower bound. */
  lemma FeasibleEndsAtLowerBound(p: Params, a: Assignment, i: int)
    requires Feasible(p, a) && 0 <= i < |p.units|
    ensures a.x[LastPeriod][i] == p.units[i].lSoc * p.units[i].capacity
  {
  }

  /** Because the scheduling and price constraints use the same aggregate,
      any assignment meeting both prices each period at the predicted price
      plus gradient times the net scheduled load. */
  lemma PriceFollowsSchedule(p: Params, a: Assignment, t: int)
    requires SeriesShaped(p) && Shaped(p, a) && Scheduling(p, a) && PriceImpact(p, a)
    requires InHorizon(t)
    ensures a.pPmPred[t] == p.pDaPred[t] + p.gradient * a.uSch[t]
  {
  }

  /** With no charge and no discharge the storage units contribute nothing. */
  lemma {:induction false} NetFlowIdle(units: seq<StorageUnit>, c: seq<real>, d: seq<real>, n: nat)
    requires n <= |units| && n <= |c| && n <= |d|
    requires forall i :: 0 <= i < n ==> c[i] == 0.0 && d[i] == 0.0
    ensures NetFlow(units, c, d, n) == 0.0
  {
    if n > 0 {
      NetFlowIdle(units, c, d, n - 1);
    }
  }

  /** When no unit charges or discharges, the scheduling constraint sets the
      net scheduled load of every period to the predicted load divided by 1000. */
  lemma IdleScheduledLoad(p: Params, a: Assignment, t: int)
    requires SeriesShaped(p) && Shaped(p, a) && Scheduling(p, a) && InHorizon(t)
    requires forall i :: 0 <= i < |p.units| ==> a.c[t][i] == 0.0 && a.d[t][i] == 0.0
    ensures a.uSch[t] == p.lPred[t] / 1000.0
  {
    NetFlowIdle(p.units, a.c[t], a.d[t], |p.units|);
  }

  /** Total charge power of the first n units. */
  function MaxCharge(units: seq<StorageUnit>, n: nat): real
    requires n <= |units|
  {
    if n == 0 then 0.0 else MaxCharge(units, n - 1) + units[n - 1].power
  }

  /** Total grid-side discharge power of the first n units. */
  function MaxDischarge(units: seq<StorageUnit>, n: nat): real
    requires n <= |units|
  {
    if n == 0 then 0.0 else MaxDischarge(units, n - 1) + units[n - 1].efficiencyD * units[n - 1].power
  }

  /** Within the power bounds, the net flow lies between minus the total
      discharge power and the total charge power. */
  lemma {:induction false} NetFlowWithinPower(units: seq<StorageUnit>, c: seq<real>, d: seq<real>, n: nat)
    requires n <= |units| && n <= |c| && n <= |d|
    requires forall i :: 0 <= i < n ==> units[i].efficiencyD > 0.0
    requires forall i :: 0 <= i < n ==> 0.0 <= c[i] <= units[i].power && 0.0 <= d[i] <= units[i].power
    ensures -MaxDischarge(units, n) <= NetFlow(units, c, d, n) <= MaxCharge(units, n)
  {
    if n > 0 {
      NetFlowWithinPower(units, c, d, n - 1);
      var u := units[n - 1];
      assert u.efficiencyD * d[n - 1] <= u.efficiencyD * u.power;
      assert u.efficiencyD * d[n - 1] >= 0.0;
    }
  }

  /** At a feasible point the net scheduled load of every period stays within
      the predicted load minus the total discharge power and the predicted
      load plus the total charge power. */
  lemma ScheduledLoadBounds(p: Params, a: Assignment, t: int)
    requires Feasible(p, a) && InHorizon(t)
    ensures p.lPred[t] / 1000.0 - MaxDischarge(p.units, |p.units|) <= a.uSch[t]
    ensures a.uSch[t] <= p.lPred[t] / 1000.0 + MaxCharge(p.units, |p.units|)
  {
    forall i | 0 <= i < |p.units|
      ensures 0.0 <= a.c[t][i] <= p.units[i].power && 0.0 <= a.d[t][i] <= p.units[i].power
    {
      FeasibleWithinBounds(p, a, t, i);
    }
    NetFlowWithinPower(p.units, a.c[t], a.d[t], |p.units|);
  }

  /** A feasible point exists only if every unit's lower state-of-charge
      fraction does not exceed its upper one; the model does not check this. */
  lemma FeasibleNeedsOrderedSoc(p: Params, a: Assignment, i: int)
    requires Feasible(p, a) && 0 <= i < |p.units|
    ensures p.units[i].lSoc <= p.units[i].uSoc
  {
  }
}
