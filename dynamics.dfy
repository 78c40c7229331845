/** The state-of-charge trajectory implied by the cyclic recurrence and the
    end-of-day closure: it is fixed by the charge and discharge schedule, and
    the energy stored over the day must balance to zero for every unit. */
module Dynamics {
  import opened Horizon
  import opened Parameters
  import opened Dispatch

  /** Energy stored by unit i over periods 0..k-1. */
  function CumStored(p: Params, c: seq<seq<real>>, d: seq<seq<real>>, i: int, k: int): real
    requires DispatchShaped(p, c, d) && 0 <= i < |p.units| && 0 <= k <= Periods
  {
    if k == 0 then 0.0 else CumStored(p, c, d, i, k - 1) + Stored(p.units[i], c[k - 1][i], d[k - 1][i])
  }

  /** Every unit stores as much energy over the day as it releases. */
  predicate CycleBalanced(p: Params, c: seq<seq<real>>, d: seq<seq<real>>)
    requires DispatchShaped(p, c, d)
  {
    forall i :: 0 <= i < |p.units| ==> CumStored(p, c, d, i, Periods) == 0.0
  }

  /** Forward simulation from the end-of-day level: the state of charge of
      unit i at the end of period t. */
  function SimulatedLevel(p: Params, c: seq<seq<real>>, d: seq<seq<real>>, t: int, i: int): real
    requires DispatchShaped(p, c, d) && InHorizon(t) && 0 <= i < |p.units|
  {
    MinSoc(p.units[i]) + CumStored(p, c, d, i, t + 1)
  }

  /** The simulated state-of-charge table. */
  function SimulatedSoc(p: Params, c: seq<seq<real>>, d: seq<seq<real>>): (x: seq<seq<real>>)
    requires DispatchShaped(p, c, d)
    ensures Table(x, |p.units|)
    ensures forall t, i :: 0 <= t < Periods && 0 <= i < |p.units| ==> x[t][i] == SimulatedLevel(p, c, d, t, i)
  {
    seq(Periods, t requires 0 <= t < Periods =>
      seq(|p.units|, i requires 0 <= i < |p.units| => SimulatedLevel(p, c, d, t, i)))
  }

  /** The assignment a charge and discharge schedule determines: simulated
      state of charge, and net load and impact price from their formulas. */
  function Complete(p: Params, c: seq<seq<real>>, d: seq<seq<real>>): (a: Assignment)
    requires SeriesShaped(p) && DispatchShaped(p, c, d)
    ensures Shaped(p, a) && a.c == c && a.d == d
    ensures Scheduling(p, a) && PriceImpact(p, a)
  {
    Assignment(
      SimulatedSoc(p, c, d),
      c,
      d,
      seq(Periods, t requires 0 <= t < Periods => ScheduledLoad(p, c, d, t)),
      seq(Periods, t requires 0 <= t < Periods => ImpactPrice(p, c, d, t)))
  }

  /** Under the recurrence and the closure, the level of unit i at the end of
      period k is its end-of-day level plus what it stored in periods 0..k. */
  lemma {:induction false} LevelIsCumulative(p: Params, a: Assignment, i: int, k: int)
    requires Shaped(p, a) && SocClosed(p, a.x) && SocDynamics(p, a.x, a.c, a.d)
    requires 0 <= i < |p.units| && InHorizon(k)
    ensures a.x[k][i] == SimulatedLevel(p, a.c, a.d, k, i)
  {
    var u := p.units[i];
    assert a.x[k][i] == a.x[Prev(k)][i] + Stored(u, a.c[k][i], a.d[k][i]);
    assert CumStored(p, a.c, a.d, i, k + 1) == CumStored(p, a.c, a.d, i, k) + Stored(u, a.c[k][i], a.d[k][i]);
    if k > 0 {
      LevelIsCumulative(p, a, i, k - 1);
    } else {
      assert a.x[LastPeriod][i] == MinSoc(u);
    }
  }

  /** Summing the recurrence over the cycle: at a feasible point every unit's
      charge, weighted by its efficiency, equals its discharge over the day. */
  lemma FeasibleIsBalanced(p: Params, a: Assignment)
    requires Feasible(p, a)
    ensures CycleBalanced(p, a.c, a.d)
  {
    forall i | 0 <= i < |p.units|
      ensures CumStored(p, a.c, a.d, i, Periods) == 0.0
    {
      LevelIsCumulative(p, a, i, LastPeriod);
    }
  }

  /** The simulated table satisfies the recurrence and the closure exactly
      when the schedule balances over the cycle. */
  lemma SimulationClosesIffBalanced(p: Params, c: seq<seq<real>>, d: seq<seq<real>>)
    requires DispatchShaped(p, c, d)
    ensures CycleBalanced(p, c, d) <==> SocClosed(p, SimulatedSoc(p, c, d))
    ensures CycleBalanced(p, c, d) ==> SocDynamics(p, SimulatedSoc(p, c, d), c, d)
  {
    var x := SimulatedSoc(p, c, d);
    if CycleBalanced(p, c, d) {
      forall t, i | 0 <= t < Periods && 0 <= i < |p.units|
        ensures x[t][i] == x[Prev(t)][i] + Stored(p.units[i], c[t][i], d[t][i])
      {
        assert CumStored(p, c, d, i, t + 1) == CumStored(p, c, d, i, t) + Stored(p.units[i], c[t][i], d[t][i]);
        if t == 0 {
          assert x[Prev(t)][i] == MinSoc(p.units[i]) + CumStored(p, c, d, i, Periods);
        } else {
          assert x[Prev(t)][i] == MinSoc(p.units[i]) + CumStored(p, c, d, i, t);
        }
      }
    }
  }

  /** Every feasible assignment is the completion of its own charge and
      discharge schedule: state of charge, net load and price are all
      determined by c and d. */
  lemma FeasibleIsComplete(p: Params, a: Assignment)
    requires Feasible(p, a)
    ensures a == Complete(p, a.c, a.d)
  {
    var b := Complete(p, a.c, a.d);
    forall t | 0 <= t < Periods
      ensures a.x[t] == b.x[t]
    {
      forall i | 0 <= i < |p.units|
        ensures a.x[t][i] == b.x[t][i]
      {
        LevelIsCumulative(p, a, i, t);
      }
    }
    assert a.x == b.x;
    assert a.uSch == b.uSch;
    assert a.pPmPred == b.pPmPred;
  }

  /** Two feasible assignments with the same charge and discharge schedule
      are the same assignment. */
  lemma FeasibleDeterminedByDispatch(p: Params, a1: Assignment, a2: Assignment)
    requires Feasible(p, a1) && Feasible(p, a2)
    requires a1.c == a2.c && a1.d == a2.d
    ensures a1 == a2
  {
    FeasibleIsComplete(p, a1);
    FeasibleIsComplete(p, a2);
  }

  /** The completion of a schedule is feasible exactly when the schedule is
      within the power bounds, balances over the cycle, and its simulated
      state of charge stays within the capacity bounds. */
  lemma CompleteFeasibleIff(p: Params, c: seq<seq<real>>, d: seq<seq<real>>)
    requires ValidParams(p) && DispatchShaped(p, c, d)
    ensures Feasible(p, Complete(p, c, d)) <==>
      PowerBounds(p, c, d) && CycleBalanced(p, c, d) && CapacityBounds(p, SimulatedSoc(p, c, d))
  {
    SimulationClosesIffBalanced(p, c, d);
    if Feasible(p, Complete(p, c, d)) {
      FeasibleIsBalanced(p, Complete(p, c, d));
    }
  }

  /** The idle schedule: no unit charges or discharges. */
  function Idle(p: Params): (c: seq<seq<real>>)
    ensures Table(c, |p.units|)
    ensures forall t, i :: 0 <= t < Periods && 0 <= i < |p.units| ==> c[t][i] == 0.0
  {
    seq(Periods, t => seq(|p.units|, i => 0.0))
  }

  /** An instance has a feasible point exactly when every unit's lower
      state-of-charge fraction is at most its upper one; the idle schedule,
      which holds every unit at its lower bound, is then feasible. */
  lemma FeasibleExistsIff(p: Params)
    requires ValidParams(p)
    ensures (forall i :: 0 <= i < |p.units| ==> p.units[i].lSoc <= p.units[i].uSoc)
      <==> Feasible(p, Complete(p, Idle(p), Idle(p)))
    ensures (exists a :: Feasible(p, a)) ==> forall i :: 0 <= i < |p.units| ==> p.units[i].lSoc <= p.units[i].uSoc
  {
    var z := Idle(p);
    forall i | 0 <= i < |p.units|
      ensures CumStored(p, z, z, i, Periods) == 0.0
    {
      IdleStoresNothing(p, i, Periods);
    }
    CompleteFeasibleIff(p, z, z);
    var x := SimulatedSoc(p, z, z);
    if forall i :: 0 <= i < |p.units| ==> p.units[i].lSoc <= p.units[i].uSoc {
      forall t, i | 0 <= t < Periods && 0 <= i < |p.units|
        ensures MinSoc(p.units[i]) <= x[t][i] <= MaxSoc(p.units[i])
      {
        IdleStoresNothing(p, i, t + 1);
        SocIntervalNonEmpty(p.units[i]);
      }
    }
    if Feasible(p, Complete(p, z, z)) {
      forall i | 0 <= i < |p.units|
        ensures p.units[i].lSoc <= p.units[i].uSoc
      {
        FeasibleNeedsOrderedSoc(p, Complete(p, z, z), i);
      }
    }
    if exists a :: Feasible(p, a) {
      var a :| Feasible(p, a);
      forall i | 0 <= i < |p.units|
        ensures p.units[i].lSoc <= p.units[i].uSoc
      {
        FeasibleNeedsOrderedSoc(p, a, i);
      }
    }
  }

  /** The idle schedule stores no energy. */
  lemma {:induction false} IdleStoresNothing(p: Params, i: int, k: int)
    requires 0 <= i < |p.units| && 0 <= k <= Periods
    ensures CumStored(p, Idle(p), Idle(p), i, k) == 0.0
  {
    if k > 0 {
      IdleStoresNothing(p, i, k - 1);
    }
  }
}
