/** The day-ahead horizon: the periods 0..23 and their cyclic order.

    The constraint rules of the reference model name the last period by the
    literal 23 (the end-of-day closure and the wrap of the state-of-charge
    recurrence); this model takes the time set to be exactly 0..23, the one
    horizon on which those rules form a closed daily cycle. */
module Horizon {

  /** Last period of the day; period 0 follows it cyclically. */
  const LastPeriod: int := 23

  /** Number of periods in the horizon. */
  const Periods: int := LastPeriod + 1

  predicate InHorizon(t: int) {
    0 <= t < Periods
  }

  /** The period whose end-of-period state of charge is carried into period t:
      the previous hour, and for hour 0 the last hour of the day. */
  function Prev(t: int): (s: int)
    requires InHorizon(t)
    ensures InHorizon(s)
    ensures s == (t - 1) % Periods
  {
    if t == 0 then LastPeriod else t - 1
  }

  /** The period that follows t on the cyclic horizon. */
  function Next(t: int): (s: int)
    requires InHorizon(t)
    ensures InHorizon(s)
    ensures s == (t + 1) % Periods
  {
    if t == LastPeriod then 0 else t + 1
  }

  /** Next undoes Prev and Prev undoes Next. */
  lemma PrevNextInverse(t: int)
    requires InHorizon(t)
    ensures Prev(Next(t)) == t
    ensures Next(Prev(t)) == t
  {
  }

  /** Prev is a bijection of the horizon onto itself: no two periods share a
      predecessor and every period is the predecessor of some period. */
  lemma PrevIsBijection()
    ensures forall t1, t2 :: InHorizon(t1) && InHorizon(t2) && Prev(t1) == Prev(t2) ==> t1 == t2
    ensures forall s :: InHorizon(s) ==> exists t :: InHorizon(t) && Prev(t) == s
  {
    forall t1, t2 | InHorizon(t1) && InHorizon(t2) && Prev(t1) == Prev(t2)
      ensures t1 == t2
    {
      PrevNextInverse(t1);
      PrevNextInverse(t2);
    }
    forall s | InHorizon(s)
      ensures exists t :: InHorizon(t) && Prev(t) == s
    {
      PrevNextInverse(s);
      assert InHorizon(Next(s)) && Prev(Next(s)) == s;
    }
  }
}
