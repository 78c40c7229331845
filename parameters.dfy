/** The data of one model instance: the storage units and the per-period
    forecasts and prices, with the domains the model declares for them. */
module Parameters {
  import opened Horizon

  /** One storage unit: capacity (kWh), maximum power (kW), lower and upper
      state-of-charge fractions, and charge and discharge efficiencies. */
  datatype StorageUnit = StorageUnit(
    capacity: real,
    power: real,
    lSoc: real,
    uSoc: real,
    efficiencyC: real,
    efficiencyD: real)

  /** Parameters of one instance. The unit set is a sequence: every sum over
      units in the model is order-independent, so unit i is units[i].
      The per-period series are indexed by period. */
  datatype Params = Params(
    units: seq<StorageUnit>,
    lPred: seq<real>,
    pDaPred: seq<real>,
    pDaAct: seq<real>,
    gradient: real)

  /** Every per-unit parameter lies in the positive reals. */
  predicate PositiveUnit(u: StorageUnit) {
    && u.capacity > 0.0
    && u.power > 0.0
    && u.lSoc > 0.0
    && u.uSoc > 0.0
    && u.efficiencyC > 0.0
    && u.efficiencyD > 0.0
  }

  /** A series indexed by the horizon whose every value is positive. */
  predicate PositiveSeries(s: seq<real>) {
    |s| == Periods && forall t :: 0 <= t < |s| ==> s[t] > 0.0
  }

  /** The period-indexed series cover the horizon. */
  predicate SeriesShaped(p: Params) {
    |p.lPred| == Periods && |p.pDaPred| == Periods && |p.pDaAct| == Periods
  }

  /** The parameter domains: all parameters are positive reals, and the
      period-indexed series cover the horizon. */
  predicate ValidParams(p: Params) {
    && (forall i :: 0 <= i < |p.units| ==> PositiveUnit(p.units[i]))
    && PositiveSeries(p.lPred)
    && PositiveSeries(p.pDaPred)
    && PositiveSeries(p.pDaAct)
    && p.gradient > 0.0
  }

  /** Lower state-of-charge bound of a unit, which is also its end-of-day level. */
  function MinSoc(u: StorageUnit): real {
    u.lSoc * u.capacity
  }

  /** Upper state-of-charge bound of a unit. */
  function MaxSoc(u: StorageUnit): real {
    u.uSoc * u.capacity
  }

  /** For a unit with positive capacity, the state-of-charge interval is
      non-empty exactly when the lower fraction does not exceed the upper one. */
  lemma SocIntervalNonEmpty(u: StorageUnit)
    requires PositiveUnit(u)
    ensures MinSoc(u) <= MaxSoc(u) <==> u.lSoc <= u.uSoc
  {
  }
}
