/** Readings and the per-utility consumption rule (main.py:605-673). */
module Consumption {
  import opened Wrappers

  /** The four metered utilities, in the order their sections appear in a registry. */
  datatype Utility = Electricity | Water | Wastewater | Gas

  const Utilities: seq<Utility> := [Electricity, Water, Wastewater, Gas]

  /** One monthly record of cumulative meter values; `None` is a NULL column
      ("not recorded"), which is distinct from a recorded zero. */
  datatype Reading = Reading(
    electricity: Option<real>,
    water: Option<real>,
    wastewater: Option<real>,
    gas: Option<real>)

  function Field(r: Reading, u: Utility): Option<real> {
    match u
    case Electricity => r.electricity
    case Water => r.water
    case Wastewater => r.wastewater
    case Gas => r.gas
  }

  /** The previous-period value of a utility: absent when there is no record
      for that period or its column is NULL. The ensures spell out the two
      cases for the proofs about `Report.Sections`. */
  function PreviousField(previous: Option<Reading>, u: Utility): (v: Option<real>)
    ensures previous.None? ==> v.None?
    ensures previous.Some? ==> v == Field(previous.value, u)
  {
    match previous
    case None => None
    case Some(r) => Field(r, u)
  }

  /** The baseline assumed when there is no previous value. */
  const ZeroBaseline: real := 0.0

  /** A computed consumption for one utility: the start and end readings,
      their difference, the multiplier and the multiplied difference. */
  datatype Delta = Delta(
    previous: real,
    current: real,
    consumption: real,
    multiplier: real,
    adjusted: real)

  /** The consumption of one utility, or `None` when its current reading is
      absent (the utility is then omitted from the registry). A missing
      previous value counts as zero; negative differences are kept. */
  function ComputeDelta(current: Option<real>, previous: Option<real>, multiplier: real): (d: Option<Delta>)
    ensures d.Some? <==> current.Some?
    ensures d.Some? ==> d.value.current == current.value
    ensures d.Some? ==> d.value.previous + d.value.consumption == d.value.current
    ensures d.Some? && previous.Some? ==> d.value.previous == previous.value
    ensures d.Some? && previous.None? ==> d.value.previous == 0.0
    ensures d.Some? ==> d.value.multiplier == multiplier
    ensures d.Some? ==> d.value.adjusted == d.value.consumption * multiplier
  {
    match current
    case None => None
    case Some(c) =>
      var p := previous.GetOr(ZeroBaseline);
      Some(Delta(p, c, c - p, multiplier, (c - p) * multiplier))
  }

  /** The transformation ratio in force: a missing or zero ratio is treated
      as 1, any other value (negative included) is used as stored. */
  function EffectiveRatio(ratio: Option<real>): (k: real)
    ensures k != 0.0
    ensures ratio.None? ==> k == 1.0
    ensures ratio.Some? && ratio.value == 0.0 ==> k == 1.0
    ensures ratio.Some? && ratio.value != 0.0 ==> k == ratio.value
  {
    match ratio
    case Some(r) => if r != 0.0 then r else 1.0
    case None => 1.0
  }

  /** Only electricity is multiplied by the transformation ratio. The ensures
      spell out the two cases for the proofs about `Report.Sections`. */
  function Multiplier(u: Utility, ratio: Option<real>): (k: real)
    ensures u != Electricity ==> k == 1.0
    ensures u == Electricity ==> k == EffectiveRatio(ratio)
  {
    if u == Electricity then EffectiveRatio(ratio) else 1.0
  }

  /** Whether a utility is reported is decided by its current reading
      alone, whatever the previous period holds. */
  lemma ApplicableIgnoresPrevious(current: Option<real>, p1: Option<real>, p2: Option<real>, k: real)
    ensures ComputeDelta(current, p1, k).Some? == ComputeDelta(current, p2, k).Some?
    ensures current.None? ==> ComputeDelta(current, p1, k) == None
  {
  }

  /** Without a previous value the whole cumulative reading is consumption. */
  lemma ZeroBaselineConsumption(c: real, k: real)
    ensures ComputeDelta(Some(c), None, k) == Some(Delta(0.0, c, c, k, c * k))
  {
    var d := ComputeDelta(Some(c), None, k).value;
    assert d.previous == 0.0 && d.consumption == c;
    assert d.adjusted == c * k;
    assert d == Delta(0.0, c, c, k, c * k);
  }

  /** A reading below the previous one yields a negative consumption; nothing is clamped. */
  lemma NegativeDeltaPassesThrough(c: real, p: real, k: real)
    requires c < p
    ensures ComputeDelta(Some(c), Some(p), k).value.consumption == c - p
    ensures ComputeDelta(Some(c), Some(p), k).value.consumption < 0.0
  {
  }

  /** With ratio 1 (including a missing or zero stored ratio) the adjusted
      consumption is the plain consumption; for every utility other than
      electricity it always is. */
  lemma UnitRatioLeavesConsumption(u: Utility, ratio: Option<real>, c: Option<real>, p: Option<real>)
    requires u != Electricity || ratio.None? || ratio.value == 0.0 || ratio.value == 1.0
    requires c.Some?
    ensures ComputeDelta(c, p, Multiplier(u, ratio)).value.adjusted
         == ComputeDelta(c, p, Multiplier(u, ratio)).value.consumption
  {
  }
}
