/**
 * The conversion engine of the Perfusor calculator: the concentration of a
 * preparation, and the two directions between a pump rate in ml/h and a
 * dose in the preparation's dose unit.
 *
 * All arithmetic is over `real`, so the round trips below are exact.
 */
module Conversion {
  import opened Wrappers
  import opened Units

  /**
   * A preparation: `amount` of drug in `amountUnit`, diluted to `volumeMl`
   * ml, dosed in `doseUnit`. Both units are the raw tags of the record.
   */
  datatype Drug = Drug(amount: real, amountUnit: string, volumeMl: real, doseUnit: string)

  /** The exceptions the engine can raise. */
  datatype Fault =
    | UnsupportedUnit  // an amount unit other than "mg", "µg" and "IE"
    | DivisionByZero   // a volume of exactly 0 ml

  /** A concentration per ml in a base unit, with its unit label ("µg/ml" or "IE/ml"). */
  datatype Concentration = Concentration(perMl: real, unit: string)

  /** A dose read off a pump rate: the value, if computable, and the dose unit's tag. */
  datatype Dose = Dose(value: Option<real>, unit: string)

  /**
   * The concentration of a preparation per ml, in µg/ml for mass amounts
   * and in IE/ml for activity amounts. An unsupported amount unit is
   * reported before the volume is looked at.
   */
  function ConcPerMl(drug: Drug): (r: Result<Concentration, Fault>)
    ensures r == Err(UnsupportedUnit) <==> ParseAmountUnit(drug.amountUnit) == UnsupportedAmount
    ensures r == Err(DivisionByZero) <==>
      ParseAmountUnit(drug.amountUnit) != UnsupportedAmount && drug.volumeMl == 0.0
    ensures r.Ok? ==> r.value.unit == ConcentrationLabel(ParseAmountUnit(drug.amountUnit))
  {
    var amt := drug.amount;
    var u := ParseAmountUnit(drug.amountUnit);
    var vol := drug.volumeMl;
    if u == IU then
      if vol == 0.0 then Err(DivisionByZero) else Ok(Concentration(amt / vol, "IE/ml"))
    else if u == Mg || u == Ug then
      var ug := if u == Mg then amt * 1000.0 else amt * 1.0;
      if vol == 0.0 then Err(DivisionByZero) else Ok(Concentration(ug / vol, "µg/ml"))
    else
      Err(UnsupportedUnit)
  }

  /**
   * The dose, in unit `u`, that a delivery of `perHour` base units per hour
   * amounts to: the dispatch of dose_from_rate once the concentration has
   * been multiplied by the rate. Units per kg need a present, positive
   * weight; without one, and for an unrecognised unit, there is no value.
   */
  function DoseOfDelivery(u: DoseUnit, perHour: real, weightKg: Option<real>): (d: Option<real>)
    ensures d.Some? <==> Convertible(u, weightKg)
  {
    if u == IUPerH then Some(perHour)
    else
      var ugPerMin := perHour / 60.0;
      if u == UgPerH then Some(perHour)
      else if u == MgPerH then Some(perHour / 1000.0)
      else if weightKg.None? || weightKg.value <= 0.0 then None
      else if u == UgPerKgPerMin then Some(ugPerMin / weightKg.value)
      else if u == UgPerKgPerH then Some(perHour / weightKg.value)
      else if u == MgPerKgPerH then Some((perHour / 1000.0) / weightKg.value)
      else None
  }

  /**
   * The delivery in base units per hour that a dose `target` in unit `u`
   * asks for: the dispatch of rate_from_dose before the division by the
   * concentration. Same gating as DoseOfDelivery.
   */
  function DeliveryOfDose(u: DoseUnit, target: real, weightKg: Option<real>): (p: Option<real>)
    ensures p.Some? <==> Convertible(u, weightKg)
  {
    if u == IUPerH then Some(target)
    else if u == UgPerH then Some(target)
    else if u == MgPerH then Some(target * 1000.0)
    else if weightKg.None? || weightKg.value <= 0.0 then None
    else if u == UgPerKgPerMin then Some(target * weightKg.value * 60.0)
    else if u == UgPerKgPerH then Some(target * weightKg.value)
    else if u == MgPerKgPerH then Some(target * 1000.0 * weightKg.value)
    else None
  }

  /**
   * The dose delivered at a pump rate of `rateMlH` ml/h, in the
   * preparation's dose unit, together with that unit's tag. The
   * concentration is not checked for being positive.
   */
  function DoseFromRate(rateMlH: real, weightKg: Option<real>, drug: Drug): (r: Result<Dose, Fault>)
    ensures r.Err? <==> ConcPerMl(drug).Err?
    ensures r.Err? ==> r.error == ConcPerMl(drug).error
    ensures r.Ok? ==> r.value.unit == drug.doseUnit
    ensures r.Ok? ==> (r.value.value.Some? <==> Convertible(ParseDoseUnit(drug.doseUnit), weightKg))
  {
    match ConcPerMl(drug)
    case Err(e) => Err(e)
    case Ok(c) =>
      var du := drug.doseUnit;
      Ok(Dose(DoseOfDelivery(ParseDoseUnit(du), c.perMl * rateMlH, weightKg), du))
  }

  /**
   * The pump rate in ml/h that delivers the dose `target` in the
   * preparation's dose unit. There is no value when the concentration is
   * not positive, whatever the unit and weight, and otherwise under the
   * same gating as DoseOfDelivery.
   */
  function RateFromDose(target: real, weightKg: Option<real>, drug: Drug): (r: Result<Option<real>, Fault>)
    ensures r.Err? <==> ConcPerMl(drug).Err?
    ensures r.Err? ==> r.error == ConcPerMl(drug).error
    ensures r.Ok? ==>
      (r.value.Some? <==>
        ConcPerMl(drug).value.perMl > 0.0 && Convertible(ParseDoseUnit(drug.doseUnit), weightKg))
  {
    match ConcPerMl(drug)
    case Err(e) => Err(e)
    case Ok(c) =>
      var conc := c.perMl;
      if conc <= 0.0 then Ok(None)
      else
        match DeliveryOfDose(ParseDoseUnit(drug.doseUnit), target, weightKg)
        case None => Ok(None)
        case Some(perHour) => Ok(Some(perHour / conc))
  }
}
