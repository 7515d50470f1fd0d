/**
 * Properties of the conversion engine: what a concentration and a dose
 * mean, the exact formula of each unit, the gating of weight-scaled units,
 * the asymmetric concentration guard and the round trips between the two
 * directions.
 */
module Properties {
  import opened Wrappers
  import opened Units
  import opened Conversion

  // ---- Concentration ----

  /** The concentration spread over the whole volume is the whole amount, in base units. */
  lemma ConcPerMlTotal(drug: Drug)
    requires ConcPerMl(drug).Ok?
    ensures ConcPerMl(drug).value.perMl * drug.volumeMl
      == drug.amount * BaseFactor(ParseAmountUnit(drug.amountUnit))
  {
  }

  /** The concentration for each supported amount unit, and the error for every other one. */
  lemma ConcPerMlCases(drug: Drug)
    ensures drug.amountUnit == "IE" && drug.volumeMl != 0.0 ==>
      ConcPerMl(drug) == Ok(Concentration(drug.amount / drug.volumeMl, "IE/ml"))
    ensures drug.amountUnit == "mg" && drug.volumeMl != 0.0 ==>
      ConcPerMl(drug) == Ok(Concentration(drug.amount * 1000.0 / drug.volumeMl, "µg/ml"))
    ensures drug.amountUnit == "µg" && drug.volumeMl != 0.0 ==>
      ConcPerMl(drug) == Ok(Concentration(drug.amount / drug.volumeMl, "µg/ml"))
    ensures drug.amountUnit !in {"IE", "mg", "µg"} ==> ConcPerMl(drug) == Err(UnsupportedUnit)
  {
  }

  // ---- Meaning of the two dispatches ----

  /** The dose read off a delivery, taken back to base units per hour, is that delivery. */
  lemma DoseOfDeliveryMeaning(u: DoseUnit, perHour: real, weightKg: Option<real>)
    requires Convertible(u, weightKg)
    ensures DoseOfDelivery(u, perHour, weightKg).Some?
    ensures BasePerHour(u, DoseOfDelivery(u, perHour, weightKg).value, weightKg) == perHour
  {
  }

  /** The delivery asked for a dose is what the dose means in base units per hour. */
  lemma DeliveryOfDoseMeaning(u: DoseUnit, target: real, weightKg: Option<real>)
    requires Convertible(u, weightKg)
    ensures DeliveryOfDose(u, target, weightKg).Some?
    ensures DeliveryOfDose(u, target, weightKg).value == BasePerHour(u, target, weightKg)
  {
  }

  /**
   * Reading a dose off a delivery and asking for the delivery of that dose
   * gives the delivery back.
   */
  lemma DeliveryOfDoseOfDelivery(u: DoseUnit, perHour: real, weightKg: Option<real>)
    requires Convertible(u, weightKg)
    ensures DeliveryOfDose(u, DoseOfDelivery(u, perHour, weightKg).value, weightKg) == Some(perHour)
  {
    DoseOfDeliveryMeaning(u, perHour, weightKg);
    DeliveryOfDoseMeaning(u, DoseOfDelivery(u, perHour, weightKg).value, weightKg);
  }

  /**
   * Asking for the delivery of a dose and reading the dose off it gives
   * the dose back.
   */
  lemma DoseOfDeliveryOfDose(u: DoseUnit, target: real, weightKg: Option<real>)
    requires Convertible(u, weightKg)
    ensures DoseOfDelivery(u, DeliveryOfDose(u, target, weightKg).value, weightKg) == Some(target)
  {
    DeliveryOfDoseMeaning(u, target, weightKg);
    var perHour := DeliveryOfDose(u, target, weightKg).value;
    DoseOfDeliveryMeaning(u, perHour, weightKg);
    BasePerHourInjective(u, DoseOfDelivery(u, perHour, weightKg).value, target, weightKg);
  }

  // ---- The two entry points ----

  /** Once the concentration is known, DoseFromRate is DoseOfDelivery of the concentration times the rate. */
  lemma DoseFromRateByDelivery(rateMlH: real, weightKg: Option<real>, drug: Drug)
    requires ConcPerMl(drug).Ok?
    ensures DoseFromRate(rateMlH, weightKg, drug).Ok?
    ensures DoseFromRate(rateMlH, weightKg, drug).value.value.Some? ==>
      DoseFromRate(rateMlH, weightKg, drug).value.value.value
        == DoseOfDelivery(ParseDoseUnit(drug.doseUnit), ConcPerMl(drug).value.perMl * rateMlH, weightKg).value
  {
  }

  /** Once the concentration is known and positive, RateFromDose is DeliveryOfDose divided by the concentration. */
  lemma RateFromDoseByDelivery(target: real, weightKg: Option<real>, drug: Drug)
    requires ConcPerMl(drug).Ok? && ConcPerMl(drug).value.perMl > 0.0
    ensures RateFromDose(target, weightKg, drug).Ok?
    ensures var p := DeliveryOfDose(ParseDoseUnit(drug.doseUnit), target, weightKg);
      && RateFromDose(target, weightKg, drug).value.Some? == p.Some?
      && (p.Some? ==> RateFromDose(target, weightKg, drug).value.value == p.value / ConcPerMl(drug).value.perMl)
  {
  }

  /** A pump rate that delivers `perHour` base units per hour gives the dose DoseOfDelivery reads off that delivery. */
  lemma DoseAtDelivery(rateMlH: real, perHour: real, weightKg: Option<real>, drug: Drug)
    requires ConcPerMl(drug).Ok? && ConcPerMl(drug).value.perMl * rateMlH == perHour
    requires Convertible(ParseDoseUnit(drug.doseUnit), weightKg)
    ensures DoseFromRate(rateMlH, weightKg, drug).Ok?
    ensures DoseFromRate(rateMlH, weightKg, drug).value.value
      == DoseOfDelivery(ParseDoseUnit(drug.doseUnit), perHour, weightKg)
  {
    DoseFromRateByDelivery(rateMlH, weightKg, drug);
  }

  /**
   * The dose read off a pump rate means exactly what the pump delivers: read
   * as base units per hour it equals the concentration times the rate.
   */
  lemma DoseFromRateDelivers(rateMlH: real, weightKg: Option<real>, drug: Drug)
    requires ConcPerMl(drug).Ok?
    requires Convertible(ParseDoseUnit(drug.doseUnit), weightKg)
    ensures DoseFromRate(rateMlH, weightKg, drug).Ok?
    ensures DoseFromRate(rateMlH, weightKg, drug).value.value.Some?
    ensures BasePerHour(ParseDoseUnit(drug.doseUnit), DoseFromRate(rateMlH, weightKg, drug).value.value.value, weightKg)
      == ConcPerMl(drug).value.perMl * rateMlH
  {
    DoseFromRateByDelivery(rateMlH, weightKg, drug);
    DoseOfDeliveryMeaning(ParseDoseUnit(drug.doseUnit), ConcPerMl(drug).value.perMl * rateMlH, weightKg);
  }

  /**
   * The rate asked for a dose delivers exactly that dose: the rate times the
   * concentration equals the dose read as base units per hour.
   */
  lemma RateFromDoseDelivers(target: real, weightKg: Option<real>, drug: Drug)
    requires ConcPerMl(drug).Ok? && ConcPerMl(drug).value.perMl > 0.0
    requires Convertible(ParseDoseUnit(drug.doseUnit), weightKg)
    ensures RateFromDose(target, weightKg, drug).Ok?
    ensures RateFromDose(target, weightKg, drug).value.Some?
    ensures RateFromDose(target, weightKg, drug).value.value * ConcPerMl(drug).value.perMl
      == BasePerHour(ParseDoseUnit(drug.doseUnit), target, weightKg)
  {
    RateFromDoseByDelivery(target, weightKg, drug);
    DeliveryOfDoseMeaning(ParseDoseUnit(drug.doseUnit), target, weightKg);
    MultiplyBack(DeliveryOfDose(ParseDoseUnit(drug.doseUnit), target, weightKg).value, ConcPerMl(drug).value.perMl);
  }

  /**
   * For "IE/h", "µg/h" and "mg/h" the weight plays no part: the dose is the
   * concentration times the rate, divided by 1000 for "mg/h".
   */
  lemma DoseFromRateIgnoresWeight(rateMlH: real, w1: Option<real>, w2: Option<real>, drug: Drug)
    requires ParseDoseUnit(drug.doseUnit) in {IUPerH, UgPerH, MgPerH}
    requires ConcPerMl(drug).Ok?
    ensures DoseFromRate(rateMlH, w1, drug) == DoseFromRate(rateMlH, w2, drug)
    ensures DoseFromRate(rateMlH, w1, drug).value.value.Some?
    ensures DoseFromRate(rateMlH, w1, drug).value.value.value
      == (if ParseDoseUnit(drug.doseUnit) == MgPerH
              then ConcPerMl(drug).value.perMl * rateMlH / 1000.0
              else ConcPerMl(drug).value.perMl * rateMlH)
  {
  }

  /** With a positive weight, the exact formula of each unit per kg. */
  lemma DoseFromRatePerKg(rateMlH: real, w: real, drug: Drug)
    requires w > 0.0
    requires ConcPerMl(drug).Ok?
    requires PerKg(ParseDoseUnit(drug.doseUnit))
    ensures DoseFromRate(rateMlH, Some(w), drug).Ok?
    ensures DoseFromRate(rateMlH, Some(w), drug).value.value.Some?
    ensures drug.doseUnit == "µg/kg/min" ==>
      DoseFromRate(rateMlH, Some(w), drug).value.value.value
        == ConcPerMl(drug).value.perMl * rateMlH / 60.0 / w
    ensures drug.doseUnit == "µg/kg/h" ==>
      DoseFromRate(rateMlH, Some(w), drug).value.value.value
        == ConcPerMl(drug).value.perMl * rateMlH / w
    ensures drug.doseUnit == "mg/kg/h" ==>
      DoseFromRate(rateMlH, Some(w), drug).value.value.value
        == ConcPerMl(drug).value.perMl * rateMlH / 1000.0 / w
  {
  }

  /** A unit per kg without a present, positive weight gives no value in either direction. */
  lemma WeightGating(x: real, weightKg: Option<real>, drug: Drug)
    requires PerKg(ParseDoseUnit(drug.doseUnit))
    requires weightKg.None? || weightKg.value <= 0.0
    requires ConcPerMl(drug).Ok?
    ensures DoseFromRate(x, weightKg, drug) == Ok(Dose(None, drug.doseUnit))
    ensures RateFromDose(x, weightKg, drug) == Ok(None)
  {
  }

  /** A dose unit outside the six recognised tags gives no value in either direction. */
  lemma UnrecognisedDoseUnit(x: real, weightKg: Option<real>, drug: Drug)
    requires ParseDoseUnit(drug.doseUnit) == Unrecognised
    requires ConcPerMl(drug).Ok?
    ensures DoseFromRate(x, weightKg, drug) == Ok(Dose(None, drug.doseUnit))
    ensures RateFromDose(x, weightKg, drug) == Ok(None)
  {
  }

  /**
   * A concentration that is not positive gives no rate, whatever the dose
   * unit and weight; in the other direction the same preparation still
   * gives a dose (zero for an empty preparation).
   */
  lemma NonPositiveConcentration(x: real, weightKg: Option<real>, drug: Drug)
    requires ConcPerMl(drug).Ok? && ConcPerMl(drug).value.perMl <= 0.0
    ensures RateFromDose(x, weightKg, drug) == Ok(None)
    ensures Convertible(ParseDoseUnit(drug.doseUnit), weightKg) ==>
      DoseFromRate(x, weightKg, drug).value.value.Some?
    ensures drug.amount == 0.0 && Convertible(ParseDoseUnit(drug.doseUnit), weightKg) ==>
      DoseFromRate(x, weightKg, drug).value.value == Some(0.0)
  {
    if drug.amount == 0.0 && Convertible(ParseDoseUnit(drug.doseUnit), weightKg) {
      ConcPerMlTotal(drug);
      DoseFromRateDelivers(x, weightKg, drug);
    }
  }

  /**
   * Nothing keeps an activity preparation from a mass dose unit, or the
   * reverse: an "IE" preparation dosed in "mg/h" has its IE/ml read as
   * µg/ml, and a "mg" preparation dosed in "IE/h" has its µg/ml read as IE/ml.
   */
  lemma NoFamilyIsolation(rateMlH: real, weightKg: Option<real>, drug: Drug)
    requires drug.volumeMl != 0.0
    ensures drug.amountUnit == "IE" && drug.doseUnit == "mg/h" ==>
      DoseFromRate(rateMlH, weightKg, drug).Ok? &&
      DoseFromRate(rateMlH, weightKg, drug).value.value.Some? &&
      DoseFromRate(rateMlH, weightKg, drug).value.value.value
        == drug.amount / drug.volumeMl * rateMlH / 1000.0
    ensures drug.amountUnit == "mg" && drug.doseUnit == "IE/h" ==>
      DoseFromRate(rateMlH, weightKg, drug).Ok? &&
      DoseFromRate(rateMlH, weightKg, drug).value.value.Some? &&
      DoseFromRate(rateMlH, weightKg, drug).value.value.value
        == drug.amount * 1000.0 / drug.volumeMl * rateMlH
  {
  }

  // ---- Round trips ----

  /**
   * Reading the dose off a rate and asking for the rate of that dose gives
   * the rate back, whenever the concentration is positive and the dose
   * unit is convertible with this weight.
   */
  lemma RateOfDoseOfRate(rateMlH: real, weightKg: Option<real>, drug: Drug)
    requires ConcPerMl(drug).Ok? && ConcPerMl(drug).value.perMl > 0.0
    requires Convertible(ParseDoseUnit(drug.doseUnit), weightKg)
    ensures DoseFromRate(rateMlH, weightKg, drug).Ok?
    ensures DoseFromRate(rateMlH, weightKg, drug).value.value.Some?
    ensures RateFromDose(DoseFromRate(rateMlH, weightKg, drug).value.value.value, weightKg, drug).Ok?
    ensures RateFromDose(DoseFromRate(rateMlH, weightKg, drug).value.value.value, weightKg, drug).value.Some?
    ensures RateFromDose(DoseFromRate(rateMlH, weightKg, drug).value.value.value, weightKg, drug).value.value
      == rateMlH
  {
    var conc := ConcPerMl(drug).value.perMl;
    DoseFromRateDelivers(rateMlH, weightKg, drug);
    var dose := DoseFromRate(rateMlH, weightKg, drug).value.value.value;
    RateFromDoseDelivers(dose, weightKg, drug);
    CancelPositive(RateFromDose(dose, weightKg, drug).value.value, rateMlH, conc);
  }

  /**
   * Asking for the rate of a dose and reading the dose off that rate gives
   * the dose back, under the same conditions.
   */
  lemma DoseOfRateOfDose(target: real, weightKg: Option<real>, drug: Drug)
    requires ConcPerMl(drug).Ok? && ConcPerMl(drug).value.perMl > 0.0
    requires Convertible(ParseDoseUnit(drug.doseUnit), weightKg)
    ensures RateFromDose(target, weightKg, drug).Ok?
    ensures RateFromDose(target, weightKg, drug).value.Some?
    ensures DoseFromRate(RateFromDose(target, weightKg, drug).value.value, weightKg, drug).Ok?
    ensures DoseFromRate(RateFromDose(target, weightKg, drug).value.value, weightKg, drug).value.value.Some?
    ensures DoseFromRate(RateFromDose(target, weightKg, drug).value.value, weightKg, drug).value.value.value
      == target
  {
    var u := ParseDoseUnit(drug.doseUnit);
    var conc := ConcPerMl(drug).value.perMl;
    RateFromDoseByDelivery(target, weightKg, drug);
    var perHour := DeliveryOfDose(u, target, weightKg).value;
    MultiplyBack(perHour, conc);
    DoseAtDelivery(perHour / conc, perHour, weightKg, drug);
    DoseOfDeliveryOfDose(u, target, weightKg);
  }

  /** Two rates that deliver the same amount at a positive concentration are equal. */
  lemma CancelPositive(a: real, b: real, conc: real)
    requires conc > 0.0 && a * conc == conc * b
    ensures a == b
  {
  }

  /** A rate obtained by dividing by the concentration delivers the amount again. */
  lemma MultiplyBack(perHour: real, conc: real)
    requires conc > 0.0
    ensures conc * (perHour / conc) == perHour
    ensures perHour / conc * conc == perHour
  {
  }
}
