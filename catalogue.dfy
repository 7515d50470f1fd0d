/**
 * The standard preparations of the Perfusor table 13H3: each one's name,
 * amount, amount unit, volume and dose unit, and what the engine computes
 * for them.
 */
module Catalogue {
  import opened Wrappers
  import opened Units
  import opened Conversion
  import opened Properties

  /** A named preparation of the table. */
  datatype Entry = Entry(name: string, drug: Drug)

  const Noradrenalin := Drug(10.0, "mg", 50.0, "µg/kg/min")
  const Adrenalin := Drug(10.0, "mg", 50.0, "µg/kg/min")
  const Dobutamin := Drug(500.0, "mg", 50.0, "µg/kg/min")
  const Remifentanil5 := Drug(5.0, "mg", 50.0, "µg/kg/min")
  const Remifentanil10 := Drug(10.0, "mg", 50.0, "µg/kg/min")
  const Propofol := Drug(1000.0, "mg", 50.0, "mg/kg/h")
  const Esketamin := Drug(1250.0, "mg", 50.0, "mg/kg/h")
  const Clonidin := Drug(1.5, "mg", 50.0, "µg/h")
  const Dexmedetomidin := Drug(1000.0, "µg", 50.0, "µg/kg/h")
  const Midazolam := Drug(250.0, "mg", 50.0, "µg/kg/h")
  const Urapidil := Drug(250.0, "mg", 50.0, "mg/h")
  const Heparin := Drug(10000.0, "IE", 50.0, "IE/h")
  const Isoprenalin := Drug(1.0, "mg", 50.0, "µg/kg/min")
  const Landiolol := Drug(300.0, "mg", 50.0, "µg/kg/min")

  /** The table, in the order the calculator shows it. */
  const Drugs: seq<Entry> := [
    Entry("Noradrenalin (Arterenol)", Noradrenalin),
    Entry("Adrenalin (Suprarenin)", Adrenalin),
    Entry("Dobutamin (Dobutrex)", Dobutamin),
    Entry("Remifentanil (Ultiva) 5 mg/50 ml", Remifentanil5),
    Entry("Remifentanil (Ultiva) 10 mg/50 ml", Remifentanil10),
    Entry("Propofol", Propofol),
    Entry("Esketamin (Ketanest S)", Esketamin),
    Entry("Clonidin (Catapresan)", Clonidin),
    Entry("Dexmedetomidin (Dexdor)", Dexmedetomidin),
    Entry("Midazolam (Dormicum)", Midazolam),
    Entry("Urapidil (Ebrantil)", Urapidil),
    Entry("Heparin", Heparin),
    Entry("Isoprenalin (Isuprel)", Isoprenalin),
    Entry("Landiolol (Rapibloc)", Landiolol)
  ]

  /**
   * Every preparation of the table is 50 ml of a supported amount unit with
   * a recognised dose unit, so its concentration never fails and is positive.
   */
  lemma CatalogueWellFormed(i: nat)
    requires i < |Drugs|
    ensures Drugs[i].drug.volumeMl == 50.0
    ensures Drugs[i].drug.amountUnit in {"mg", "µg", "IE"}
    ensures ParseDoseUnit(Drugs[i].drug.doseUnit) != Unrecognised
    ensures ConcPerMl(Drugs[i].drug).Ok?
    ensures ConcPerMl(Drugs[i].drug).value.perMl > 0.0
  {
    ConcPerMlCases(Drugs[i].drug);
  }

  /** The table has no two entries under the same name. */
  lemma NamesDistinct(i: nat, j: nat)
    requires i < j < |Drugs|
    ensures Drugs[i].name != Drugs[j].name
  {
  }

  /**
   * For every preparation of the table and every weight its dose unit can
   * use (any weight, missing or 0 included, for the units per hour; a
   * positive one for the units per kg), the rate asked for the dose read
   * off a rate is that rate.
   */
  lemma CatalogueRoundTrip(i: nat, rateMlH: real, weightKg: Option<real>)
    requires i < |Drugs|
    requires Convertible(ParseDoseUnit(Drugs[i].drug.doseUnit), weightKg)
    ensures DoseFromRate(rateMlH, weightKg, Drugs[i].drug).Ok?
    ensures DoseFromRate(rateMlH, weightKg, Drugs[i].drug).value.value.Some?
    ensures RateFromDose(DoseFromRate(rateMlH, weightKg, Drugs[i].drug).value.value.value,
                         weightKg, Drugs[i].drug) == Ok(Some(rateMlH))
  {
    CatalogueWellFormed(i);
    RateOfDoseOfRate(rateMlH, weightKg, Drugs[i].drug);
  }

  /** Noradrenalin 10 mg in 50 ml is 200 µg/ml. */
  lemma NoradrenalinConcentration()
    ensures ConcPerMl(Noradrenalin) == Ok(Concentration(200.0, "µg/ml"))
  {
  }

  /** Heparin 10000 IE in 50 ml is 200 IE/ml. */
  lemma HeparinConcentration()
    ensures ConcPerMl(Heparin) == Ok(Concentration(200.0, "IE/ml"))
  {
  }

  /** Noradrenalin at 2 ml/h for a 70 kg patient: 400 µg/h, that is 2/21 µg/kg/min. */
  lemma NoradrenalinAtTwoMlPerHour()
    ensures DoseFromRate(2.0, Some(70.0), Noradrenalin) == Ok(Dose(Some(2.0 / 21.0), "µg/kg/min"))
  {
  }

  /** Heparin at 1.75 ml/h delivers 350 IE/h, whatever the weight. */
  lemma HeparinAtStartRate(weightKg: Option<real>)
    ensures DoseFromRate(1.75, weightKg, Heparin) == Ok(Dose(Some(350.0), "IE/h"))
  {
  }

  /** Clonidin 1.5 mg in 50 ml at 10 ml/h delivers 300 µg/h, whatever the weight. */
  lemma ClonidinAtTenMlPerHour(weightKg: Option<real>)
    ensures DoseFromRate(10.0, weightKg, Clonidin) == Ok(Dose(Some(300.0), "µg/h"))
  {
  }

  /** Propofol at 1 mg/kg/h for an 80 kg patient needs 4 ml/h. */
  lemma PropofolStartRate()
    ensures RateFromDose(1.0, Some(80.0), Propofol) == Ok(Some(4.0))
  {
  }

  /** Urapidil at 10 mg/h needs 2 ml/h, whatever the weight. */
  lemma UrapidilStartRate(weightKg: Option<real>)
    ensures RateFromDose(10.0, weightKg, Urapidil) == Ok(Some(2.0))
  {
  }

  /** Midazolam dosed per kg with no weight entered gives no value in either direction. */
  lemma MidazolamNeedsWeight(x: real)
    ensures DoseFromRate(x, None, Midazolam) == Ok(Dose(None, "µg/kg/h"))
    ensures RateFromDose(x, None, Midazolam) == Ok(None)
  {
  }
}
