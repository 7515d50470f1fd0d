/**
 * The unit tags of the Perfusor calculator and what they mean.
 *
 * A preparation names its amount unit and its dose unit by strings; the
 * calculator recognises three amount units ("mg", "µg", "IE") and six dose
 * units ("IE/h", "µg/h", "mg/h", "µg/kg/min", "µg/kg/h", "mg/kg/h").
 * Every other string falls into the `Unrecognised` case.
 *
 * The base units are µg for the mass units and IE (international units)
 * for "IE"; a concentration is always expressed per ml of a base unit.
 */
module Units {
  import opened Wrappers

  /** The amount unit of a preparation, as classified from its tag. */
  datatype AmountUnit = Mg | Ug | IU | UnsupportedAmount

  /** The dose unit of a preparation, as classified from its tag. */
  datatype DoseUnit =
    | IUPerH
    | UgPerH
    | MgPerH
    | UgPerKgPerMin
    | UgPerKgPerH
    | MgPerKgPerH
    | Unrecognised

  /** Classifies an amount-unit tag by exact string comparison. */
  function ParseAmountUnit(tag: string): AmountUnit {
    match tag
    case "mg" => Mg
    case "µg" => Ug
    case "IE" => IU
    case _ => UnsupportedAmount
  }

  /** The tag of a supported amount unit. */
  function AmountUnitTag(u: AmountUnit): (tag: string)
    requires u != UnsupportedAmount
    ensures ParseAmountUnit(tag) == u
  {
    match u
    case Mg => "mg"
    case Ug => "µg"
    case IU => "IE"
  }

  /** Classifies a dose-unit tag by exact string comparison. */
  function ParseDoseUnit(tag: string): DoseUnit {
    match tag
    case "IE/h" => IUPerH
    case "µg/h" => UgPerH
    case "mg/h" => MgPerH
    case "µg/kg/min" => UgPerKgPerMin
    case "µg/kg/h" => UgPerKgPerH
    case "mg/kg/h" => MgPerKgPerH
    case _ => Unrecognised
  }

  /** The tag of a recognised dose unit. */
  function DoseUnitTag(u: DoseUnit): (tag: string)
    requires u != Unrecognised
    ensures ParseDoseUnit(tag) == u
  {
    match u
    case IUPerH => "IE/h"
    case UgPerH => "µg/h"
    case MgPerH => "mg/h"
    case UgPerKgPerMin => "µg/kg/min"
    case UgPerKgPerH => "µg/kg/h"
    case MgPerKgPerH => "mg/kg/h"
  }

  /** Parsing a tag and printing it back gives the tag again, for every recognised tag. */
  lemma DoseUnitTagOfParse(tag: string)
    requires ParseDoseUnit(tag) != Unrecognised
    ensures DoseUnitTag(ParseDoseUnit(tag)) == tag
  {
  }

  /** Parsing an amount tag and printing it back gives the tag again, for every supported tag. */
  lemma AmountUnitTagOfParse(tag: string)
    requires ParseAmountUnit(tag) != UnsupportedAmount
    ensures AmountUnitTag(ParseAmountUnit(tag)) == tag
  {
  }

  /** How many base units (µg or IE) one unit of the amount is. */
  function BaseFactor(u: AmountUnit): (f: real)
    requires u != UnsupportedAmount
    ensures f > 0.0
  {
    match u
    case Mg => 1000.0
    case Ug => 1.0
    case IU => 1.0
  }

  /** The label of the concentration computed for an amount unit. */
  function ConcentrationLabel(u: AmountUnit): string
    requires u != UnsupportedAmount
  {
    if u == IU then "IE/ml" else "µg/ml"
  }

  /** A dose unit that is expressed per kilogram of body weight. */
  predicate PerKg(u: DoseUnit) {
    u == UgPerKgPerMin || u == UgPerKgPerH || u == MgPerKgPerH
  }

  /** How many base units one unit of the dose's quantity is (mg = 1000 µg). */
  function MassScale(u: DoseUnit): real
    requires u != Unrecognised
  {
    if u == MgPerH || u == MgPerKgPerH then 1000.0 else 1.0
  }

  /** How many of the dose unit's time bases fit in one hour. */
  function TimeBasesPerHour(u: DoseUnit): real
    requires u != Unrecognised
  {
    if u == UgPerKgPerMin then 60.0 else 1.0
  }

  /** A weight the calculator accepts for per-kg units: present and positive. */
  predicate ValidWeight(weightKg: Option<real>) {
    weightKg.Some? && weightKg.value > 0.0
  }

  /** A dose unit for which a conversion is defined with this weight. */
  predicate Convertible(u: DoseUnit, weightKg: Option<real>) {
    u != Unrecognised && (PerKg(u) ==> ValidWeight(weightKg))
  }

  /**
   * The amount of base units per hour that a dose of `dose` in unit `u`
   * stands for, for a patient of the given weight. This is the meaning of a
   * dose unit; both conversion directions are stated against it.
   */
  function BasePerHour(u: DoseUnit, dose: real, weightKg: Option<real>): (b: real)
    requires Convertible(u, weightKg)
    ensures dose == 0.0 <==> b == 0.0
  {
    var perPatient := if PerKg(u) then weightKg.value else 1.0;
    dose * MassScale(u) * TimeBasesPerHour(u) * perPatient
  }

  /** Different doses stand for different amounts per hour: a dose is determined by its meaning. */
  lemma BasePerHourInjective(u: DoseUnit, a: real, b: real, weightKg: Option<real>)
    requires Convertible(u, weightKg)
    requires BasePerHour(u, a, weightKg) == BasePerHour(u, b, weightKg)
    ensures a == b
  {
  }
}
