# Perfusor-Rechner 13H3: verified model of the dose-conversion engine

The Perfusor calculator converts between the rate of a syringe pump (ml/h)
and the dose of the drug it delivers, for the standard preparations of the
table 13H3 and for custom mixtures. This project models its engine in Dafny:

- `wrappers.dfy`: `Option` (Python's `None`) and `Result` (a value or a
  raised exception).
- `units.dfy`: the amount-unit tags (`"mg"`, `"µg"`, `"IE"`) and dose-unit
  tags (`"IE/h"`, `"µg/h"`, `"mg/h"`, `"µg/kg/min"`, `"µg/kg/h"`,
  `"mg/kg/h"`), classified by exact string comparison. It also defines
  `BasePerHour`, what a dose in a unit means in µg (or IE) per hour for a
  patient of a given weight. Both conversion directions are stated against
  it.
- `conversion.dfy`: `conc_per_ml`, `dose_from_rate` and `rate_from_dose`
  as functions over `real`. The unit dispatch of each direction is factored
  into `DoseOfDelivery` and `DeliveryOfDose`, which work on the amount
  delivered per hour.
- `properties.dfy`: the exact formula of each unit, the weight gating, the
  concentration guard that only one direction has, the meaning of both
  directions, and the round trips.
- `catalogue.dfy`: the fourteen standard preparations and what the engine
  computes for some of them.

The model follows the code in these points:

- A volume of 0 ml makes `conc_per_ml` raise `ZeroDivisionError`. It is
  modelled as `Err(DivisionByZero)` and is not a precondition. An
  unsupported amount unit raises first.
- Only `"mg"`, `"µg"` and `"IE"` are amount units.
- Nothing keeps activity units (IE) apart from mass units. An `"IE"`
  preparation dosed in `"mg/h"` has its IE/ml read as µg/ml.
- `dose_from_rate` does not look at the sign of the concentration. Only
  `rate_from_dose` returns no value for a concentration ≤ 0.

Numbers are `real`, so the round trips hold exactly.

## Model

| member | source | states |
|---|---|---|
| Units.ParseAmountUnit | app.py:91-101 | Which of the three amount tags a string is, by exact comparison; everything else is unsupported (its partner is `Units.AmountUnitTag`) |
| Units.AmountUnitTag | app.py:6 | The tag of each supported amount unit classifies back to that unit |
| Units.AmountUnitTagOfParse | app.py:91-101 | Every tag that classifies as a supported amount unit is exactly that unit's tag |
| Units.ParseDoseUnit | app.py:106-129 | Which of the six dose tags a string is, by exact comparison; everything else is unrecognised |
| Units.DoseUnitTag | app.py:7 | The tag of each recognised dose unit classifies back to that unit |
| Units.DoseUnitTagOfParse | app.py:106-129 | Every tag that classifies as a recognised dose unit is exactly that unit's tag |
| Units.BaseFactor | app.py:96-99 | An amount unit is a positive number of base units (1000 µg per mg, 1 per µg or IE) |
| Units.BasePerHour | app.py:104-157 | What a dose means in base units per hour (mass factor, 60 for per-minute units, the weight for per-kg units); zero exactly for a zero dose |
| Units.BasePerHourInjective | app.py:104-157 | Two doses in the same unit and at the same weight that mean the same delivery are equal |
| Conversion.ConcPerMl | app.py:88-102 | Fails with the unsupported-unit error exactly for tags other than "mg", "µg" and "IE"; fails with division by zero exactly for a supported unit at 0 ml; otherwise labels IE/ml or µg/ml by the amount unit |
| Conversion.DoseOfDelivery | app.py:106-129 | Gives a dose exactly when the unit is recognised and, for per-kg units, the weight is present and positive |
| Conversion.DeliveryOfDose | app.py:137-157 | Gives a delivery under exactly the same condition |
| Conversion.DoseFromRate | app.py:104-129 | Raises exactly what conc_per_ml raises; always returns the preparation's own dose-unit tag; gives a value exactly when the unit is recognised and has the weight it needs |
| Conversion.RateFromDose | app.py:131-157 | Raises exactly what conc_per_ml raises; gives a rate exactly when the concentration is positive and the unit is recognised with the weight it needs |
| Properties.ConcPerMlTotal | app.py:88-102 | The concentration times the volume is the whole amount in base units |
| Properties.ConcPerMlCases | app.py:88-102 | amount/volume with IE/ml for "IE", amount·1000/volume with µg/ml for "mg", amount/volume with µg/ml for "µg", the unsupported-unit error for any other tag |
| Properties.DoseOfDeliveryMeaning | app.py:106-129 | The dose read off a delivery means that delivery again in base units per hour |
| Properties.DeliveryOfDoseMeaning | app.py:137-153 | The delivery asked for a dose is what that dose means in base units per hour |
| Properties.DeliveryOfDoseOfDelivery | app.py:104-157 | The two dispatches are inverse: the delivery asked for the dose read off a delivery is that delivery |
| Properties.DoseOfDeliveryOfDose | app.py:104-157 | and the dose read off the delivery asked for a dose is that dose |
| Properties.DoseFromRateDelivers | app.py:104-129 | The dose read off a rate, taken back to base units per hour, is concentration times rate |
| Properties.RateFromDoseDelivers | app.py:131-157 | The rate asked for a dose, times the concentration, is what the dose means per hour |
| Properties.DoseFromRateIgnoresWeight | app.py:108-118 | For IE/h, µg/h and mg/h the result is the same for any two weights and is concentration·rate, divided by 1000 for mg/h |
| Properties.DoseFromRatePerKg | app.py:112-127 | With a positive weight: conc·rate/60/w for µg/kg/min, conc·rate/w for µg/kg/h, conc·rate/1000/w for mg/kg/h |
| Properties.WeightGating | app.py:119-120 | A per-kg unit with no weight or a weight ≤ 0 gives no value in both directions, and dose_from_rate still returns the unit tag |
| Properties.UnrecognisedDoseUnit | app.py:129 | A dose unit outside the six tags gives no value in both directions, whatever the weight |
| Properties.NonPositiveConcentration | app.py:131-135 | A concentration ≤ 0 gives no rate whatever the unit and weight, while dose_from_rate still gives a dose (0 for an empty preparation) |
| Properties.NoFamilyIsolation | app.py:106-118 | An "IE" preparation dosed in mg/h gives IE/ml·rate/1000, and a "mg" preparation dosed in IE/h gives µg/ml·rate: the two unit families are not checked against each other |
| Properties.RateOfDoseOfRate | app.py:104-157 | With a positive concentration and a recognised unit that has its weight: rate_from_dose(dose_from_rate(r)) is r |
| Properties.DoseOfRateOfDose | app.py:104-157 | Under the same conditions dose_from_rate(rate_from_dose(t)) is t with the preparation's unit |
| Catalogue.CatalogueWellFormed | app.py:8-79 | Every entry is 50 ml, has an amount unit among "mg", "µg", "IE" and a recognised dose unit, and has a positive concentration (so conc_per_ml never fails on table data) |
| Catalogue.NamesDistinct | app.py:8-79 | No two entries share a name |
| Catalogue.CatalogueRoundTrip | app.py:8-79 | For every entry and every weight its dose unit can use (any weight, 0 and none included, for the per-hour units; a positive one for the per-kg units), a rate survives the round trip through a dose |
| Catalogue.NoradrenalinConcentration | app.py:9-13 | Noradrenalin 10 mg/50 ml is 200 µg/ml |
| Catalogue.HeparinConcentration | app.py:64-68 | Heparin 10000 IE/50 ml is 200 IE/ml |
| Catalogue.NoradrenalinAtTwoMlPerHour | app.py:9-13 | 2 ml/h of Noradrenalin at 70 kg is 2/21 µg/kg/min |
| Catalogue.HeparinAtStartRate | app.py:64-68 | 1.75 ml/h of Heparin is the 350 IE/h start dose, whatever the weight |
| Catalogue.ClonidinAtTenMlPerHour | app.py:44-48 | 10 ml/h of Clonidin is 300 µg/h, whatever the weight |
| Catalogue.PropofolStartRate | app.py:34-38 | The 1 mg/kg/h Propofol start dose at 80 kg needs 4 ml/h |
| Catalogue.UrapidilStartRate | app.py:59-63 | The 10 mg/h Urapidil start dose needs 2 ml/h, whatever the weight |
| Catalogue.MidazolamNeedsWeight | app.py:54-58 | Midazolam in µg/kg/h gives no value in either direction without a weight |

## Left out

- The Streamlit user interface (app.py:1-3, 165-260): page layout, tabs, widgets, warnings and metrics are presentation and I/O. The weight and rate widgets' lower bounds and the custom tab's 1 ml minimum volume are not part of the engine. The engine functions accept any weight, rate and volume.
- The ml/min to ml/h conversion of the rate input (app.py:193, 249) and the ml/min display are interface code.
- `fmt` (app.py:159-162): it formats a float to two decimals for display.
- `to_float` (app.py:82-86): it wraps Python's float parsing and swallows its exceptions. The engine does not use it.
- The `start`, `max` and `note` fields of the table (app.py:8-79): only the interface uses them. It shows them (app.py:182-183, 211-220), and `start` pre-fills the target-dose input (app.py:202) whose value is then passed to `rate_from_dose` (app.py:204). The engine never reads them, and `Drug` holds the four fields it does read.
- Floating-point rounding: all arithmetic is over `real`. The round trips are exact here, while the program's floats agree only within rounding.
- Python's dynamic typing: a preparation is a record of two numbers and two strings. A missing dictionary key (`KeyError`) or a non-numeric amount cannot occur in the model.
