/** The CO2 estimate: specific net emission per ton of cement from a
    consolidated Clinker Factor and five plant parameters. */
module Emission {

  /** Process emission: the calcination CO2 of the clinker in a ton of cement. */
  function Co2Process(clinkerFactor: real, calcinationFactor: real): real
  {
    clinkerFactor / 100.0 * calcinationFactor * 1000.0
  }

  /** Fuel emission: thermal energy per clinker, times the fuel emission factor,
      times the fossil share of the energy, times the clinker in a ton of cement. */
  function Co2Fuel(stec: real, fuelEf: real, tsr: real, clinkerFactor: real): real
  {
    stec * fuelEf * (1.0 - tsr / 100.0) * clinkerFactor / 100.0
  }

  /** The estimate the script shows: both emissions, adjusted by the factor. */
  function Co2Total(clinkerFactor: real, stec: real, tsr: real, fuelEf: real,
                    calcinationFactor: real, factor: real): real
  {
    (Co2Process(clinkerFactor, calcinationFactor) + Co2Fuel(stec, fuelEf, tsr, clinkerFactor)) * factor
  }

  /** CO2 per ton of clinker: calcination plus the fossil part of the fuel. */
  function ClinkerIntensity(stec: real, tsr: real, fuelEf: real, calcinationFactor: real): real
  {
    calcinationFactor * 1000.0 + stec * fuelEf * (1.0 - tsr / 100.0)
  }

  /** The estimate is the clinker share of a ton of cement times the CO2 per ton
      of clinker, adjusted by the factor. */
  lemma Co2PerClinker(clinkerFactor: real, stec: real, tsr: real, fuelEf: real,
                      calcinationFactor: real, factor: real)
    ensures Co2Total(clinkerFactor, stec, tsr, fuelEf, calcinationFactor, factor)
         == clinkerFactor / 100.0 * ClinkerIntensity(stec, tsr, fuelEf, calcinationFactor) * factor
  {
    var c := clinkerFactor / 100.0;
    var fossil := stec * fuelEf * (1.0 - tsr / 100.0);
    assert Co2Process(clinkerFactor, calcinationFactor) == c * (calcinationFactor * 1000.0);
    assert Co2Fuel(stec, fuelEf, tsr, clinkerFactor) == c * fossil;
    assert c * (calcinationFactor * 1000.0) + c * fossil == c * (calcinationFactor * 1000.0 + fossil);
  }

  /** With a non-negative CO2 per ton of clinker and a non-negative adjustment,
      a lower clinker factor never raises the estimate. */
  lemma Co2Monotone(cf1: real, cf2: real, stec: real, tsr: real, fuelEf: real,
                    calcinationFactor: real, factor: real)
    requires cf1 <= cf2
    requires ClinkerIntensity(stec, tsr, fuelEf, calcinationFactor) >= 0.0 && factor >= 0.0
    ensures Co2Total(cf1, stec, tsr, fuelEf, calcinationFactor, factor)
         <= Co2Total(cf2, stec, tsr, fuelEf, calcinationFactor, factor)
  {
    var k := ClinkerIntensity(stec, tsr, fuelEf, calcinationFactor) * factor;
    Co2PerClinker(cf1, stec, tsr, fuelEf, calcinationFactor, factor);
    Co2PerClinker(cf2, stec, tsr, fuelEf, calcinationFactor, factor);
    assert k >= 0.0;
    assert cf1 / 100.0 * k <= cf2 / 100.0 * k by {
      assert (cf2 / 100.0 - cf1 / 100.0) * k >= 0.0;
    }
  }

  /** The script's default parameters at a clinker factor of 80: process
      emission 424.8, fuel emission 222.700512, estimate 653.97551712. */
  lemma Co2AtDefaults()
    ensures Co2Process(80.0, 0.531) == 424.8
    ensures Co2Fuel(3340.0, 0.0958, 13.0, 80.0) == 222.700512
    ensures Co2Total(80.0, 3340.0, 13.0, 0.0958, 0.531, 1.01) == 653.97551712
  {
  }
}
