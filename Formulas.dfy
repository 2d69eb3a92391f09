/**
 The placeholder performance relations of the compressor application: the
 single-point required power and the volumetric flow used by the multirun
 sweep. Pressures and RPM are exact reals; no unit conversion is applied,
 so both relations work on raw magnitudes in whatever units are selected.
 */
module Formulas {

  /** The fixed engine constant of the power relation. */
  const K: real := 0.001

  /** The constant of the flow relation used by the sweep. */
  const FlowScale: real := 1000.0

  /** Required power (BHP) at one operating point. Nothing is rejected:
      a discharge below the suction gives a negative power. */
  function Power(suction: real, discharge: real, rpm: real): (p: real)
    ensures discharge == suction ==> p == 0.0
    ensures rpm > 0.0 ==> (p > 0.0 <==> discharge > suction)
    ensures rpm > 0.0 ==> (p < 0.0 <==> discharge < suction)
  {
    K * (discharge - suction) * rpm
  }

  /** Volumetric flow of the sweep at one grid point; undefined for rpm = 0. */
  function Flow(suction: real, discharge: real, rpm: real): (f: real)
    requires rpm != 0.0
    ensures discharge == suction ==> f == 0.0
    ensures rpm > 0.0 ==> (f > 0.0 <==> discharge > suction)
    ensures rpm > 0.0 ==> (f < 0.0 <==> discharge < suction)
  {
    FlowScale * (discharge - suction) / rpm
  }

  /** With a positive RPM, raising the discharge pressure strictly raises the power. */
  lemma PowerIncreasesWithDischarge(suction: real, d1: real, d2: real, rpm: real)
    requires rpm > 0.0 && d1 < d2
    ensures Power(suction, d1, rpm) < Power(suction, d2, rpm)
  {
  }

  /** With a positive RPM, raising the suction pressure strictly lowers the power. */
  lemma PowerDecreasesWithSuction(s1: real, s2: real, discharge: real, rpm: real)
    requires rpm > 0.0 && s1 < s2
    ensures Power(s2, discharge, rpm) < Power(s1, discharge, rpm)
  {
  }

  /** With a positive RPM, raising the discharge pressure strictly raises the flow. */
  lemma FlowIncreasesWithDischarge(suction: real, d1: real, d2: real, rpm: real)
    requires rpm > 0.0 && d1 < d2
    ensures Flow(suction, d1, rpm) < Flow(suction, d2, rpm)
  {
    QuotientDifference(FlowScale * (d2 - suction), FlowScale * (d1 - suction), rpm);
    assert Flow(suction, d2, rpm) - Flow(suction, d1, rpm) == Flow(d1, d2, rpm);
  }

  /** With a positive RPM, raising the suction pressure strictly lowers the flow. */
  lemma FlowDecreasesWithSuction(s1: real, s2: real, discharge: real, rpm: real)
    requires rpm > 0.0 && s1 < s2
    ensures Flow(s2, discharge, rpm) < Flow(s1, discharge, rpm)
  {
    QuotientDifference(FlowScale * (discharge - s1), FlowScale * (discharge - s2), rpm);
    assert Flow(s1, discharge, rpm) - Flow(s2, discharge, rpm) == Flow(s1, s2, rpm);
  }

  /** Dividing a difference is the difference of the quotients. */
  lemma QuotientDifference(x: real, y: real, q: real)
    requires q != 0.0
    ensures x / q - y / q == (x - y) / q
  {
  }

  /** Swapping suction and discharge negates the power. */
  lemma PowerAntisymmetric(suction: real, discharge: real, rpm: real)
    ensures Power(discharge, suction, rpm) == -Power(suction, discharge, rpm)
  {
  }

  /** The power and the flow of one grid point are tied by the RPM:
      power = flow * rpm^2 / 10^6. */
  lemma PowerFromFlow(suction: real, discharge: real, rpm: real)
    requires rpm != 0.0
    ensures Power(suction, discharge, rpm) == Flow(suction, discharge, rpm) * rpm * rpm / 1000000.0
  {
  }
}
