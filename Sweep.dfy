/**
 The multirun sweep: a 10-point suction grid and a 5-point discharge grid
 over the user's ranges, and, for every discharge grid value, one flow curve
 and one power curve over the suction grid.
 */
module Sweep {
  import opened Formulas
  import opened Grid

  /** Number of suction grid points. */
  const SuctionPoints: nat := 10

  /** Number of discharge grid points. */
  const DischargePoints: nat := 5

  /** The suction and discharge ranges the user enters on the multirun page. */
  datatype SweepRange = SweepRange(
    suctionMin: real, suctionMax: real,
    dischargeMin: real, dischargeMax: real)

  /** The ranges a new session starts with. */
  const DefaultRange := SweepRange(50.0, 200.0, 300.0, 600.0)

  /** What one run of the sweep hands to the two plots: the two grids and,
      per discharge grid value (in grid order), a flow curve and a power
      curve indexed by the suction grid. */
  datatype SweepResult = SweepResult(
    suction: seq<real>, discharge: seq<real>,
    flows: seq<seq<real>>, powers: seq<seq<real>>)

  /** `flows` and `powers` hold, for every discharge value i, the flow and
      power at every suction value j. */
  ghost predicate CurvesOver(suction: seq<real>, discharge: seq<real>, rpm: real,
                             flows: seq<seq<real>>, powers: seq<seq<real>>)
  {
    && rpm != 0.0
    && |flows| == |discharge| && |powers| == |discharge|
    && (forall i :: 0 <= i < |discharge| ==> |flows[i]| == |suction| && |powers[i]| == |suction|)
    && (forall i, j :: 0 <= i < |discharge| && 0 <= j < |suction| ==>
          flows[i][j] == Flow(suction[j], discharge[i], rpm) &&
          powers[i][j] == Power(suction[j], discharge[i], rpm))
  }

  /** `r` is what the sweep yields for the ranges `range` at speed `rpm`. */
  ghost predicate IsSweepOf(r: SweepResult, range: SweepRange, rpm: real)
  {
    && r.suction == Linspace(range.suctionMin, range.suctionMax, SuctionPoints)
    && r.discharge == Linspace(range.dischargeMin, range.dischargeMax, DischargePoints)
    && CurvesOver(r.suction, r.discharge, rpm, r.flows, r.powers)
  }

  /** The nested loop: for each discharge value a fresh flow list and power
      list are filled over the suction values, then kept as that value's
      curves. The power uses the same constant as the single-point
      evaluator, so each power entry is the evaluator's result there. */
  method SweepCurves(suction: seq<real>, discharge: seq<real>, rpm: real)
    returns (flows: seq<seq<real>>, powers: seq<seq<real>>)
    requires rpm != 0.0
    ensures |flows| == |discharge| && |powers| == |discharge|
    ensures forall i :: 0 <= i < |discharge| ==> |flows[i]| == |suction| && |powers[i]| == |suction|
    ensures forall i, j :: 0 <= i < |discharge| && 0 <= j < |suction| ==>
              flows[i][j] == Flow(suction[j], discharge[i], rpm) &&
              powers[i][j] == Power(suction[j], discharge[i], rpm)
  {
    flows, powers := [], [];
    for i := 0 to |discharge|
      invariant |flows| == i && |powers| == i
      invariant forall k :: 0 <= k < i ==> |flows[k]| == |suction| && |powers[k]| == |suction|
      invariant forall k, j :: 0 <= k < i && 0 <= j < |suction| ==>
                  flows[k][j] == Flow(suction[j], discharge[k], rpm) &&
                  powers[k][j] == Power(suction[j], discharge[k], rpm)
    {
      var pDischarge := discharge[i];
      var curveFlow, curvePower := [], [];
      for j := 0 to |suction|
        invariant |curveFlow| == j && |curvePower| == j
        invariant forall m :: 0 <= m < j ==>
                    curveFlow[m] == Flow(suction[m], pDischarge, rpm) &&
                    curvePower[m] == Power(suction[m], pDischarge, rpm)
      {
        var pSuction := suction[j];
        var flow := 1000.0 * (pDischarge - pSuction) / rpm;
        var power := 0.001 * (pDischarge - pSuction) * rpm;
        curveFlow := curveFlow + [flow];
        curvePower := curvePower + [power];
      }
      flows := flows + [curveFlow];
      powers := powers + [curvePower];
    }
  }

  /** The "generate graphs" action: build both grids, then sweep. */
  method GenerateGraphs(range: SweepRange, rpm: nat) returns (r: SweepResult)
    requires rpm > 0
    ensures IsSweepOf(r, range, rpm as real)
    ensures |r.suction| == SuctionPoints && |r.discharge| == DischargePoints
    ensures r.suction[0] == range.suctionMin && r.suction[SuctionPoints - 1] == range.suctionMax
    ensures r.discharge[0] == range.dischargeMin && r.discharge[DischargePoints - 1] == range.dischargeMax
    ensures |r.flows| == DischargePoints && |r.powers| == DischargePoints
    ensures forall i :: 0 <= i < DischargePoints ==>
              |r.flows[i]| == SuctionPoints && |r.powers[i]| == SuctionPoints
    ensures forall i, j :: 0 <= i < DischargePoints && 0 <= j < SuctionPoints ==>
              r.powers[i][j] == Power(r.suction[j], r.discharge[i], rpm as real)
  {
    var suctionRange := Linspace(range.suctionMin, range.suctionMax, SuctionPoints);
    var dischargeRange := Linspace(range.dischargeMin, range.dischargeMax, DischargePoints);
    LinspaceLast(range.suctionMin, range.suctionMax, SuctionPoints);
    LinspaceLast(range.dischargeMin, range.dischargeMax, DischargePoints);
    var flows, powers := SweepCurves(suctionRange, dischargeRange, rpm as real);
    r := SweepResult(suctionRange, dischargeRange, flows, powers);
  }

  /** With rpm > 0 and an increasing suction range, every curve falls
      strictly from left to right. */
  lemma CurvesFallWithSuction(r: SweepResult, range: SweepRange, rpm: real, i: nat, j: nat, j': nat)
    requires rpm > 0.0 && IsSweepOf(r, range, rpm)
    requires range.suctionMin < range.suctionMax
    requires i < DischargePoints && j < j' < SuctionPoints
    ensures r.powers[i][j'] < r.powers[i][j]
    ensures r.flows[i][j'] < r.flows[i][j]
  {
    LinspaceAscending(range.suctionMin, range.suctionMax, SuctionPoints, j, j');
    PowerDecreasesWithSuction(r.suction[j], r.suction[j'], r.discharge[i], rpm);
    FlowDecreasesWithSuction(r.suction[j], r.suction[j'], r.discharge[i], rpm);
  }

  /** With rpm > 0 and an increasing discharge range, a later curve lies
      strictly above an earlier one at every suction value. */
  lemma CurvesRiseWithDischarge(r: SweepResult, range: SweepRange, rpm: real, i: nat, i': nat, j: nat)
    requires rpm > 0.0 && IsSweepOf(r, range, rpm)
    requires range.dischargeMin < range.dischargeMax
    requires i < i' < DischargePoints && j < SuctionPoints
    ensures r.powers[i][j] < r.powers[i'][j]
    ensures r.flows[i][j] < r.flows[i'][j]
  {
    LinspaceAscending(range.dischargeMin, range.dischargeMax, DischargePoints, i, i');
    PowerIncreasesWithDischarge(r.suction[j], r.discharge[i], r.discharge[i'], rpm);
    FlowIncreasesWithDischarge(r.suction[j], r.discharge[i], r.discharge[i'], rpm);
  }

  /** With the discharge range given upside down nothing is rejected: the
      curves simply come out in decreasing discharge order. */
  lemma CurvesReversedRange(r: SweepResult, range: SweepRange, rpm: real, i: nat, i': nat, j: nat)
    requires rpm > 0.0 && IsSweepOf(r, range, rpm)
    requires range.dischargeMin > range.dischargeMax
    requires i < i' < DischargePoints && j < SuctionPoints
    ensures r.powers[i'][j] < r.powers[i][j]
  {
    LinspaceDescending(range.dischargeMin, range.dischargeMax, DischargePoints, i, i');
    PowerIncreasesWithDischarge(r.suction[j], r.discharge[i'], r.discharge[i], rpm);
  }

  /** The default ranges at the default 1800 RPM: the first curve starts at
      a power of 450 BHP and a flow of 1000 * 250 / 1800. */
  method DefaultSweepExample() returns (firstPower: real, firstFlow: real)
    ensures firstPower == 450.0
    ensures firstFlow == 250000.0 / 1800.0
  {
    var r := GenerateGraphs(DefaultRange, 1800);
    firstPower := r.powers[0][0];
    firstFlow := r.flows[0][0];
  }
}
