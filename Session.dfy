/**
 The session state the pages share: the equipment record with its list of
 cylinders, and the process record whose power the performance page
 computes. Widget reads become parameters; widget bounds become
 preconditions.
 */
module Session {
  import opened Formulas

  datatype MotorType = NaturalGas | Electric

  /** The two SACE modes a cylinder can be set to. */
  datatype SaceType = Sace | SacePerCylinder

  /** One cylinder as the configuration loop records it. */
  datatype Cylinder = Cylinder(stage: int, clearance: real, sace: SaceType, vvcp: real)

  /** The bounds the cylinder widgets enforce: stage at least 1, clearance
      and VVCP percentages within [0, 100]. */
  predicate ValidCylinder(c: Cylinder)
  {
    c.stage >= 1 && 0.0 <= c.clearance <= 100.0 && 0.0 <= c.vvcp <= 100.0
  }

  /** What the cylinder widgets show before the user changes them. */
  const DefaultCylinder := Cylinder(1, 10.0, Sace, 0.0)

  /** The configuration loop: one record per cylinder, in order, each made
      of what the widgets for that cylinder index return. */
  method BuildCylinders(count: nat, widgets: nat -> Cylinder) returns (cylinders: seq<Cylinder>)
    requires forall i :: 0 <= i < count ==> ValidCylinder(widgets(i))
    ensures |cylinders| == count
    ensures forall i :: 0 <= i < count ==> cylinders[i] == widgets(i)
    ensures forall c :: c in cylinders ==> ValidCylinder(c)
  {
    cylinders := [];
    for i := 0 to count
      invariant |cylinders| == i
      invariant forall k :: 0 <= k < i ==> cylinders[k] == widgets(k)
    {
      var stage := widgets(i).stage;
      var clearance := widgets(i).clearance;
      var saceType := widgets(i).sace;
      var vvcp := widgets(i).vvcp;
      cylinders := cylinders + [Cylinder(stage, clearance, saceType, vvcp)];
    }
  }

  /** The equipment record of the session. */
  class Equipment {
    var motorType: MotorType
    var rpm: nat
    var derate: real
    var stroke: real
    var numCylinders: nat
    var cylinders: seq<Cylinder>

    /** What the equipment widgets guarantee. */
    ghost predicate Valid()
      reads this
    {
      && 0.0 <= derate <= 100.0
      && stroke >= 0.0
      && numCylinders >= 1
      && (forall c :: c in cylinders ==> ValidCylinder(c))
    }

    /** The cylinder list has one record per configured cylinder. */
    predicate CylindersMatch()
      reads this
    {
      |cylinders| == numCylinders
    }

    /** The values a new session starts with: two cylinders declared but
        none configured yet. */
    constructor ()
      ensures Valid()
      ensures motorType == Electric && rpm == 1800 && derate == 0.0 && stroke == 150.0
      ensures numCylinders == 2 && cylinders == []
      ensures !CylindersMatch()
    {
      motorType := Electric;
      rpm := 1800;
      derate := 0.0;
      stroke := 150.0;
      numCylinders := 2;
      cylinders := [];
    }

    /** Storing a new cylinder count touches only the count: the list is
        not rebuilt, so a list that matched stops matching. */
    method SetNumCylinders(n: nat)
      requires Valid() && n >= 1
      modifies this`numCylinders
      ensures Valid()
      ensures numCylinders == n && cylinders == old(cylinders)
      ensures old(CylindersMatch()) && n != old(numCylinders) ==> !CylindersMatch()
    {
      numCylinders := n;
    }

    /** The cylinder configuration step: the list is rebuilt from the
        widgets, one record for each of the current count of cylinders. */
    method ConfigureCylinders(widgets: nat -> Cylinder)
      requires Valid()
      requires forall i :: 0 <= i < numCylinders ==> ValidCylinder(widgets(i))
      modifies this`cylinders
      ensures Valid() && CylindersMatch()
      ensures forall i :: 0 <= i < numCylinders ==> cylinders[i] == widgets(i)
      ensures numCylinders == old(numCylinders) && rpm == old(rpm)
    {
      cylinders := BuildCylinders(numCylinders, widgets);
    }
  }

  /** The process record of the session. */
  class Process {
    var suctionPressure: real
    var dischargePressure: real
    var power: real

    /** What the pressure widgets guarantee. */
    ghost predicate Valid()
      reads this
    {
      suctionPressure >= 0.0 && dischargePressure >= 0.0
    }

    /** The values a new session starts with. */
    constructor ()
      ensures Valid()
      ensures suctionPressure == 100.0 && dischargePressure == 500.0 && power == 0.0
    {
      suctionPressure := 100.0;
      dischargePressure := 500.0;
      power := 0.0;
    }

    /** The "calculate performance" action: evaluate the power at the
        stored operating point and the equipment's RPM and store it; the
        pressures and the equipment are left as they were. */
    method CalculatePerformance(equipment: Equipment)
      requires Valid()
      modifies this`power
      ensures Valid()
      ensures power == Power(suctionPressure, dischargePressure, equipment.rpm as real)
      ensures suctionPressure == old(suctionPressure) && dischargePressure == old(dischargePressure)
      ensures unchanged(equipment)
    {
      var k := 0.001;
      power := k * (dischargePressure - suctionPressure) * (equipment.rpm as real);
    }
  }

  /** A new session, calculated right away, reports 720 BHP. */
  method DefaultSessionPower() returns (power: real)
    ensures power == 720.0
  {
    var equipment := new Equipment();
    var process := new Process();
    process.CalculatePerformance(equipment);
    power := process.power;
  }

  /** Configure the two default cylinders and save (which closes the
      configuration, so later reruns no longer rebuild the list), then
      raise the count to three: the stored list keeps two records while
      the count says three. */
  method StaleCylinderList() returns (listLength: nat, count: nat)
    ensures listLength == 2 && count == 3
  {
    var equipment := new Equipment();
    equipment.ConfigureCylinders(i => DefaultCylinder);
    equipment.SetNumCylinders(3);
    listLength, count := |equipment.cylinders|, equipment.numCylinders;
  }
}
