/**
 * The calculator as a whole: the values read from the input widgets, the
 * values it derives from them, and the script that derives them in order
 * (force per piston, gear-ratio table, engine totals, gearbox output, speed).
 */
module TorqueCalculator {
  import opened OrderedDict
  import ForceModel
  import EngineAggregator
  import Drivetrain
  import SpeedEstimator
  import RealFacts

  /**
   * Everything the widgets hand to the calculation. The piston counts, the rpm
   * and the number of gears come from integer widgets; gearRatioEntries[i - 1]
   * is the ratio entered for gear i.
   */
  datatype Inputs = Inputs(
    force: ForceModel.ForceInputs,
    totalPistons: int,
    firingPistons: int,
    crankRadiusM: real,
    rpm: int,
    numGears: int,
    gearRatioEntries: seq<real>,
    finalDriveRatio: real,
    tireDiameterM: real)

  /** The minimums and ranges the widgets enforce, and one ratio widget per gear. */
  predicate WidgetBounds(inp: Inputs) {
    ForceModel.WidgetBounds(inp.force)
    && inp.totalPistons >= 1
    && inp.firingPistons >= 1
    && inp.crankRadiusM >= 0.0
    && inp.rpm >= 0
    && inp.numGears >= 1
    && |inp.gearRatioEntries| == inp.numGears
    && (forall k :: 0 <= k < |inp.gearRatioEntries| ==> inp.gearRatioEntries[k] >= 0.1)
    && inp.finalDriveRatio >= 0.1
    && inp.tireDiameterM >= 0.1
  }

  /** Every value the calculator shows. */
  datatype Derived = Derived(
    forcePerPiston: real,
    totalEngineForce: real,
    engineTorque: real,
    engineHp: real,
    gearRatios: Dict<string, real>,
    gearboxOutput: Dict<string, Drivetrain.GearTorque>,
    gear1Ratio: real,
    wheelRpm: real,
    tireCircumference: real,
    speedMps: real,
    speedKph: real)

  /** What the calculator derives from the widget values. */
  function Derive(inp: Inputs): Derived
    requires WidgetBounds(inp)
  {
    var forcePerPiston := ForceModel.ForcePerPiston(inp.force);
    var totalEngineForce := EngineAggregator.TotalEngineForce(forcePerPiston, inp.totalPistons);
    var engineTorque := EngineAggregator.EngineTorque(totalEngineForce, inp.crankRadiusM);
    var gearRatios := Drivetrain.GearTable(inp.gearRatioEntries);
    var gear1Ratio := SpeedEstimator.FirstGearRatio(gearRatios);
    Derived(
      forcePerPiston,
      totalEngineForce,
      engineTorque,
      EngineAggregator.EngineHp(engineTorque, inp.rpm),
      gearRatios,
      Drivetrain.GearboxTable(engineTorque, gearRatios, inp.finalDriveRatio),
      gear1Ratio,
      SpeedEstimator.WheelRpm(inp.rpm, gear1Ratio, inp.finalDriveRatio),
      SpeedEstimator.TireCircumference(inp.tireDiameterM),
      SpeedEstimator.SpeedMps(inp.rpm, gear1Ratio, inp.finalDriveRatio, inp.tireDiameterM),
      SpeedEstimator.SpeedKph(inp.rpm, gear1Ratio, inp.finalDriveRatio, inp.tireDiameterM))
  }

  /** The script, statement by statement, with its two loops. */
  method Run(inp: Inputs) returns (r: Derived)
    requires WidgetBounds(inp)
    ensures r == Derive(inp)
  {
    var forcePerPiston := ForceModel.ForcePerPiston(inp.force);
    var gearRatios := Drivetrain.BuildGearRatios(inp.numGears, inp.gearRatioEntries);
    var totalEngineForce := EngineAggregator.TotalEngineForce(forcePerPiston, inp.totalPistons);
    var engineTorque := EngineAggregator.EngineTorque(totalEngineForce, inp.crankRadiusM);
    var engineHp := EngineAggregator.EngineHp(engineTorque, inp.rpm);
    var gearboxOutput := Drivetrain.BuildGearboxOutput(engineTorque, gearRatios, inp.finalDriveRatio);
    Drivetrain.GearTableFirstRatio(inp.gearRatioEntries);
    var gear1Ratio := SpeedEstimator.FirstGearRatio(gearRatios);
    var wheelRpm := SpeedEstimator.WheelRpm(inp.rpm, gear1Ratio, inp.finalDriveRatio);
    var tireCircumference := SpeedEstimator.TireCircumference(inp.tireDiameterM);
    var speedMps := SpeedEstimator.SpeedMps(inp.rpm, gear1Ratio, inp.finalDriveRatio, inp.tireDiameterM);
    var speedKph := SpeedEstimator.SpeedKph(inp.rpm, gear1Ratio, inp.finalDriveRatio, inp.tireDiameterM);
    r := Derived(forcePerPiston, totalEngineForce, engineTorque, engineHp, gearRatios, gearboxOutput,
                 gear1Ratio, wheelRpm, tireCircumference, speedMps, speedKph);
  }

  /** The number of pistons firing at once is shown but enters no calculation. */
  lemma FiringPistonsIrrelevant(inp: Inputs, firing: int)
    requires WidgetBounds(inp) && firing >= 1
    ensures WidgetBounds(inp.(firingPistons := firing))
    ensures Derive(inp.(firingPistons := firing)) == Derive(inp)
  {
  }

  /** The gear-ratio table holds gears "Gear 1" to "Gear n" in order, each with its entered ratio, and no key twice. */
  lemma GearRatiosShape(inp: Inputs)
    requires WidgetBounds(inp)
    ensures var g := Derive(inp).gearRatios;
      |g| == inp.numGears && DistinctKeys(g)
      && (forall k :: 0 <= k < |g| ==> g[k] == (Drivetrain.GearName(k + 1), inp.gearRatioEntries[k]))
  {
    Drivetrain.GearTableDistinct(inp.gearRatioEntries);
  }

  /** The gearbox output lists the same gears as the ratio table, in the same order, with the torques of that gear's ratio. */
  lemma GearboxOutputShape(inp: Inputs)
    requires WidgetBounds(inp)
    ensures var d := Derive(inp);
      |d.gearboxOutput| == inp.numGears
      && Keys(d.gearboxOutput) == Keys(d.gearRatios)
      && (forall k :: 0 <= k < |d.gearboxOutput| ==>
            d.gearboxOutput[k].0 == Drivetrain.GearName(k + 1)
            && d.gearboxOutput[k].1 == Drivetrain.TorquesInGear(d.engineTorque, inp.gearRatioEntries[k], inp.finalDriveRatio))
  {
    var d := Derive(inp);
    Drivetrain.GearboxTableKeys(d.engineTorque, d.gearRatios, inp.finalDriveRatio);
    Drivetrain.GearboxOfGearTable(d.engineTorque, inp.gearRatioEntries, inp.finalDriveRatio);
  }

  /** The speed estimate is well defined: there is a first gear, and the overall ratio is at least 0.01. */
  lemma SpeedWellDefined(inp: Inputs)
    requires WidgetBounds(inp)
    ensures |Derive(inp).gearRatios| >= 1
    ensures Derive(inp).gear1Ratio == inp.gearRatioEntries[0]
    ensures Derive(inp).gear1Ratio * inp.finalDriveRatio >= 0.01
  {
    Drivetrain.GearTableFirstRatio(inp.gearRatioEntries);
    SpeedEstimator.OverallRatioAtLeast(inp.gearRatioEntries[0], inp.finalDriveRatio);
  }

  /**
   * Only Gear 1 enters the speed: changing the number of gears or any ratio
   * after the first leaves the speeds unchanged.
   */
  lemma SpeedUsesOnlyFirstGear(inp: Inputs, laterRatios: seq<real>)
    requires WidgetBounds(inp)
    requires forall k :: 0 <= k < |laterRatios| ==> laterRatios[k] >= 0.1
    ensures var other := inp.(numGears := 1 + |laterRatios|, gearRatioEntries := [inp.gearRatioEntries[0]] + laterRatios);
      WidgetBounds(other)
      && Derive(other).wheelRpm == Derive(inp).wheelRpm
      && Derive(other).speedMps == Derive(inp).speedMps
      && Derive(other).speedKph == Derive(inp).speedKph
  {
    var other := inp.(numGears := 1 + |laterRatios|, gearRatioEntries := [inp.gearRatioEntries[0]] + laterRatios);
    assert WidgetBounds(other) by {
      forall k | 0 <= k < |other.gearRatioEntries|
        ensures other.gearRatioEntries[k] >= 0.1
      {
        if k > 0 {
          assert other.gearRatioEntries[k] == laterRatios[k - 1];
        }
      }
    }
    Drivetrain.GearTableFirstRatio(inp.gearRatioEntries);
    Drivetrain.GearTableFirstRatio(other.gearRatioEntries);
  }

  /** Every value shown is non-negative for any inputs the widgets admit. */
  lemma DerivedNonNegative(inp: Inputs)
    requires WidgetBounds(inp)
    ensures var d := Derive(inp);
      d.forcePerPiston >= 0.0 && d.totalEngineForce >= 0.0 && d.engineTorque >= 0.0 && d.engineHp >= 0.0
      && d.wheelRpm >= 0.0 && d.speedMps >= 0.0 && d.speedKph >= 0.0
      && (forall k :: 0 <= k < |d.gearboxOutput| ==>
            d.gearboxOutput[k].1.gearboxTorque >= 0.0 && d.gearboxOutput[k].1.wheelTorque >= 0.0)
  {
    var forcePerPiston := ForceModel.ForcePerPiston(inp.force);
    ForceModel.ForcePerPistonNonNegative(inp.force);
    EngineAggregator.AggregationNonNegative(forcePerPiston, inp.totalPistons, inp.crankRadiusM, inp.rpm);
    var engineTorque := EngineAggregator.EngineTorque(
      EngineAggregator.TotalEngineForce(forcePerPiston, inp.totalPistons), inp.crankRadiusM);
    var gearRatios := Drivetrain.GearTable(inp.gearRatioEntries);
    Drivetrain.GearboxTableNonNegative(engineTorque, gearRatios, inp.finalDriveRatio);
    Drivetrain.GearTableFirstRatio(inp.gearRatioEntries);
    SpeedEstimator.SpeedSign(inp.rpm, inp.gearRatioEntries[0], inp.finalDriveRatio, inp.tireDiameterM);
  }

  /** An engine at rest shows no horsepower and no road speed, whatever else is entered. */
  lemma AtRestNoPowerNoSpeed(inp: Inputs)
    requires WidgetBounds(inp) && inp.rpm == 0
    ensures Derive(inp).engineHp == 0.0 && Derive(inp).speedMps == 0.0 && Derive(inp).speedKph == 0.0
  {
    Drivetrain.GearTableFirstRatio(inp.gearRatioEntries);
    SpeedEstimator.SpeedZeroAtRest(Derive(inp).gear1Ratio, inp.finalDriveRatio, inp.tireDiameterM);
  }
}
