/**
 * The road-speed estimate: the engine speed is taken down through the first
 * gear and the final drive to the wheels, and the wheel speed times the tire
 * circumference gives the vehicle speed.
 */
module SpeedEstimator {
  import opened Constants
  import opened OrderedDict
  import RealFacts

  /** `list(gear_ratios.values())[0]`: the ratio stored first, which is Gear 1's. */
  function FirstGearRatio(gearRatios: Dict<string, real>): (r: real)
    requires |gearRatios| >= 1
    ensures r == gearRatios[0].1 && r in Values(gearRatios)
  {
    Values(gearRatios)[0]
  }

  /** The widget minimums of 0.1 on both ratios keep the overall ratio at least 0.01, so never zero. */
  lemma OverallRatioAtLeast(gear1Ratio: real, finalDriveRatio: real)
    requires gear1Ratio >= 0.1 && finalDriveRatio >= 0.1
    ensures gear1Ratio * finalDriveRatio >= 0.01
  {
    RealFacts.MulMonotone(gear1Ratio, 0.1, finalDriveRatio);
  }

  /** Wheel revolutions per minute in first gear. */
  function WheelRpm(rpm: int, gear1Ratio: real, finalDriveRatio: real): real
    requires gear1Ratio >= 0.1 && finalDriveRatio >= 0.1
  {
    OverallRatioAtLeast(gear1Ratio, finalDriveRatio);
    (rpm as real) / (gear1Ratio * finalDriveRatio)
  }

  function TireCircumference(tireDiameterM: real): real {
    Pi * tireDiameterM
  }

  /** Road speed in metres per second. */
  function SpeedMps(rpm: int, gear1Ratio: real, finalDriveRatio: real, tireDiameterM: real): real
    requires gear1Ratio >= 0.1 && finalDriveRatio >= 0.1
  {
    (WheelRpm(rpm, gear1Ratio, finalDriveRatio) * TireCircumference(tireDiameterM)) / 60.0
  }

  /** Road speed in kilometres per hour. */
  function SpeedKph(rpm: int, gear1Ratio: real, finalDriveRatio: real, tireDiameterM: real): real
    requires gear1Ratio >= 0.1 && finalDriveRatio >= 0.1
  {
    SpeedMps(rpm, gear1Ratio, finalDriveRatio, tireDiameterM) * 3.6
  }

  /** The wheels turn at the engine speed divided by the overall ratio: wheel rpm times that ratio is the engine rpm. */
  lemma WheelRpmTimesRatio(rpm: int, gear1Ratio: real, finalDriveRatio: real)
    requires gear1Ratio >= 0.1 && finalDriveRatio >= 0.1
    ensures WheelRpm(rpm, gear1Ratio, finalDriveRatio) * (gear1Ratio * finalDriveRatio) == rpm as real
  {
    OverallRatioAtLeast(gear1Ratio, finalDriveRatio);
  }

  /** Speed in closed form: rpm times pi times the tire diameter, over 60 times the overall ratio; km/h is 3.6 times m/s. */
  lemma SpeedClosedForm(rpm: int, gear1Ratio: real, finalDriveRatio: real, tireDiameterM: real)
    requires gear1Ratio >= 0.1 && finalDriveRatio >= 0.1
    ensures SpeedMps(rpm, gear1Ratio, finalDriveRatio, tireDiameterM)
         == (rpm as real) * TireCircumference(tireDiameterM) / (60.0 * (gear1Ratio * finalDriveRatio))
    ensures SpeedKph(rpm, gear1Ratio, finalDriveRatio, tireDiameterM)
         == 3.6 * SpeedMps(rpm, gear1Ratio, finalDriveRatio, tireDiameterM)
  {
    OverallRatioAtLeast(gear1Ratio, finalDriveRatio);
    var ratio := gear1Ratio * finalDriveRatio;
    var wheel := WheelRpm(rpm, gear1Ratio, finalDriveRatio);
    var circ := TireCircumference(tireDiameterM);
    assert wheel * ratio == rpm as real;
    assert (wheel * circ) * ratio == (rpm as real) * circ;
  }

  /** The engine at rest gives no road speed. */
  lemma SpeedZeroAtRest(gear1Ratio: real, finalDriveRatio: real, tireDiameterM: real)
    requires gear1Ratio >= 0.1 && finalDriveRatio >= 0.1
    ensures SpeedMps(0, gear1Ratio, finalDriveRatio, tireDiameterM) == 0.0
    ensures SpeedKph(0, gear1Ratio, finalDriveRatio, tireDiameterM) == 0.0
  {
  }

  /** Any non-negative rpm and tire size the widgets admit give a non-negative speed, and a running engine a positive one. */
  lemma SpeedSign(rpm: int, gear1Ratio: real, finalDriveRatio: real, tireDiameterM: real)
    requires rpm >= 0 && gear1Ratio >= 0.1 && finalDriveRatio >= 0.1 && tireDiameterM >= 0.1
    ensures SpeedMps(rpm, gear1Ratio, finalDriveRatio, tireDiameterM) >= 0.0
    ensures SpeedKph(rpm, gear1Ratio, finalDriveRatio, tireDiameterM) >= 0.0
    ensures rpm > 0 ==> SpeedKph(rpm, gear1Ratio, finalDriveRatio, tireDiameterM) > 0.0
  {
    OverallRatioAtLeast(gear1Ratio, finalDriveRatio);
    var wheel := WheelRpm(rpm, gear1Ratio, finalDriveRatio);
    assert wheel >= 0.0 && (rpm > 0 ==> wheel > 0.0);
    RealFacts.MulSign(Pi, tireDiameterM);
    RealFacts.MulSign(wheel, TireCircumference(tireDiameterM));
  }

  /** Speed is proportional to engine rpm: it is rpm times the speed at one rpm. */
  lemma SpeedProportionalToRpm(rpm: int, gear1Ratio: real, finalDriveRatio: real, tireDiameterM: real)
    requires gear1Ratio >= 0.1 && finalDriveRatio >= 0.1
    ensures SpeedMps(rpm, gear1Ratio, finalDriveRatio, tireDiameterM)
         == (rpm as real) * SpeedMps(1, gear1Ratio, finalDriveRatio, tireDiameterM)
  {
    OverallRatioAtLeast(gear1Ratio, finalDriveRatio);
    var unitWheel := WheelRpm(1, gear1Ratio, finalDriveRatio);
    var circ := TireCircumference(tireDiameterM);
    assert WheelRpm(rpm, gear1Ratio, finalDriveRatio) == (rpm as real) * unitWheel;
    assert ((rpm as real) * unitWheel) * circ == (rpm as real) * (unitWheel * circ);
  }

  /** Over a tire the widgets admit, more engine rpm never gives less speed, and strictly more rpm gives strictly more speed. */
  lemma SpeedIncreasingInRpm(rpm1: int, rpm2: int, gear1Ratio: real, finalDriveRatio: real, tireDiameterM: real)
    requires rpm1 <= rpm2 && gear1Ratio >= 0.1 && finalDriveRatio >= 0.1 && tireDiameterM >= 0.1
    ensures SpeedKph(rpm1, gear1Ratio, finalDriveRatio, tireDiameterM) <= SpeedKph(rpm2, gear1Ratio, finalDriveRatio, tireDiameterM)
    ensures rpm1 < rpm2 ==> SpeedKph(rpm1, gear1Ratio, finalDriveRatio, tireDiameterM) < SpeedKph(rpm2, gear1Ratio, finalDriveRatio, tireDiameterM)
  {
    SpeedProportionalToRpm(rpm1, gear1Ratio, finalDriveRatio, tireDiameterM);
    SpeedProportionalToRpm(rpm2, gear1Ratio, finalDriveRatio, tireDiameterM);
    SpeedSign(1, gear1Ratio, finalDriveRatio, tireDiameterM);
    var unit := SpeedMps(1, gear1Ratio, finalDriveRatio, tireDiameterM);
    RealFacts.MulMonotone(unit, rpm1 as real, rpm2 as real);
  }

  /** From the speed, the tire and the ratios the engine rpm is recovered. */
  lemma RpmFromSpeed(rpm: int, gear1Ratio: real, finalDriveRatio: real, tireDiameterM: real)
    requires gear1Ratio >= 0.1 && finalDriveRatio >= 0.1 && tireDiameterM >= 0.1
    ensures SpeedMps(rpm, gear1Ratio, finalDriveRatio, tireDiameterM) * 60.0 / TireCircumference(tireDiameterM)
            * (gear1Ratio * finalDriveRatio) == rpm as real
  {
    RealFacts.MulSign(Pi, tireDiameterM);
    var wheel := WheelRpm(rpm, gear1Ratio, finalDriveRatio);
    var circ := TireCircumference(tireDiameterM);
    assert SpeedMps(rpm, gear1Ratio, finalDriveRatio, tireDiameterM) * 60.0 == wheel * circ;
    assert wheel * circ / circ == wheel;
    WheelRpmTimesRatio(rpm, gear1Ratio, finalDriveRatio);
  }

  /** 3000 rpm in a 3.5 first gear with a 3.9 final drive on a 0.65 m tire: just under 27 km/h. */
  lemma SpeedExample()
    ensures 26.9 < SpeedKph(3000, 3.5, 3.9, 0.65) < 27.0
  {
  }
}
