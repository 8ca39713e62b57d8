/**
 * Force per piston for the two engine types of the calculator's radio selector:
 * a combustion engine (bore and peak cylinder pressure) or the "Pulse Core"
 * solenoid engine (a solenoid force scaled by an efficiency).
 */
module ForceModel {
  import opened Constants
  import RealFacts

  datatype ForceInputs =
    | Ice(boreMm: real, pressureMpa: real)
    | PulseCore(solenoidForceN: real, efficiency: real)

  /** What the input widgets admit: non-negative bore, pressure and force; an efficiency slider over [0, 1]. */
  predicate WidgetBounds(f: ForceInputs) {
    match f
    case Ice(boreMm, pressureMpa) => boreMm >= 0.0 && pressureMpa >= 0.0
    case PulseCore(force, efficiency) => force >= 0.0 && 0.0 <= efficiency <= 1.0
  }

  function PistonRadiusM(boreMm: real): real {
    (boreMm / 1000.0) / 2.0
  }

  /** Piston crown area in square metres. */
  function PistonAreaM2(boreMm: real): real {
    Pi * RealFacts.Square(PistonRadiusM(boreMm))
  }

  function PressurePa(pressureMpa: real): real {
    pressureMpa * 1000000.0
  }

  /** Combustion force on one piston, in newtons. */
  function IceForce(boreMm: real, pressureMpa: real): real {
    PressurePa(pressureMpa) * PistonAreaM2(boreMm)
  }

  /** Solenoid force on one piston, in newtons. */
  function SolenoidForce(solenoidForceN: real, efficiency: real): real {
    solenoidForceN * efficiency
  }

  function ForcePerPiston(inputs: ForceInputs): real {
    match inputs
    case Ice(boreMm, pressureMpa) => IceForce(boreMm, pressureMpa)
    case PulseCore(force, efficiency) => SolenoidForce(force, efficiency)
  }

  /** The piston area is pi times a square, so never negative. */
  lemma PistonAreaNonNegative(boreMm: real)
    ensures PistonAreaM2(boreMm) >= 0.0
  {
    RealFacts.SquareSign(PistonRadiusM(boreMm));
    RealFacts.MulSign(Pi, RealFacts.Square(PistonRadiusM(boreMm)));
  }

  /** A non-zero bore has a positive piston area. */
  lemma PistonAreaPositive(boreMm: real)
    requires boreMm != 0.0
    ensures PistonAreaM2(boreMm) > 0.0
  {
    RealFacts.SquareSign(PistonRadiusM(boreMm));
    RealFacts.MulSign(Pi, RealFacts.Square(PistonRadiusM(boreMm)));
  }

  /** Over non-negative bores the piston area grows with the bore. */
  lemma PistonAreaIncreasing(bore1: real, bore2: real)
    requires 0.0 <= bore1 <= bore2
    ensures PistonAreaM2(bore1) <= PistonAreaM2(bore2)
    ensures bore1 < bore2 ==> PistonAreaM2(bore1) < PistonAreaM2(bore2)
  {
    RealFacts.SquareMonotone(PistonRadiusM(bore1), PistonRadiusM(bore2));
    RealFacts.MulMonotone(Pi, RealFacts.Square(PistonRadiusM(bore1)), RealFacts.Square(PistonRadiusM(bore2)));
  }

  /** A non-negative pressure gives a non-negative force, whatever the bore. */
  lemma IceForceNonNegative(boreMm: real, pressureMpa: real)
    requires pressureMpa >= 0.0
    ensures IceForce(boreMm, pressureMpa) >= 0.0
  {
    PistonAreaNonNegative(boreMm);
    RealFacts.MulSign(PressurePa(pressureMpa), PistonAreaM2(boreMm));
  }

  /** With an efficiency in [0, 1] the solenoid force lies between 0 and the entered force. */
  lemma SolenoidForceBounds(solenoidForceN: real, efficiency: real)
    requires solenoidForceN >= 0.0 && 0.0 <= efficiency <= 1.0
    ensures 0.0 <= SolenoidForce(solenoidForceN, efficiency) <= solenoidForceN
  {
    RealFacts.MulSign(solenoidForceN, efficiency);
    RealFacts.MulAtMostOne(solenoidForceN, efficiency);
  }

  /** Inputs the widgets admit give a non-negative force per piston, on both branches. */
  lemma ForcePerPistonNonNegative(inputs: ForceInputs)
    requires WidgetBounds(inputs)
    ensures ForcePerPiston(inputs) >= 0.0
  {
    match inputs
    case Ice(boreMm, pressureMpa) => IceForceNonNegative(boreMm, pressureMpa);
    case PulseCore(force, efficiency) => SolenoidForceBounds(force, efficiency);
  }

  /** The combustion force in closed form: pressure in pascals times pi times the radius (bore / 2000) squared. */
  lemma IceForceClosedForm(boreMm: real, pressureMpa: real)
    ensures IceForce(boreMm, pressureMpa)
         == pressureMpa * 1000000.0 * Pi * (boreMm / 2000.0) * (boreMm / 2000.0)
  {
  }

  /** No force exactly when there is no bore or no pressure. */
  lemma IceForceZeroIff(boreMm: real, pressureMpa: real)
    ensures IceForce(boreMm, pressureMpa) == 0.0 <==> boreMm == 0.0 || pressureMpa == 0.0
  {
    if boreMm != 0.0 {
      PistonAreaPositive(boreMm);
    }
    RealFacts.MulSign(PressurePa(pressureMpa), PistonAreaM2(boreMm));
  }

  /** A larger bore never gives less force, and strictly more under positive pressure. */
  lemma IceForceIncreasingInBore(bore1: real, bore2: real, pressureMpa: real)
    requires 0.0 <= bore1 <= bore2 && pressureMpa >= 0.0
    ensures IceForce(bore1, pressureMpa) <= IceForce(bore2, pressureMpa)
    ensures bore1 < bore2 && pressureMpa > 0.0 ==> IceForce(bore1, pressureMpa) < IceForce(bore2, pressureMpa)
  {
    PistonAreaIncreasing(bore1, bore2);
    RealFacts.MulMonotone(PressurePa(pressureMpa), PistonAreaM2(bore1), PistonAreaM2(bore2));
  }

  /** A higher pressure never gives less force, and strictly more for a non-zero bore. */
  lemma IceForceIncreasingInPressure(boreMm: real, pressure1: real, pressure2: real)
    requires pressure1 <= pressure2
    ensures IceForce(boreMm, pressure1) <= IceForce(boreMm, pressure2)
    ensures boreMm != 0.0 && pressure1 < pressure2 ==> IceForce(boreMm, pressure1) < IceForce(boreMm, pressure2)
  {
    PistonAreaNonNegative(boreMm);
    if boreMm != 0.0 {
      PistonAreaPositive(boreMm);
    }
    RealFacts.MulMonotone(PistonAreaM2(boreMm), PressurePa(pressure1), PressurePa(pressure2));
    if boreMm != 0.0 && pressure1 < pressure2 {
      assert PressurePa(pressure1) * PistonAreaM2(boreMm) < PressurePa(pressure2) * PistonAreaM2(boreMm);
    }
  }

  /** A higher efficiency never gives less solenoid force. */
  lemma SolenoidForceIncreasingInEfficiency(solenoidForceN: real, efficiency1: real, efficiency2: real)
    requires solenoidForceN >= 0.0 && efficiency1 <= efficiency2
    ensures SolenoidForce(solenoidForceN, efficiency1) <= SolenoidForce(solenoidForceN, efficiency2)
  {
    RealFacts.MulMonotone(solenoidForceN, efficiency1, efficiency2);
  }
}
