/**
 * From force per piston to total force, engine torque and horsepower.
 * The piston count and rpm come from integer widgets; the crank radius is in metres.
 */
module EngineAggregator {
  import RealFacts

  function TotalEngineForce(forcePerPiston: real, totalPistons: int): real {
    forcePerPiston * (totalPistons as real)
  }

  function EngineTorque(totalEngineForce: real, crankRadiusM: real): real {
    totalEngineForce * crankRadiusM
  }

  /** Horsepower from torque and rpm, with the constant 5252. */
  function EngineHp(engineTorque: real, rpm: int): real {
    engineTorque * (rpm as real) / 5252.0
  }

  /** The whole chain in one formula: force per piston times pistons times crank radius times rpm, over 5252. */
  lemma HpClosedForm(forcePerPiston: real, totalPistons: int, crankRadiusM: real, rpm: int)
    ensures EngineHp(EngineTorque(TotalEngineForce(forcePerPiston, totalPistons), crankRadiusM), rpm)
         == forcePerPiston * (totalPistons as real) * crankRadiusM * (rpm as real) / 5252.0
  {
  }

  /** Non-negative force, piston count, crank radius and rpm give non-negative total force, torque and horsepower. */
  lemma AggregationNonNegative(forcePerPiston: real, totalPistons: int, crankRadiusM: real, rpm: int)
    requires forcePerPiston >= 0.0 && totalPistons >= 0 && crankRadiusM >= 0.0 && rpm >= 0
    ensures TotalEngineForce(forcePerPiston, totalPistons) >= 0.0
    ensures EngineTorque(TotalEngineForce(forcePerPiston, totalPistons), crankRadiusM) >= 0.0
    ensures EngineHp(EngineTorque(TotalEngineForce(forcePerPiston, totalPistons), crankRadiusM), rpm) >= 0.0
  {
    var total := TotalEngineForce(forcePerPiston, totalPistons);
    RealFacts.MulSign(forcePerPiston, totalPistons as real);
    RealFacts.MulSign(total, crankRadiusM);
    RealFacts.MulSign(EngineTorque(total, crankRadiusM), rpm as real);
  }

  /** An engine at rest makes no power, whatever its torque. */
  lemma HpZeroAtRest(engineTorque: real)
    ensures EngineHp(engineTorque, 0) == 0.0
  {
  }

  /** Horsepower grows with rpm for a non-negative torque. */
  lemma HpIncreasingInRpm(engineTorque: real, rpm1: int, rpm2: int)
    requires engineTorque >= 0.0 && rpm1 <= rpm2
    ensures EngineHp(engineTorque, rpm1) <= EngineHp(engineTorque, rpm2)
    ensures engineTorque > 0.0 && rpm1 < rpm2 ==> EngineHp(engineTorque, rpm1) < EngineHp(engineTorque, rpm2)
  {
    RealFacts.MulMonotone(engineTorque, rpm1 as real, rpm2 as real);
    if engineTorque > 0.0 && rpm1 < rpm2 {
      assert (rpm1 as real) < (rpm2 as real);
      var p1, p2 := engineTorque * (rpm1 as real), engineTorque * (rpm2 as real);
      assert p1 < p2;
      assert p1 / 5252.0 < p2 / 5252.0;
    }
  }

  /** Torque is recovered from horsepower at any positive rpm: torque = hp * 5252 / rpm. */
  lemma TorqueFromHp(engineTorque: real, rpm: int)
    requires rpm > 0
    ensures EngineHp(engineTorque, rpm) * 5252.0 / (rpm as real) == engineTorque
  {
    var hp := EngineHp(engineTorque, rpm);
    assert hp * 5252.0 == engineTorque * (rpm as real);
  }

  /** 500 Nm at 3000 rpm: 500 * 3000 / 5252, a little over 285.6 hp. */
  lemma HpExample()
    ensures EngineHp(500.0, 3000) == 1500000.0 / 5252.0
    ensures 285.6 < EngineHp(500.0, 3000) < 285.7
  {
  }
}
