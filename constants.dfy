/** Constants shared by the force model and the speed estimator. */
module Constants {

  /** The circle constant, to the digits Python prints for math.pi. Every lemma except SpeedEstimator.SpeedExample holds for any positive value. */
  const Pi: real := 3.141592653589793
}
