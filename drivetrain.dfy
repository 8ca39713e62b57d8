/**
 * The gear-ratio table and the gearbox output table. The first is filled with
 * one entry per gear, "Gear 1" to "Gear n", from the ratios entered for each
 * gear; the second maps every gear of the first, in the same order, to its
 * gearbox and wheel torque.
 */
module Drivetrain {
  import opened OrderedDict
  import Decimal
  import RealFacts

  /** The key of gear i, as the f-string "Gear {i}" writes it. */
  function GearName(i: nat): string {
    "Gear " + Decimal.NatToDecimal(i)
  }

  /** Different gear numbers have different names, so the table never overwrites a gear. */
  lemma GearNameInjective(i: nat, j: nat)
    ensures GearName(i) == GearName(j) ==> i == j
  {
    if GearName(i) == GearName(j) {
      assert GearName(i)[5..] == Decimal.NatToDecimal(i);
      assert GearName(j)[5..] == Decimal.NatToDecimal(j);
      Decimal.NatToDecimalInjective(i, j);
    }
  }

  /** The gear-ratio table for the ratios entered for gears 1, 2, ..., in that order. */
  function GearTable(entered: seq<real>): Dict<string, real> {
    seq(|entered|, k requires 0 <= k < |entered| => (GearName(k + 1), entered[k]))
  }

  /** The gear-ratio table is a well-formed dict: its keys "Gear 1".."Gear n" are pairwise distinct. */
  lemma GearTableDistinct(entered: seq<real>)
    ensures DistinctKeys(GearTable(entered))
  {
    var t := GearTable(entered);
    forall i, j | 0 <= i < j < |t|
      ensures t[i].0 != t[j].0
    {
      GearNameInjective(i + 1, j + 1);
    }
  }

  /** Gear 1's ratio, the first value of the table, is the first ratio entered. */
  lemma GearTableFirstRatio(entered: seq<real>)
    requires |entered| >= 1
    ensures |Values(GearTable(entered))| >= 1 && Values(GearTable(entered))[0] == entered[0]
  {
  }

  /** One more entered ratio appends one more gear and changes none before it. */
  lemma GearTablePrefix(entered: seq<real>, i: nat)
    requires i < |entered|
    ensures GearTable(entered[..i + 1]) == GearTable(entered[..i]) + [(GearName(i + 1), entered[i])]
  {
  }

  /** The next gear's name is not yet a key of the table built so far. */
  lemma NextGearIsNew(entered: seq<real>)
    ensures GearName(|entered| + 1) !in Keys(GearTable(entered))
  {
    var t := GearTable(entered);
    forall k | 0 <= k < |t|
      ensures Keys(t)[k] != GearName(|entered| + 1)
    {
      GearNameInjective(k + 1, |entered| + 1);
    }
  }

  /**
   * The loop `for i in range(1, num_gears + 1): gear_ratios[f"Gear {i}"] = ratio_i`,
   * with the ratio typed into the widget of gear i given as entered[i - 1].
   */
  method BuildGearRatios(numGears: nat, entered: seq<real>) returns (gearRatios: Dict<string, real>)
    requires |entered| == numGears
    ensures gearRatios == GearTable(entered)
    ensures |gearRatios| == numGears && DistinctKeys(gearRatios)
    ensures forall k :: 0 <= k < numGears ==> gearRatios[k] == (GearName(k + 1), entered[k])
  {
    gearRatios := [];
    for i := 1 to numGears + 1
      invariant gearRatios == GearTable(entered[..i - 1])
    {
      NextGearIsNew(entered[..i - 1]);
      GearTablePrefix(entered, i - 1);
      gearRatios := Insert(gearRatios, GearName(i), entered[i - 1]);
    }
    assert entered[..numGears] == entered;
    GearTableDistinct(entered);
  }

  /** The two torques stored per gear. */
  datatype GearTorque = GearTorque(gearboxTorque: real, wheelTorque: real)

  /** Gearbox torque is engine torque times the gear ratio; wheel torque is that times the final drive. */
  function TorquesInGear(engineTorque: real, ratio: real, finalDriveRatio: real): GearTorque {
    var gearboxTorque := engineTorque * ratio;
    GearTorque(gearboxTorque, gearboxTorque * finalDriveRatio)
  }

  /** The gearbox output for a gear-ratio table: the same gears in the same order, each with its torques. */
  function GearboxTable(engineTorque: real, gearRatios: Dict<string, real>, finalDriveRatio: real): Dict<string, GearTorque> {
    seq(|gearRatios|, k requires 0 <= k < |gearRatios|
      => (gearRatios[k].0, TorquesInGear(engineTorque, gearRatios[k].1, finalDriveRatio)))
  }

  /** The loop `for gear, ratio in gear_ratios.items(): gearbox_output[gear] = {...}`. */
  method BuildGearboxOutput(engineTorque: real, gearRatios: Dict<string, real>, finalDriveRatio: real)
    returns (gearboxOutput: Dict<string, GearTorque>)
    requires DistinctKeys(gearRatios)
    ensures gearboxOutput == GearboxTable(engineTorque, gearRatios, finalDriveRatio)
    ensures Keys(gearboxOutput) == Keys(gearRatios)
    ensures forall k :: 0 <= k < |gearboxOutput| ==>
      gearboxOutput[k].1.gearboxTorque == engineTorque * gearRatios[k].1 &&
      gearboxOutput[k].1.wheelTorque == engineTorque * gearRatios[k].1 * finalDriveRatio
  {
    gearboxOutput := [];
    for k := 0 to |gearRatios|
      invariant gearboxOutput == GearboxTable(engineTorque, gearRatios[..k], finalDriveRatio)
    {
      var (gear, ratio) := gearRatios[k];
      forall j | 0 <= j < |gearboxOutput|
        ensures gearboxOutput[j].0 != gear
      {
        assert gearboxOutput[j].0 == gearRatios[j].0;
      }
      gearboxOutput := Insert(gearboxOutput, gear, TorquesInGear(engineTorque, ratio, finalDriveRatio));
      assert gearRatios[..k + 1] == gearRatios[..k] + [gearRatios[k]];
    }
    assert gearRatios[..|gearRatios|] == gearRatios;
  }

  /** In every gear, wheel torque is the final drive times gearbox torque. */
  lemma WheelTorqueIsFinalDriveTimesGearbox(engineTorque: real, gearRatios: Dict<string, real>, finalDriveRatio: real, k: nat)
    requires k < |gearRatios|
    ensures var out := GearboxTable(engineTorque, gearRatios, finalDriveRatio);
      k < |out| && out[k].1.wheelTorque == out[k].1.gearboxTorque * finalDriveRatio
  {
  }

  /**
   * A taller ratio gives at least as much gearbox and wheel torque for a non-negative engine torque
   * and final drive.
   */
  lemma TorqueIncreasingInRatio(engineTorque: real, ratio1: real, ratio2: real, finalDriveRatio: real)
    requires engineTorque >= 0.0 && finalDriveRatio >= 0.0 && ratio1 <= ratio2
    ensures TorquesInGear(engineTorque, ratio1, finalDriveRatio).gearboxTorque
         <= TorquesInGear(engineTorque, ratio2, finalDriveRatio).gearboxTorque
    ensures TorquesInGear(engineTorque, ratio1, finalDriveRatio).wheelTorque
         <= TorquesInGear(engineTorque, ratio2, finalDriveRatio).wheelTorque
  {
    RealFacts.MulMonotone(engineTorque, ratio1, ratio2);
    RealFacts.MulMonotone(finalDriveRatio, engineTorque * ratio1, engineTorque * ratio2);
  }

  /** The gearbox output has the keys of the gear-ratio table it is built from, in the same order. */
  lemma GearboxTableKeys(engineTorque: real, gearRatios: Dict<string, real>, finalDriveRatio: real)
    ensures Keys(GearboxTable(engineTorque, gearRatios, finalDriveRatio)) == Keys(gearRatios)
  {
    var out := GearboxTable(engineTorque, gearRatios, finalDriveRatio);
    var outKeys, keys := Keys(out), Keys(gearRatios);
    assert |outKeys| == |keys|;
    forall k | 0 <= k < |keys|
      ensures outKeys[k] == keys[k]
    {
      assert outKeys[k] == out[k].0 == gearRatios[k].0;
    }
  }

  /** For the gear-ratio table the gearbox output holds "Gear 1".."Gear n" in order, with the torques of each entered ratio. */
  lemma GearboxOfGearTable(engineTorque: real, entered: seq<real>, finalDriveRatio: real)
    ensures var out := GearboxTable(engineTorque, GearTable(entered), finalDriveRatio);
      |out| == |entered|
      && forall k :: 0 <= k < |out| ==>
           out[k].0 == GearName(k + 1)
           && out[k].1.gearboxTorque == engineTorque * entered[k]
           && out[k].1.wheelTorque == out[k].1.gearboxTorque * finalDriveRatio
  {
  }

  /** Non-negative engine torque, ratios and final drive give non-negative torques in every gear. */
  lemma GearboxTableNonNegative(engineTorque: real, gearRatios: Dict<string, real>, finalDriveRatio: real)
    requires engineTorque >= 0.0 && finalDriveRatio >= 0.0
    requires forall k :: 0 <= k < |gearRatios| ==> gearRatios[k].1 >= 0.0
    ensures var out := GearboxTable(engineTorque, gearRatios, finalDriveRatio);
      forall k :: 0 <= k < |out| ==> out[k].1.gearboxTorque >= 0.0 && out[k].1.wheelTorque >= 0.0
  {
    var out := GearboxTable(engineTorque, gearRatios, finalDriveRatio);
    forall k | 0 <= k < |out|
      ensures out[k].1.gearboxTorque >= 0.0 && out[k].1.wheelTorque >= 0.0
    {
      var torques := TorquesInGear(engineTorque, gearRatios[k].1, finalDriveRatio);
      RealFacts.MulSign(engineTorque, gearRatios[k].1);
      RealFacts.MulSign(torques.gearboxTorque, finalDriveRatio);
    }
  }

  /** Two gears with ratios 3.5 and 2.1, final drive 3.9 and 500 Nm: wheel torques 6825 and 4095. */
  lemma GearboxExample()
    ensures GearboxTable(500.0, GearTable([3.5, 2.1]), 3.9)
         == [("Gear 1", GearTorque(1750.0, 6825.0)), ("Gear 2", GearTorque(1050.0, 4095.0))]
  {
    assert GearName(1) == "Gear 1";
    assert GearName(2) == "Gear 2";
  }
}
