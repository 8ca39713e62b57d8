# Torque calculator: a verified model of the powertrain arithmetic

`Torque_calculatore.py` is a Streamlit form. The user enters engine and
drivetrain parameters and the form shows the quantities derived from them:

- force per piston, for either a combustion engine (bore and peak cylinder
  pressure) or the "Pulse Core" solenoid engine (solenoid force times an
  efficiency);
- total engine force, engine torque and horsepower at the entered rpm;
- a gear-ratio table "Gear 1".."Gear n";
- a gearbox-output table holding each gear's gearbox torque and wheel torque;
- the road speed in first gear, in m/s and km/h.

This project models that chain of computations in Dafny and proves properties
about it. It has these modules:

- `Constants` holds pi.
- `RealFacts` holds sign and order facts about products of reals.
- `Decimal` renders the gear number the way the f-string `f"Gear {i}"` does.
- `OrderedDict` models a Python dict as the sequence of its entries in
  insertion order, with `d[k] = v` as `Insert`.
- `ForceModel` covers the two force branches: `IceForce` (lines 96-99),
  `SolenoidForce` (line 103) and `ForcePerPiston`, which picks one by the
  engine type (lines 93-103).
- `EngineAggregator` computes `TotalEngineForce` (line 124), `EngineTorque`
  (line 125) and `EngineHp` (line 126).
- `Drivetrain` holds the two loops. Each loop is a method whose loop invariant
  ties the table built so far to a specification function: `GearTable`
  (lines 113-115) and `GearboxTable` (lines 129-136). The latter stores
  `TorquesInGear` (lines 131-132) for each gear.
- `SpeedEstimator` covers the first-gear speed estimate: `FirstGearRatio`
  (line 139), `WheelRpm` (line 140), `TireCircumference` (line 141),
  `SpeedMps` (line 142) and `SpeedKph` (line 143).
- `TorqueCalculator` holds the widget values (`Inputs`) and the
  minimums/ranges that the widgets enforce (`WidgetBounds`). It also holds
  `Derive`, which gives every displayed value (lines 93-143), and `Run`,
  which is the script in its own statement order.

Arithmetic is over `real`. Pi is the constant `3.141592653589793` (the
digits of `math.pi`). Every lemma except `SpeedEstimator.SpeedExample` holds
for any positive pi; that example's bounds use the digits.

The widget minimums are the only thing that keeps the script safe:

- `min_value=0.0` on bore, pressure, solenoid force and crank radius;
- the efficiency slider over [0, 1];
- `min_value=1` on the piston counts and the number of gears;
- `min_value=0` on rpm;
- `min_value=0.1` on every gear ratio, the final drive and the tire diameter.

These minimums appear as `requires` clauses, and only where a result depends
on them. The formulas themselves, like the script, have no error path.

In particular, rpm 0 is accepted and gives 0 hp and speed 0
(`AtRestNoPowerNoSpeed`). The only engine types are the two branches at
lines 93-103.

## Model

| member | source | states |
|---|---|---|
| ForceModel.PistonAreaNonNegative | Torque_calculatore.py:96-97 | the piston area pi·r² is never negative |
| ForceModel.PistonAreaPositive | Torque_calculatore.py:96-97 | a non-zero bore gives a positive piston area |
| ForceModel.PistonAreaIncreasing | Torque_calculatore.py:96-97 | over non-negative bores the area is non-decreasing in the bore, strictly increasing for a strictly larger bore |
| ForceModel.IceForceClosedForm | Torque_calculatore.py:96-99 | combustion force per piston = pressure_mpa·1e6·pi·(bore_mm/2000)² |
| ForceModel.IceForceZeroIff | Torque_calculatore.py:96-99 | the combustion force is zero exactly when the bore is 0 or the pressure is 0 |
| ForceModel.IceForceNonNegative | Torque_calculatore.py:94-99 | a non-negative pressure gives a non-negative force for any bore |
| ForceModel.IceForceIncreasingInBore | Torque_calculatore.py:96-99 | the force is non-decreasing in the bore, and strictly increasing under positive pressure |
| ForceModel.IceForceIncreasingInPressure | Torque_calculatore.py:96-99 | the force is non-decreasing in the pressure, and strictly increasing for a non-zero bore |
| ForceModel.SolenoidForceBounds | Torque_calculatore.py:101-103 | with efficiency in [0, 1], the solenoid force lies between 0 and the entered force |
| ForceModel.SolenoidForceIncreasingInEfficiency | Torque_calculatore.py:102-103 | more efficiency never gives less solenoid force |
| ForceModel.ForcePerPistonNonNegative | Torque_calculatore.py:93-103 | inputs the widgets admit give a non-negative force per piston on both branches |
| EngineAggregator.HpClosedForm | Torque_calculatore.py:124-126 | hp = force_per_piston·total_pistons·crank_radius·rpm/5252 |
| EngineAggregator.AggregationNonNegative | Torque_calculatore.py:124-126 | non-negative force, piston count, crank radius and rpm give non-negative total force, torque and hp |
| EngineAggregator.HpZeroAtRest | Torque_calculatore.py:126 | hp is 0 at rpm 0 whatever the torque |
| EngineAggregator.HpIncreasingInRpm | Torque_calculatore.py:126 | for non-negative torque, hp is non-decreasing in rpm, and strictly increasing for positive torque |
| EngineAggregator.TorqueFromHp | Torque_calculatore.py:126 | at positive rpm, hp·5252/rpm recovers the torque |
| EngineAggregator.HpExample | Torque_calculatore.py:126 | 500 Nm at 3000 rpm gives 1500000/5252 hp, between 285.6 and 285.7 |
| Decimal.NatToDecimal | Torque_calculatore.py:115 | the rendering of a gear number is a non-empty digit string with no leading zero, one digit exactly for numbers below 10 |
| Decimal.DecimalRoundTrip | Torque_calculatore.py:115 | reading the rendering of n back gives n |
| Decimal.NatToDecimalInjective | Torque_calculatore.py:115 | different numbers render differently |
| OrderedDict.Insert | Torque_calculatore.py:115 | `d[k] = v` on a new key appends (k, v) at the end of the iteration order; on an existing key it keeps the order of the keys |
| OrderedDict.InsertLookup | Torque_calculatore.py:133 | after `d[k] = v`, `d[k]` is v and every other key looks up as before |
| OrderedDict.InsertKeepsDistinct | Torque_calculatore.py:133 | assignment keeps the keys pairwise distinct |
| Drivetrain.GearNameInjective | Torque_calculatore.py:115 | different gear numbers give different keys "Gear i" |
| Drivetrain.GearTableDistinct | Torque_calculatore.py:113-115 | the gear-ratio table has no key twice |
| Drivetrain.GearTablePrefix | Torque_calculatore.py:114-115 | one more iteration appends exactly the entry ("Gear i", ratio_i) |
| Drivetrain.NextGearIsNew | Torque_calculatore.py:115 | the key written in iteration i is not yet in the table |
| Drivetrain.GearTableFirstRatio | Torque_calculatore.py:139 | the first value of a non-empty table is the ratio entered for Gear 1 |
| Drivetrain.BuildGearRatios | Torque_calculatore.py:113-115 | the loop yields num_gears entries "Gear 1".."Gear n" in order, each holding its entered ratio, with distinct keys |
| Drivetrain.BuildGearboxOutput | Torque_calculatore.py:129-136 | the loop yields the same gears in the same order; per gear, gearbox torque = engine torque·ratio and wheel torque = engine torque·ratio·final drive |
| Drivetrain.GearboxTableKeys | Torque_calculatore.py:129-136 | the gearbox output has exactly the keys of the ratio table, in order |
| Drivetrain.GearboxOfGearTable | Torque_calculatore.py:129-136 | for the gear-ratio table, entry k of the output is "Gear k+1" with gearbox torque = engine torque·ratio_k and wheel torque = gearbox torque·final drive |
| Drivetrain.WheelTorqueIsFinalDriveTimesGearbox | Torque_calculatore.py:131-132 | every gear's wheel torque is its gearbox torque times the final drive |
| Drivetrain.TorqueIncreasingInRatio | Torque_calculatore.py:131-132 | for non-negative torque and final drive, a larger ratio never gives less gearbox or wheel torque |
| Drivetrain.GearboxTableNonNegative | Torque_calculatore.py:131-132 | non-negative torque, ratios and final drive give non-negative torques in every gear |
| Drivetrain.GearboxExample | Torque_calculatore.py:129-136 | ratios 3.5 and 2.1, final drive 3.9 and 500 Nm give gearbox/wheel torques 1750/6825 and 1050/4095 |
| SpeedEstimator.FirstGearRatio | Torque_calculatore.py:139 | `list(gear_ratios.values())[0]` is the value of the first entry inserted |
| SpeedEstimator.OverallRatioAtLeast | Torque_calculatore.py:140 | with both ratios at least 0.1, the denominator gear1·final drive is at least 0.01 |
| SpeedEstimator.WheelRpmTimesRatio | Torque_calculatore.py:140 | wheel rpm times the overall ratio is the engine rpm |
| SpeedEstimator.SpeedClosedForm | Torque_calculatore.py:140-143 | speed_mps = rpm·pi·d/(60·gear1·final drive) and speed_kph = 3.6·speed_mps |
| SpeedEstimator.SpeedZeroAtRest | Torque_calculatore.py:140-143 | rpm 0 gives speed 0 in both units |
| SpeedEstimator.SpeedSign | Torque_calculatore.py:140-143 | non-negative rpm gives non-negative speed, and positive rpm gives positive speed |
| SpeedEstimator.SpeedProportionalToRpm | Torque_calculatore.py:140-143 | speed is rpm times the speed at 1 rpm |
| SpeedEstimator.SpeedIncreasingInRpm | Torque_calculatore.py:140-143 | speed is non-decreasing in rpm, strictly increasing for strictly more rpm |
| SpeedEstimator.RpmFromSpeed | Torque_calculatore.py:140-142 | speed·60/circumference·overall ratio recovers the rpm |
| SpeedEstimator.SpeedExample | Torque_calculatore.py:139-143 | 3000 rpm, ratio 3.5, final drive 3.9 and a 0.65 m tire give between 26.9 and 27.0 km/h |
| TorqueCalculator.Run | Torque_calculatore.py:93-143 | running the script's statements, including both loops, gives exactly the derived values |
| TorqueCalculator.FiringPistonsIrrelevant | Torque_calculatore.py:107 | changing the number of firing pistons changes no derived value |
| TorqueCalculator.GearRatiosShape | Torque_calculatore.py:112-115 | the ratio table has num_gears distinct keys "Gear 1".."Gear n" in order, with the entered ratios |
| TorqueCalculator.GearboxOutputShape | Torque_calculatore.py:129-136 | the gearbox output has num_gears entries with the table's keys in order, each holding the torques of that gear's entered ratio |
| TorqueCalculator.SpeedWellDefined | Torque_calculatore.py:139-140 | the gear table is non-empty, its first value is Gear 1's ratio, and the denominator is at least 0.01 |
| TorqueCalculator.SpeedUsesOnlyFirstGear | Torque_calculatore.py:139-143 | replacing every gear after the first, and their number, leaves wheel rpm and both speeds unchanged |
| TorqueCalculator.DerivedNonNegative | Torque_calculatore.py:93-143 | for any inputs the widgets admit, every displayed quantity is non-negative, including every gear's torques |
| TorqueCalculator.AtRestNoPowerNoSpeed | Torque_calculatore.py:126-143 | at rpm 0 the hp and both speeds are 0 |

## Left out

- The Streamlit interface is not modelled: styling, HTML, the `styled_input` wrapper, the radio button, the slider and the title. The widgets are modelled only by the bounds they enforce (`WidgetBounds`). Their values are parameters.
- `set_background` is not modelled. It reads an image file and base64-encodes it, which is I/O and presentation only.
- The result display with two decimals (lines 146-167) is not modelled. It is presentation only.
- Floating point is not modelled. Arithmetic is over exact reals, and pi is the rational constant with `math.pi`'s printed digits. IEEE rounding and overflow are therefore outside the model.
- The solenoid force from turns, current and air gap and the radial, naturally aspirated engine model are not modelled. Other scripts in the repository have them; this script does not.
- The Python runtime errors that the widget minimums rule out are not modelled. These are `ZeroDivisionError` at line 140 and `IndexError` at line 139. Callers must meet the corresponding bounds instead.
- TorqueCalculator.GearboxOutputShape: states each gear's torques as `TorquesInGear` of the entered ratio, not as the expanded products. The products are stated by Drivetrain.GearboxOfGearTable and Drivetrain.BuildGearboxOutput.
