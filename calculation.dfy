/**
 * The derived quantities of `controller/meter/calculation.py`: each function reads the meter's
 * nodes and writes its result into the target node through `set_value`, and returns the node
 * dict afterwards, or the `KeyError` a missing dependency raises or the `ValueError` of a square
 * root or arc cosine outside its domain (always before anything is written). Readings are reals in the base unit after SI scaling; `sqrt`, `sin`, `cos`, `atan`
 * and `acos` are parameters.
 */
module MeterCalculation {
  import opened Wrappers
  import opened Strings
  import opened General
  import opened UnitScaling
  import opened MeterUtil
  import opened NodeSnapshot
  import opened MeterValidation

  /** The functions of Python's `math` module the calculations call, left uninterpreted. */
  datatype Maths = Maths(sqrt: real -> real, sin: real -> real, cos: real -> real, atan: real -> real, acos: real -> real)

  /** `get_numeric_value` of the node under a key. */
  function ValueAt(nodes: Nodes, key: string): Option<real>
    requires key in nodes
  {
    GetNumericValue(Some(nodes[key]))
  }

  /** Both nodes exist and hold numeric values. */
  predicate HaveValues(nodes: Nodes, keys: seq<string>)
  {
    forall k :: k in keys ==> k in nodes && ValueAt(nodes, k).Some?
  }

  /** `get_scaled_value(value, node.config.unit)` of the node under a key. */
  function ScaledAt(nodes: Nodes, key: string): real
    requires key in nodes && ValueAt(nodes, key).Some?
  {
    GetScaledValue(ValueAt(nodes, key).value, nodes[key].config.unit)
  }

  /** `node.processor.set_value(reading)` on the target; no other node changes. */
  function SetTarget(nodes: Nodes, target: string, reading: Reading, now: real): (r: Nodes)
    requires target in nodes
    ensures r.Keys == nodes.Keys && r[target] == SetReading(nodes[target], reading, now)
    ensures forall k :: k in nodes && k != target ==> r[k] == nodes[k]
  {
    nodes[target := SetReading(nodes[target], reading, now)]
  }

  /** A base-unit value written in the target's unit, or `None`. */
  function OutputReading(value: Option<real>, unit: Option<string>): Reading
  {
    if value.Some? then Number(ApplyOutputScaling(value.value, unit)) else NoReading
  }

  /**
   * The total loop of `calculate_energy` and `calculate_power`: the sum of the phases'
   * base-unit values; `None` at the first phase without a value; the `KeyError` of the first
   * absent phase.
   */
  function PhaseTotal(nodes: Nodes, keys: seq<string>): (r: Result<Option<real>, CalcError>)
    ensures r.Err? ==> r.error.KeyError? && r.error.key in keys && r.error.key !in nodes
    ensures r == Ok(None) ==> exists k :: k in keys && k in nodes && ValueAt(nodes, k).None?
  {
    if keys == [] then Ok(Some(0.0))
    else if keys[0] !in nodes then Err(KeyError(keys[0]))
    else if ValueAt(nodes, keys[0]).None? then Ok(None)
    else
      match PhaseTotal(nodes, keys[1..])
      case Ok(Some(t)) => Ok(Some(ScaledAt(nodes, keys[0]) + t))
      case other => other
  }

  /** Three phases with values add up in the base unit. */
  lemma PhaseTotalSums(nodes: Nodes, a: string, b: string, c: string)
    requires HaveValues(nodes, [a, b, c])
    ensures PhaseTotal(nodes, [a, b, c]) == Ok(Some(ScaledAt(nodes, a) + ScaledAt(nodes, b) + ScaledAt(nodes, c)))
  {
    assert [a, b, c][1..] == [b, c] && [b, c][1..] == [c] && [c][1..] == [];
    assert a in [a, b, c] && b in [a, b, c] && c in [a, b, c];
    assert PhaseTotal(nodes, [c]) == Ok(Some(ScaledAt(nodes, c) + 0.0));
    assert PhaseTotal(nodes, [b, c]) == Ok(Some(ScaledAt(nodes, b) + (ScaledAt(nodes, c) + 0.0)));
  }

  /** A phase after present phases with values that is present without a value makes the total `None`. */
  lemma {:induction false} PhaseTotalNone(nodes: Nodes, keys: seq<string>, i: nat)
    requires i < |keys| && keys[i] in nodes && ValueAt(nodes, keys[i]).None?
    requires HaveValues(nodes, keys[..i])
    ensures PhaseTotal(nodes, keys) == Ok(None)
  {
    if i > 0 {
      assert keys[0] in keys[..i];
      assert keys[1..][..i - 1] == keys[1..i];
      assert forall k :: k in keys[1..i] ==> k in keys[..i];
      PhaseTotalNone(nodes, keys[1..], i - 1);
    }
  }

  function AddTotal(t: real, r: Result<Option<real>, CalcError>): Result<Option<real>, CalcError>
  {
    match r
    case Ok(Some(x)) => Ok(Some(t + x))
    case _ => r
  }

  /** The `for p in ("l1_", "l2_", "l3_")` accumulation loop. */
  method SumPhaseValues(nodes: Nodes, keys: seq<string>) returns (r: Result<Option<real>, CalcError>)
    ensures r == PhaseTotal(nodes, keys)
  {
    var total := 0.0;
    for i := 0 to |keys|
      invariant PhaseTotal(nodes, keys) == AddTotal(total, PhaseTotal(nodes, keys[i..]))
    {
      assert keys[i..][1..] == keys[i + 1..];
      if keys[i] !in nodes {
        return Err(KeyError(keys[i]));
      }
      var value := ValueAt(nodes, keys[i]);
      if value.None? {
        return Ok(None);
      }
      total := total + ScaledAt(nodes, keys[i]);
    }
    return Ok(Some(total));
  }

  /** `elapsed_time / 3600.0 if elapsed_time else 0.0`. */
  function ElapsedHours(n: MeterNode): real
  {
    var e := ElapsedTime(n);
    if e.Some? && e.value != 0.0 then e.value / 3600.0 else 0.0
  }

  /** `calculate_energy(prefix, energy_type, node, meter_nodes, meter_options)`. */
  function CalculateEnergy(prefix: string, energyType: string, target: string, nodes: Nodes,
                           options: EnergyMeterOptions, now: real): (r: Result<Nodes, CalcError>)
    requires target in nodes
    ensures r.Ok? ==> r.value.Keys == nodes.Keys && forall k :: k in nodes && k != target ==> r.value[k] == nodes[k]
    ensures r.Ok? ==> r.value[target].config == nodes[target].config
  {
    var unit := nodes[target].config.unit;
    if prefix == "total_" then
      match PhaseTotal(nodes, PhaseNames(energyType + "_energy"))
      case Err(e) => Err(e)
      case Ok(total) => Ok(SetTarget(nodes, target, OutputReading(total, unit), now))
    else if options.readSeparateForwardReverseEnergy then
      var forward := prefix + "forward_" + energyType + "_energy";
      var reverse := prefix + "reverse_" + energyType + "_energy";
      if forward !in nodes then Err(KeyError(forward))
      else if reverse !in nodes then Err(KeyError(reverse))
      else if ValueAt(nodes, forward).None? || ValueAt(nodes, reverse).None? then Ok(nodes)
      else Ok(SetTarget(nodes, target, Number(ApplyOutputScaling(ScaledAt(nodes, forward) - ScaledAt(nodes, reverse), unit)), now))
    else if !options.readEnergyFromMeter then
      var power := prefix + energyType + "_power";
      if power !in nodes then Err(KeyError(power))
      else if ValueAt(nodes, power).None? then Ok(nodes)
      else Ok(SetTarget(nodes, target, Number(ApplyOutputScaling(ScaledAt(nodes, power) * ElapsedHours(nodes[power]), unit)), now))
    else Ok(nodes)
  }

  /**
   * A total energy is the sum of its phases in the base unit, rescaled to its own unit; a
   * phase without a value clears it.
   */
  lemma EnergyTotal(energyType: string, target: string, nodes: Nodes, options: EnergyMeterOptions, now: real)
    requires target in nodes
    ensures var keys := PhaseNames(energyType + "_energy");
      && (HaveValues(nodes, keys) ==>
            CalculateEnergy("total_", energyType, target, nodes, options, now)
            == Ok(SetTarget(nodes, target, Number(ApplyOutputScaling(
                 ScaledAt(nodes, keys[0]) + ScaledAt(nodes, keys[1]) + ScaledAt(nodes, keys[2]), nodes[target].config.unit)), now)))
      && (keys[0] in nodes && ValueAt(nodes, keys[0]).None? ==>
            CalculateEnergy("total_", energyType, target, nodes, options, now) == Ok(SetTarget(nodes, target, NoReading, now)))
      && (keys[0] !in nodes ==> CalculateEnergy("total_", energyType, target, nodes, options, now) == Err(KeyError(keys[0])))
  {
    var keys := PhaseNames(energyType + "_energy");
    if HaveValues(nodes, keys) {
      PhaseTotalSums(nodes, keys[0], keys[1], keys[2]);
    }
  }

  /**
   * With separate forward and reverse energy, a (non-total) energy is forward minus reverse
   * in the base unit; when either has no value the target is left as it is.
   */
  lemma EnergyFromForwardReverse(prefix: string, energyType: string, target: string, nodes: Nodes,
                                 options: EnergyMeterOptions, now: real)
    requires target in nodes && prefix != "total_" && options.readSeparateForwardReverseEnergy
    requires prefix + "forward_" + energyType + "_energy" in nodes && prefix + "reverse_" + energyType + "_energy" in nodes
    ensures var forward := prefix + "forward_" + energyType + "_energy";
      var reverse := prefix + "reverse_" + energyType + "_energy";
      && (ValueAt(nodes, forward).None? || ValueAt(nodes, reverse).None? ==>
            CalculateEnergy(prefix, energyType, target, nodes, options, now) == Ok(nodes))
      && (ValueAt(nodes, forward).Some? && ValueAt(nodes, reverse).Some? ==>
            CalculateEnergy(prefix, energyType, target, nodes, options, now).Ok? &&
            CalculateEnergy(prefix, energyType, target, nodes, options, now).value[target]
            == SetReading(nodes[target], Number(ApplyOutputScaling(ScaledAt(nodes, forward) - ScaledAt(nodes, reverse),
                                                                   nodes[target].config.unit)), now))
  {
  }

  /**
   * Without separate energies and without reading energy from the meter, energy is power
   * times the power node's elapsed hours, and zero hours when it has no elapsed time; reading
   * energy from the meter leaves the target as it is.
   */
  lemma EnergyFromPower(prefix: string, energyType: string, target: string, nodes: Nodes,
                        options: EnergyMeterOptions, now: real)
    requires target in nodes && prefix != "total_" && !options.readSeparateForwardReverseEnergy
    ensures options.readEnergyFromMeter ==> CalculateEnergy(prefix, energyType, target, nodes, options, now) == Ok(nodes)
    ensures var power := prefix + energyType + "_power";
      !options.readEnergyFromMeter && power in nodes && ValueAt(nodes, power).Some? ==>
        && CalculateEnergy(prefix, energyType, target, nodes, options, now).Ok?
        && CalculateEnergy(prefix, energyType, target, nodes, options, now).value[target]
           == SetReading(nodes[target], Number(ApplyOutputScaling(ScaledAt(nodes, power) * ElapsedHours(nodes[power]),
                                                                  nodes[target].config.unit)), now)
        && (ElapsedTime(nodes[power]).None? || ElapsedTime(nodes[power]) == Some(0.0) ==> ElapsedHours(nodes[power]) == 0.0)
  {
  }

  /**
   * `_calculate_apparent_power` as written: line 144 reads the active power node a second time
   * where the reactive power node is meant.
   */
  function ApparentPowerAsWritten(prefix: string, nodes: Nodes, maths: Maths): Option<real>
  {
    var v := prefix + "voltage";
    var i := prefix + "current";
    var p := prefix + "active_power";
    var q := prefix + "reactive_power";
    if p in nodes && q in nodes then
      var pValue := ValueAt(nodes, p);
      var qValue := ValueAt(nodes, p);
      if pValue.Some? && qValue.Some? then
        var scaledP := GetScaledValue(pValue.value, nodes[p].config.unit);
        var scaledQ := GetScaledValue(qValue.value, nodes[q].config.unit);
        Some(maths.sqrt(scaledP * scaledP + scaledQ * scaledQ))
      else None
    else if v in nodes && i in nodes && HaveValues(nodes, [v, i]) then Some(ScaledAt(nodes, v) * ScaledAt(nodes, i))
    else None
  }

  /** `_calculate_apparent_power` as intended: S = sqrt(P² + Q²), else S = V × I. */
  function ApparentPower(prefix: string, nodes: Nodes, maths: Maths): (r: Option<real>)
    ensures r.Some? ==>
      if prefix + "active_power" in nodes && prefix + "reactive_power" in nodes
      then HaveValues(nodes, [prefix + "active_power", prefix + "reactive_power"])
      else prefix + "voltage" in nodes && prefix + "current" in nodes && HaveValues(nodes, [prefix + "voltage", prefix + "current"])
  {
    var v := prefix + "voltage";
    var i := prefix + "current";
    var p := prefix + "active_power";
    var q := prefix + "reactive_power";
    if p in nodes && q in nodes then
      if HaveValues(nodes, [p, q]) then Some(maths.sqrt(ScaledAt(nodes, p) * ScaledAt(nodes, p) + ScaledAt(nodes, q) * ScaledAt(nodes, q)))
      else None
    else if v in nodes && i in nodes && HaveValues(nodes, [v, i]) then Some(ScaledAt(nodes, v) * ScaledAt(nodes, i))
    else None
  }

  /**
   * As written, the reactive power's value is never read: with an active power value and a
   * reactive power node that has no value, apparent power is still computed, from P and the
   * reactive node's unit alone.
   */
  lemma ApparentPowerAsWrittenIgnoresReactive(prefix: string, nodes: Nodes, maths: Maths)
    requires prefix + "active_power" in nodes && prefix + "reactive_power" in nodes
    requires ValueAt(nodes, prefix + "active_power").Some? && ValueAt(nodes, prefix + "reactive_power").None?
    ensures ApparentPowerAsWritten(prefix, nodes, maths).Some?
    ensures ApparentPower(prefix, nodes, maths).None?
  {
  }

  /**
   * As intended, apparent power is sqrt(P² + Q²) from both power nodes; when both power nodes
   * exist but one lacks a value the result is `None`, and the V × I branch is not tried even
   * when voltage and current have values.
   */
  lemma ApparentPowerPrefersPowerNodes(prefix: string, nodes: Nodes, maths: Maths)
    requires prefix + "active_power" in nodes && prefix + "reactive_power" in nodes
    ensures var p := prefix + "active_power";
      var q := prefix + "reactive_power";
      && (HaveValues(nodes, [p, q]) ==>
            ApparentPower(prefix, nodes, maths) == Some(maths.sqrt(ScaledAt(nodes, p) * ScaledAt(nodes, p) + ScaledAt(nodes, q) * ScaledAt(nodes, q))))
      && (!HaveValues(nodes, [p, q]) ==> ApparentPower(prefix, nodes, maths).None?)
  {
  }

  /** Without both power nodes, apparent power is V × I when both have values, else `None`. */
  lemma ApparentPowerFromVoltageCurrent(prefix: string, nodes: Nodes, maths: Maths)
    requires !(prefix + "active_power" in nodes && prefix + "reactive_power" in nodes)
    ensures var v := prefix + "voltage";
      var i := prefix + "current";
      ApparentPower(prefix, nodes, maths) ==
        if HaveValues(nodes, [v, i]) then Some(ScaledAt(nodes, v) * ScaledAt(nodes, i)) else None
  {
  }

  /** a² − b² of two nodes with values, the argument of `math.sqrt(scaled_a**2 - scaled_b**2)`. */
  function SquareDifference(nodes: Nodes, a: string, b: string): real
    requires HaveValues(nodes, [a, b])
  {
    ScaledAt(nodes, a) * ScaledAt(nodes, a) - ScaledAt(nodes, b) * ScaledAt(nodes, b)
  }

  /** `math.sqrt(a² − b²)` of two nodes with values raises `ValueError` exactly when b² exceeds a². */
  predicate SqrtOfDifferenceFails(nodes: Nodes, a: string, b: string)
  {
    HaveValues(nodes, [a, b]) && SquareDifference(nodes, a, b) < 0.0
  }

  /** `math.acos(pf)` of a node with a value raises `ValueError` exactly outside [-1, 1]. */
  predicate AcosFails(nodes: Nodes, pf: string)
  {
    HaveValues(nodes, [pf]) && (ScaledAt(nodes, pf) < -1.0 || ScaledAt(nodes, pf) > 1.0)
  }

  /**
   * `_calculate_active_power`: P = sqrt(S² − Q²) from S and Q, else P = V × I × PF; the square
   * root raises `ValueError` when Q² exceeds S².
   */
  function ActivePower(prefix: string, nodes: Nodes, maths: Maths): (r: Result<Option<real>, CalcError>)
    ensures r.Err? <==>
      prefix + "apparent_power" in nodes && prefix + "reactive_power" in nodes
      && SqrtOfDifferenceFails(nodes, prefix + "apparent_power", prefix + "reactive_power")
    ensures r.Err? ==> r.error == MathDomainError
    ensures r.Ok? && r.value.Some? ==>
      if prefix + "apparent_power" in nodes && prefix + "reactive_power" in nodes
      then && HaveValues(nodes, [prefix + "apparent_power", prefix + "reactive_power"])
           && SquareDifference(nodes, prefix + "apparent_power", prefix + "reactive_power") >= 0.0
           && r.value.value == maths.sqrt(SquareDifference(nodes, prefix + "apparent_power", prefix + "reactive_power"))
      else && prefix + "voltage" in nodes && prefix + "current" in nodes && prefix + "power_factor" in nodes
           && HaveValues(nodes, [prefix + "voltage", prefix + "current", prefix + "power_factor"])
           && r.value.value == ScaledAt(nodes, prefix + "voltage") * ScaledAt(nodes, prefix + "current") * ScaledAt(nodes, prefix + "power_factor")
  {
    var v := prefix + "voltage";
    var i := prefix + "current";
    var pf := prefix + "power_factor";
    var s := prefix + "apparent_power";
    var q := prefix + "reactive_power";
    if s in nodes && q in nodes then
      if !HaveValues(nodes, [s, q]) then Ok(None)
      else
        var d := SquareDifference(nodes, s, q);
        if d < 0.0 then Err(MathDomainError) else Ok(Some(maths.sqrt(d)))
    else if v in nodes && i in nodes && pf in nodes && HaveValues(nodes, [v, i, pf]) then
      Ok(Some(ScaledAt(nodes, v) * ScaledAt(nodes, i) * ScaledAt(nodes, pf)))
    else Ok(None)
  }

  /**
   * `_calculate_reactive_power`: Q = sqrt(S² − P²) from S and P, else Q = V × I × sin(acos(PF));
   * the square root raises `ValueError` when P² exceeds S², the arc cosine when PF is outside [-1, 1].
   */
  function ReactivePower(prefix: string, nodes: Nodes, maths: Maths): (r: Result<Option<real>, CalcError>)
    ensures r.Err? <==>
      if prefix + "apparent_power" in nodes && prefix + "active_power" in nodes
      then SqrtOfDifferenceFails(nodes, prefix + "apparent_power", prefix + "active_power")
      else && prefix + "voltage" in nodes && prefix + "current" in nodes && prefix + "power_factor" in nodes
           && HaveValues(nodes, [prefix + "voltage", prefix + "current"]) && AcosFails(nodes, prefix + "power_factor")
    ensures r.Err? ==> r.error == MathDomainError
    ensures r.Ok? && r.value.Some? ==>
      if prefix + "apparent_power" in nodes && prefix + "active_power" in nodes
      then && HaveValues(nodes, [prefix + "apparent_power", prefix + "active_power"])
           && SquareDifference(nodes, prefix + "apparent_power", prefix + "active_power") >= 0.0
           && r.value.value == maths.sqrt(SquareDifference(nodes, prefix + "apparent_power", prefix + "active_power"))
      else && prefix + "voltage" in nodes && prefix + "current" in nodes && prefix + "power_factor" in nodes
           && HaveValues(nodes, [prefix + "voltage", prefix + "current", prefix + "power_factor"])
           && -1.0 <= ScaledAt(nodes, prefix + "power_factor") <= 1.0
           && r.value.value == ScaledAt(nodes, prefix + "voltage") * ScaledAt(nodes, prefix + "current")
                                * maths.sin(maths.acos(ScaledAt(nodes, prefix + "power_factor")))
  {
    var v := prefix + "voltage";
    var i := prefix + "current";
    var pf := prefix + "power_factor";
    var s := prefix + "apparent_power";
    var p := prefix + "active_power";
    if s in nodes && p in nodes then
      if !HaveValues(nodes, [s, p]) then Ok(None)
      else
        var d := SquareDifference(nodes, s, p);
        if d < 0.0 then Err(MathDomainError) else Ok(Some(maths.sqrt(d)))
    else if v in nodes && i in nodes && pf in nodes && HaveValues(nodes, [v, i, pf]) then
      var x := ScaledAt(nodes, pf);
      if x < -1.0 || x > 1.0 then Err(MathDomainError)
      else Ok(Some(ScaledAt(nodes, v) * ScaledAt(nodes, i) * maths.sin(maths.acos(x))))
    else Ok(None)
  }

  /**
   * Active and reactive power also prefer the power-node branch whenever both its nodes exist:
   * they then give no value exactly when one of those nodes has none, never falling back to V × I.
   */
  lemma PowerPrefersPowerNodes(prefix: string, nodes: Nodes, maths: Maths)
    ensures prefix + "apparent_power" in nodes && prefix + "reactive_power" in nodes ==>
      (ActivePower(prefix, nodes, maths) == Ok(None) <==> !HaveValues(nodes, [prefix + "apparent_power", prefix + "reactive_power"]))
    ensures prefix + "apparent_power" in nodes && prefix + "active_power" in nodes ==>
      (ReactivePower(prefix, nodes, maths) == Ok(None) <==> !HaveValues(nodes, [prefix + "apparent_power", prefix + "active_power"]))
  {
  }

  /** `calculate_power(prefix, power_type, node, meter_nodes)`. */
  function CalculatePower(prefix: string, powerType: string, target: string, nodes: Nodes, maths: Maths,
                          now: real): (r: Result<Nodes, CalcError>)
    requires target in nodes
    ensures r.Ok? ==> r.value.Keys == nodes.Keys && forall k :: k in nodes && k != target ==> r.value[k] == nodes[k]
    ensures r.Ok? ==> r.value[target].config == nodes[target].config
    ensures prefix == "total_" && r.Err? ==> r.error.KeyError?
    ensures prefix != "total_" ==>
      (r.Err? <==> (powerType == "active" && ActivePower(prefix, nodes, maths).Err?)
                   || (powerType == "reactive" && ReactivePower(prefix, nodes, maths).Err?))
    ensures prefix != "total_" && r.Err? ==> r.error == MathDomainError
  {
    var unit := nodes[target].config.unit;
    if prefix == "total_" then
      match PhaseTotal(nodes, PhaseNames(powerType + "_power"))
      case Err(e) => Err(e)
      case Ok(total) => Ok(SetTarget(nodes, target, OutputReading(total, unit), now))
    else if powerType == "apparent" then Ok(SetTarget(nodes, target, OutputReading(ApparentPower(prefix, nodes, maths), unit), now))
    else if powerType == "active" || powerType == "reactive" then
      var value := if powerType == "active" then ActivePower(prefix, nodes, maths) else ReactivePower(prefix, nodes, maths);
      if value.Err? then Err(value.error) else Ok(SetTarget(nodes, target, OutputReading(value.value, unit), now))
    else Ok(nodes)
  }

  /**
   * A total power is the sum of its phases in the base unit, rescaled to its own unit; a phase
   * without a value clears it; an absent phase raises.
   */
  lemma PowerTotal(powerType: string, target: string, nodes: Nodes, maths: Maths, now: real)
    requires target in nodes
    ensures var keys := PhaseNames(powerType + "_power");
      && (HaveValues(nodes, keys) ==>
            CalculatePower("total_", powerType, target, nodes, maths, now)
            == Ok(SetTarget(nodes, target, Number(ApplyOutputScaling(
                 ScaledAt(nodes, keys[0]) + ScaledAt(nodes, keys[1]) + ScaledAt(nodes, keys[2]), nodes[target].config.unit)), now)))
      && (keys[0] in nodes && ValueAt(nodes, keys[0]).None? ==>
            CalculatePower("total_", powerType, target, nodes, maths, now) == Ok(SetTarget(nodes, target, NoReading, now)))
      && (keys[0] !in nodes ==> CalculatePower("total_", powerType, target, nodes, maths, now) == Err(KeyError(keys[0])))
  {
    var keys := PhaseNames(powerType + "_power");
    if HaveValues(nodes, keys) {
      PhaseTotalSums(nodes, keys[0], keys[1], keys[2]);
    }
  }

  /** The power factor of an active and a reactive power: 0.0 when there is no active power. */
  function PowerFactorOf(p: real, q: real, maths: Maths): (pf: real)
    ensures p == 0.0 ==> pf == 0.0
  {
    if p == 0.0 then 0.0 else maths.cos(maths.atan(q / p))
  }

  /**
   * The total loop of `calculate_pf`: per phase, the active then the reactive power node must
   * exist; a missing value ends it with `None`; otherwise the sums of both.
   */
  function PowerTotals(nodes: Nodes, phases: seq<string>): (r: Result<Option<(real, real)>, CalcError>)
  {
    if phases == [] then Ok(Some((0.0, 0.0)))
    else
      var p := phases[0] + "active_power";
      var q := phases[0] + "reactive_power";
      if p !in nodes then Err(KeyError(p))
      else if q !in nodes then Err(KeyError(q))
      else if ValueAt(nodes, p).None? || ValueAt(nodes, q).None? then Ok(None)
      else
        match PowerTotals(nodes, phases[1..])
        case Ok(Some(t)) => Ok(Some((ScaledAt(nodes, p) + t.0, ScaledAt(nodes, q) + t.1)))
        case other => other
  }

  function AddTotals(p: real, q: real, r: Result<Option<(real, real)>, CalcError>): Result<Option<(real, real)>, CalcError>
  {
    match r
    case Ok(Some(t)) => Ok(Some((p + t.0, q + t.1)))
    case _ => r
  }

  /** The `total_p` / `total_q` accumulation loop of `calculate_pf`. */
  method SumPhasePowers(nodes: Nodes, phases: seq<string>) returns (r: Result<Option<(real, real)>, CalcError>)
    ensures r == PowerTotals(nodes, phases)
  {
    var totalP := 0.0;
    var totalQ := 0.0;
    for i := 0 to |phases|
      invariant PowerTotals(nodes, phases) == AddTotals(totalP, totalQ, PowerTotals(nodes, phases[i..]))
    {
      assert phases[i..][1..] == phases[i + 1..];
      var p := phases[i] + "active_power";
      var q := phases[i] + "reactive_power";
      if p !in nodes {
        return Err(KeyError(p));
      }
      if q !in nodes {
        return Err(KeyError(q));
      }
      if ValueAt(nodes, p).None? || ValueAt(nodes, q).None? {
        return Ok(None);
      }
      totalP := totalP + ScaledAt(nodes, p);
      totalQ := totalQ + ScaledAt(nodes, q);
    }
    return Ok(Some((totalP, totalQ)));
  }

  /** `calculate_pf(prefix, node, meter_nodes)`. */
  function CalculatePf(prefix: string, target: string, nodes: Nodes, maths: Maths, now: real): (r: Result<Nodes, CalcError>)
    requires target in nodes
    ensures r.Ok? ==> r.value.Keys == nodes.Keys && forall k :: k in nodes && k != target ==> r.value[k] == nodes[k]
    ensures r.Ok? ==> r.value[target].config == nodes[target].config
  {
    if prefix == "total_" then
      match PowerTotals(nodes, ["l1_", "l2_", "l3_"])
      case Err(e) => Err(e)
      case Ok(None) => Ok(SetTarget(nodes, target, NoReading, now))
      case Ok(Some(t)) => Ok(SetTarget(nodes, target, Number(PowerFactorOf(t.0, t.1, maths)), now))
    else
      var p := prefix + "active_power";
      var q := prefix + "reactive_power";
      if p !in nodes then Err(KeyError(p))
      else if q !in nodes then Err(KeyError(q))
      else if ValueAt(nodes, p).None? || ValueAt(nodes, q).None? then Ok(SetTarget(nodes, target, NoReading, now))
      else Ok(SetTarget(nodes, target, Number(PowerFactorOf(ScaledAt(nodes, p), ScaledAt(nodes, q), maths)), now))
  }

  /**
   * A phase's power factor is 0.0 when its active power is 0, `None` when either power has no
   * value, and cos(atan(Q / P)) otherwise.
   */
  lemma PhasePowerFactor(prefix: string, target: string, nodes: Nodes, maths: Maths, now: real)
    requires target in nodes && prefix != "total_"
    requires prefix + "active_power" in nodes && prefix + "reactive_power" in nodes
    ensures var p := prefix + "active_power";
      var q := prefix + "reactive_power";
      var r := CalculatePf(prefix, target, nodes, maths, now);
      && r.Ok?
      && (!HaveValues(nodes, [p, q]) ==> r.value[target] == SetReading(nodes[target], NoReading, now))
      && (HaveValues(nodes, [p, q]) && ScaledAt(nodes, p) == 0.0 ==> r.value[target] == SetReading(nodes[target], Number(0.0), now))
      && (HaveValues(nodes, [p, q]) && ScaledAt(nodes, p) != 0.0 ==>
            r.value[target] == SetReading(nodes[target], Number(maths.cos(maths.atan(ScaledAt(nodes, q) / ScaledAt(nodes, p)))), now))
  {
  }

  /**
   * The total power factor is that of the summed phase powers, 0.0 when the active sum is 0,
   * and `None` when a phase lacks a value.
   */
  lemma TotalPowerFactor(target: string, nodes: Nodes, maths: Maths, now: real)
    requires target in nodes
    ensures var r := CalculatePf("total_", target, nodes, maths, now);
      && (PowerTotals(nodes, ["l1_", "l2_", "l3_"]) == Ok(None) ==> r == Ok(SetTarget(nodes, target, NoReading, now)))
      && (forall t: (real, real) :: PowerTotals(nodes, ["l1_", "l2_", "l3_"]) == Ok(Some(t)) && t.0 == 0.0 ==>
            r == Ok(SetTarget(nodes, target, Number(0.0), now)))
  {
  }

  /** Both powers of every phase with values add up to the totals. */
  lemma {:induction false} PowerTotalsSum(nodes: Nodes, phases: seq<string>)
    requires forall ph :: ph in phases ==> HaveValues(nodes, [ph + "active_power", ph + "reactive_power"])
    ensures PowerTotals(nodes, phases).Ok? && PowerTotals(nodes, phases).value.Some?
  {
    if phases != [] {
      assert phases[0] in phases;
      assert forall ph :: ph in phases[1..] ==> ph in phases;
      PowerTotalsSum(nodes, phases[1..]);
    }
  }

  /** `calculate_pf_direction`'s choice of direction. */
  function PfDirection(prefix: string, nodes: Nodes, options: EnergyMeterOptions): (r: PowerFactorDirection)
    ensures r == UNITARY <==> prefix + "power_factor" in nodes && ValueIsOne(nodes[prefix + "power_factor"])
  {
    var pf := prefix + "power_factor";
    var er := prefix + "reactive_energy";
    var q := prefix + "reactive_power";
    if pf in nodes && ValueIsOne(nodes[pf]) then UNITARY
    else if options.negativeReactivePower then
      if q in nodes && ValueAt(nodes, q).Some? then (if ValueAt(nodes, q).value > 0.0 then LAGGING else LEADING)
      else UNKNOWN
    else if options.readSeparateForwardReverseEnergy then
      if er in nodes && IsNumericNode(nodes[er]) then
        if nodes[er].proc.num.positiveDirection then LAGGING
        else if nodes[er].proc.num.negativeDirection then LEADING
        else UNKNOWN
      else UNKNOWN
    else UNKNOWN
  }

  /**
   * A power factor of exactly 1 gives UNITARY whatever the options. Otherwise, with negative
   * reactive power, the sign of Q decides (positive is LAGGING) and a missing Q gives UNKNOWN;
   * failing that, with separate energies, the reactive energy's direction flags decide; else
   * UNKNOWN. LAGGING and LEADING are only ever derived from Q or the reactive energy.
   */
  lemma PfDirectionCases(prefix: string, nodes: Nodes, options: EnergyMeterOptions)
    ensures var d := PfDirection(prefix, nodes, options);
      var pf := prefix + "power_factor";
      var q := prefix + "reactive_power";
      var er := prefix + "reactive_energy";
      && (d == UNITARY <==> pf in nodes && ValueIsOne(nodes[pf]))
      && (d == LAGGING ==>
            (options.negativeReactivePower && q in nodes && ValueAt(nodes, q).Some? && ValueAt(nodes, q).value > 0.0)
            || (!options.negativeReactivePower && options.readSeparateForwardReverseEnergy && er in nodes
                && IsNumericNode(nodes[er]) && nodes[er].proc.num.positiveDirection))
      && (d == LEADING ==>
            (options.negativeReactivePower && q in nodes && ValueAt(nodes, q).Some? && ValueAt(nodes, q).value <= 0.0)
            || (!options.negativeReactivePower && options.readSeparateForwardReverseEnergy && er in nodes
                && IsNumericNode(nodes[er]) && nodes[er].proc.num.negativeDirection))
      && (!options.negativeReactivePower && !options.readSeparateForwardReverseEnergy ==> d == UNITARY || d == UNKNOWN)
  {
  }

  /**
   * `calculate_pf_direction(prefix, node, meter_nodes, meter_options)`: the direction's name is
   * written to the target; on UNITARY a numeric reactive-energy node also has its direction
   * flags reset.
   */
  function CalculatePfDirection(prefix: string, target: string, nodes: Nodes, options: EnergyMeterOptions,
                                now: real): (r: Nodes)
    requires target in nodes
    ensures r.Keys == nodes.Keys
    ensures r[target].config == nodes[target].config
    ensures r[target] == SetReading(nodes[target], Text(PowerFactorDirectionValue(PfDirection(prefix, nodes, options))), now)
      || target == prefix + "reactive_energy"
    ensures forall k :: k in nodes && k != target && k != prefix + "reactive_energy" ==> r[k] == nodes[k]
    ensures var er := prefix + "reactive_energy";
      er in nodes && er != target ==>
        r[er] == if PfDirection(prefix, nodes, options) == UNITARY then ResetNodeDirection(nodes[er]) else nodes[er]
  {
    var direction := PfDirection(prefix, nodes, options);
    var written := SetTarget(nodes, target, Text(PowerFactorDirectionValue(direction)), now);
    var er := prefix + "reactive_energy";
    if direction == UNITARY && er in written && IsNumericNode(written[er]) then
      written[er := ResetNodeDirection(written[er])]
    else written
  }

  /** What a calculated node is computed by. */
  datatype CalcMethod = EnergyCalc(energyType: string) | PowerCalc(powerType: string) | PfDirectionCalc | PfCalc

  /** `calculation_methods`: name fragments in the order they are tried. */
  const CALCULATION_METHODS: seq<(string, CalcMethod)> := [
    ("_reactive_energy", EnergyCalc("reactive")),
    ("_active_energy", EnergyCalc("active")),
    ("_active_power", PowerCalc("active")),
    ("_reactive_power", PowerCalc("reactive")),
    ("_apparent_power", PowerCalc("apparent")),
    ("_power_factor_direction", PfDirectionCalc),
    ("_power_factor", PfCalc)]

  /** The method of the first fragment the name contains. */
  function FirstContained(name: string, methods: seq<(string, CalcMethod)>): (r: Option<CalcMethod>)
    ensures r.None? <==> forall i :: 0 <= i < |methods| ==> !Contains(name, methods[i].0)
  {
    if methods == [] then None
    else if Contains(name, methods[0].0) then Some(methods[0].1)
    else FirstContained(name, methods[1..])
  }

  /** `for key, (func, kwargs) in calculation_methods.items(): if key in node.config.name: ... break`. */
  function Dispatch(name: string): Option<CalcMethod>
  {
    FirstContained(name, CALCULATION_METHODS)
  }

  /** The method chosen is that of the first fragment the name contains. */
  lemma {:induction false} FirstContainedIsFirst(name: string, methods: seq<(string, CalcMethod)>, i: nat)
    requires i < |methods| && Contains(name, methods[i].0)
    requires forall j :: 0 <= j < i ==> !Contains(name, methods[j].0)
    ensures FirstContained(name, methods) == Some(methods[i].1)
  {
    if i > 0 {
      FirstContainedIsFirst(name, methods[1..], i - 1);
    }
  }

  /** A result of the search is the method of some fragment the name contains. */
  lemma {:induction false} FirstContainedFrom(name: string, methods: seq<(string, CalcMethod)>, k: nat)
    requires k < |methods| && Contains(name, methods[k].0)
    ensures exists i :: 0 <= i <= k && FirstContained(name, methods) == Some(methods[i].1)
  {
    if !Contains(name, methods[0].0) {
      FirstContainedFrom(name, methods[1..], k - 1);
      var i :| 0 <= i <= k - 1 && FirstContained(name, methods[1..]) == Some(methods[1..][i].1);
      assert FirstContained(name, methods) == Some(methods[i + 1].1);
    }
  }

  /**
   * A power-factor direction node is never sent to `calculate_pf`, although its name also
   * contains "_power_factor": the direction fragment is tried first.
   */
  lemma DirectionBeforePowerFactor(name: string)
    requires Contains(name, "_power_factor_direction")
    ensures Dispatch(name).Some? && Dispatch(name) != Some(PfCalc)
  {
    FirstContainedFrom(name, CALCULATION_METHODS, 5);
  }

  /** A node whose name holds none of the fragments is not calculated. */
  lemma DispatchNone(name: string)
    requires forall i :: 0 <= i < |CALCULATION_METHODS| ==> !Contains(name, CALCULATION_METHODS[i].0)
    ensures Dispatch(name).None?
  {
  }

  /** The calculation a method stands for, with the node's phase prefix. */
  function ApplyCalculation(m: CalcMethod, target: string, nodes: Nodes, options: EnergyMeterOptions, maths: Maths,
                            now: real): (r: Result<Nodes, CalcError>)
    requires target in nodes
    ensures r.Ok? ==> r.value.Keys == nodes.Keys
  {
    var prefix := GetNodePrefix(nodes[target].config.name);
    match m
    case EnergyCalc(energyType) => CalculateEnergy(prefix, energyType, target, nodes, options, now)
    case PowerCalc(powerType) => CalculatePower(prefix, powerType, target, nodes, maths, now)
    case PfDirectionCalc => Ok(CalculatePfDirection(prefix, target, nodes, options, now))
    case PfCalc => CalculatePf(prefix, target, nodes, maths, now)
  }
}
