/**
 * The legacy `controller/meter.py`: `EnergyMeterNodes` (the name and unit tables and the
 * checks that every calculated node has its inputs) and `EnergyMeter`, a `Device` whose cycle
 * calculates the calculated nodes, logs the nodes whose period has passed and publishes the
 * rest, over the legacy nodes of `controller/device.py`.
 *
 * The node dictionary is a map from node name to a snapshot of the node (its configuration and
 * its state), with the dictionary's iteration order as a sequence of names; the publish and
 * measurement queues are sequences the methods append to; the clock, `round` and the
 * trigonometric functions are parameters.
 */
module LegacyMeter {
  import opened Wrappers
  import opened Values
  import opened Dates
  import opened Strings
  import TimeDb
  import opened NodeModel
  import opened General
  import MeterUtil
  import LegacyNode
  import opened LegacyDevice
  import Meter
  import MeterCalculation

  /** A node of the dictionary: the arguments it was built with and its current fields. */
  datatype Entry = Entry(config: DeviceNodeConfig, state: DeviceNodeState)

  type Entries = map<string, Entry>

  datatype LegacyMeterError =
    | NodeUnknown(name: string)     // `NodeUnknownError`
    | UnitNotValid(name: string)    // `UnitError`
    | NodeMissing(name: string)     // `NodeMissingError`
    | KeyMissing(key: string)       // `KeyError` of a `nodes[key]` lookup
    | NoneOperand                   // `TypeError` of arithmetic or a comparison on `None`
    | NoneObject                    // `AttributeError` of an attribute read on `None`
    | MissingFunction               // `AttributeError`: `functions` has no `subtracte_datetime_mins`
    | ReadingMismatch               // `TypeError` inside `set_value` for a reading of the wrong kind
    | MathDomain                    // `ValueError` of `math.acos` outside [-1, 1]

  // ---------------------------------------------------------------- the tables

  /** `EnergyMeterNodes.VALID_NODES`. */
  function ValidNodes(): set<string>
  {
    {"voltage", "current", "active_power", "reactive_power", "apparent_power", "power_factor",
     "power_factor_direction", "frequency", "active_energy", "reactive_energy", "forward_active_energy",
     "reverse_active_energy", "forward_reactive_energy", "reverse_reactive_energy"}
  }

  /** `EnergyMeterNodes.VALID_UNITS`. */
  function ValidUnits(): map<string, set<string>>
  {
    map["voltage" := {"V"}, "current" := {"mA", "A"}, "active_power" := {"W", "kW"},
        "reactive_power" := {"VAr", "kVAr"}, "apparent_power" := {"VA", "kVA"}, "power_factor" := {""},
        "power_factor_direction" := {""}, "frequency" := {"Hz"}, "active_energy" := {"Wh", "kWh"},
        "reactive_energy" := {"VArh", "kVArh"}, "forward_active_energy" := {"Wh", "kWh"},
        "reverse_active_energy" := {"Wh", "kWh"}, "forward_reactive_energy" := {"VArh", "kVArh"},
        "reverse_reactive_energy" := {"VArh", "kVArh"}]
  }

  /** Every valid base name has a unit set, so `validate_node` never raises `KeyError`. */
  lemma UnitsCoverNodes()
    ensures ValidUnits().Keys == ValidNodes()
  {
  }

  /** `validate_node(node)`. */
  function ValidateNode(name: string, unit: string): (r: Outcome<LegacyMeterError>)
    ensures r == Fail(NodeUnknown(name)) <==> MeterUtil.RemovePhaseString(name) !in ValidNodes()
    ensures r == Fail(UnitNotValid(name)) <==>
              MeterUtil.RemovePhaseString(name) in ValidNodes() && unit !in ValidUnits()[MeterUtil.RemovePhaseString(name)]
    ensures r.Pass? || r == Fail(NodeUnknown(name)) || r == Fail(UnitNotValid(name))
  {
    var base := MeterUtil.RemovePhaseString(name);
    if base !in ValidNodes() then Fail(NodeUnknown(name))
    else if unit !in ValidUnits()[base] then Fail(UnitNotValid(name))
    else Pass
  }

  /** A phase or total prefix in front of a valid base name leaves the check to the base name and unit alone. */
  lemma PrefixedNameValidates(p: string, base: string, unit: string)
    requires p in MeterUtil.PhasePrefixes() && base in ValidNodes()
    ensures ValidateNode(p + base, unit).Pass? <==> unit in ValidUnits()[base]
  {
    assert base[0] != 'l' && base[0] != 't' && base[0] != '_';
    MeterUtil.PhasePrefixRoundTrip(p, base);
  }

  // ---------------------------------------------------------------- the input checks

  /** `self.nodes.get(key)` is truthy: a `Node` has no `__bool__`, so presence is enough. */
  predicate Present(nodes: Entries, key: string)
  {
    key in nodes
  }

  predicate Calculated(nodes: Entries, key: string)
  {
    key in nodes && nodes[key].config.calculated
  }

  /** What a calculated energy needs: its forward and reverse energies, or its power when the meter gives no energy. */
  predicate EnergyInputsPresent(nodes: Entries, options: EnergyMeterOptions, p: string, t: string)
  {
    Calculated(nodes, p + t + "_energy") ==>
      && (options.readSeparateForwardReverseEnergy ==>
            p + "forward_" + t + "_energy" in nodes && p + "reverse_" + t + "_energy" in nodes)
      && (!options.readSeparateForwardReverseEnergy && !options.readEnergyFromMeter ==> p + t + "_power" in nodes)
  }

  /** What a calculated power needs: V and I, and the power factor unless it is the apparent power. */
  predicate PowerInputsPresent(nodes: Entries, p: string, t: string)
  {
    Calculated(nodes, p + t + "_power") && t in {"active", "reactive", "apparent"} ==>
      p + "voltage" in nodes && p + "current" in nodes && (t != "apparent" ==> p + "power_factor" in nodes)
  }

  /** What a calculated power factor direction needs, by the options in the order the code tests them. */
  predicate PfDirectionInputsPresent(nodes: Entries, options: EnergyMeterOptions, p: string)
  {
    Calculated(nodes, p + "power_factor_direction") ==>
      && p + "power_factor" in nodes
      && (options.negativeReactivePower ==> p + "reactive_power" in nodes)
      && (!options.negativeReactivePower && options.readSeparateForwardReverseEnergy ==> p + "reactive_energy" in nodes)
  }

  /** `validate_energy_nodes(phase, energy_type)`. */
  function ValidateEnergyNodes(nodes: Entries, options: EnergyMeterOptions, phase: string, energyType: string): (r: Outcome<LegacyMeterError>)
    ensures r.Pass? <==> EnergyInputsPresent(nodes, options, phase, energyType)
    ensures r.Fail? ==> r.error == NodeMissing(phase + energyType + "_energy")
  {
    var key := phase + energyType + "_energy";
    if !Calculated(nodes, key) then Pass
    else if options.readSeparateForwardReverseEnergy then
      if Present(nodes, phase + "forward_" + energyType + "_energy") && Present(nodes, phase + "reverse_" + energyType + "_energy")
      then Pass else Fail(NodeMissing(key))
    else if !options.readEnergyFromMeter then
      if Present(nodes, phase + energyType + "_power") then Pass else Fail(NodeMissing(key))
    else Pass
  }

  /** `validate_power_nodes(phase, power_type)`. */
  function ValidatePowerNodes(nodes: Entries, phase: string, powerType: string): (r: Outcome<LegacyMeterError>)
    ensures r.Pass? <==> PowerInputsPresent(nodes, phase, powerType)
    ensures r.Fail? ==> r.error == NodeMissing(phase + powerType + "_power")
  {
    var key := phase + powerType + "_power";
    var vi := Present(nodes, phase + "voltage") && Present(nodes, phase + "current");
    if !Calculated(nodes, key) then Pass
    else if powerType == "active" || powerType == "reactive" then
      if vi && Present(nodes, phase + "power_factor") then Pass else Fail(NodeMissing(key))
    else if powerType == "apparent" then
      if vi then Pass else Fail(NodeMissing(key))
    else Pass
  }

  /** `validate_pf_nodes(phase)`: a calculated power factor needs P and Q. */
  function ValidatePfNodes(nodes: Entries, phase: string): (r: Outcome<LegacyMeterError>)
    ensures r.Pass? <==> (Calculated(nodes, phase + "power_factor") ==>
                            phase + "active_power" in nodes && phase + "reactive_power" in nodes)
    ensures r.Fail? ==> r.error == NodeMissing(phase + "power_factor")
  {
    var key := phase + "power_factor";
    if !Calculated(nodes, key) then Pass
    else if Present(nodes, phase + "active_power") && Present(nodes, phase + "reactive_power") then Pass
    else Fail(NodeMissing(key))
  }

  /** `validate_pf_direction_nodes(phase)`. */
  function ValidatePfDirectionNodes(nodes: Entries, options: EnergyMeterOptions, phase: string): (r: Outcome<LegacyMeterError>)
    ensures r.Pass? <==> PfDirectionInputsPresent(nodes, options, phase)
    ensures r.Fail? ==> r.error == NodeMissing(phase + "power_factor_direction")
  {
    var key := phase + "power_factor_direction";
    var pf := Present(nodes, phase + "power_factor");
    if !Calculated(nodes, key) then Pass
    else if options.negativeReactivePower then
      if pf && Present(nodes, phase + "reactive_power") then Pass else Fail(NodeMissing(key))
    else if options.readSeparateForwardReverseEnergy then
      if pf && Present(nodes, phase + "reactive_energy") then Pass else Fail(NodeMissing(key))
    else if pf then Pass else Fail(NodeMissing(key))
  }

  /** The seven checks `validate_nodes` runs for one phase; the first to raise ends the validation. */
  function ValidatePhase(nodes: Entries, options: EnergyMeterOptions, phase: string): (r: Outcome<LegacyMeterError>)
    ensures r.Pass? <==> PhaseInputsPresent(nodes, options, phase)
  {
    var activeEnergy := ValidateEnergyNodes(nodes, options, phase, "active");
    var reactiveEnergy := ValidateEnergyNodes(nodes, options, phase, "reactive");
    var activePower := ValidatePowerNodes(nodes, phase, "active");
    var reactivePower := ValidatePowerNodes(nodes, phase, "reactive");
    var apparentPower := ValidatePowerNodes(nodes, phase, "apparent");
    var pf := ValidatePfNodes(nodes, phase);
    var direction := ValidatePfDirectionNodes(nodes, options, phase);
    if activeEnergy.Fail? then activeEnergy
    else if reactiveEnergy.Fail? then reactiveEnergy
    else if activePower.Fail? then activePower
    else if reactivePower.Fail? then reactivePower
    else if apparentPower.Fail? then apparentPower
    else if pf.Fail? then pf
    else direction
  }

  /** Every calculated node of the phase has the inputs its calculation reads. */
  predicate PhaseInputsPresent(nodes: Entries, options: EnergyMeterOptions, p: string)
  {
    && EnergyInputsPresent(nodes, options, p, "active") && EnergyInputsPresent(nodes, options, p, "reactive")
    && PowerInputsPresent(nodes, p, "active") && PowerInputsPresent(nodes, p, "reactive")
    && PowerInputsPresent(nodes, p, "apparent")
    && (Calculated(nodes, p + "power_factor") ==> p + "active_power" in nodes && p + "reactive_power" in nodes)
    && PfDirectionInputsPresent(nodes, options, p)
  }

  /** A failing phase names one of its own nodes. */
  lemma ValidatePhaseBlamesPhase(nodes: Entries, options: EnergyMeterOptions, p: string)
    ensures ValidatePhase(nodes, options, p).Fail? ==>
              ValidatePhase(nodes, options, p).error.NodeMissing? && StartsWith(ValidatePhase(nodes, options, p).error.name, p)
  {
    var r := ValidatePhase(nodes, options, p);
    if r.Fail? {
      var rest := r.error.name[|p|..];
      assert r.error.name == p + rest;
      assert (p + rest)[..|p|] == p;
    }
  }

  /** The phases `validate_nodes` checks: "total_" nodes and unprefixed nodes are not checked. */
  function CheckedPhases(): seq<string>
  {
    ["l1_", "l2_", "l3_"]
  }

  /** `validate_node` on every node, in dictionary order. */
  function ValidateEach(nodes: Entries, order: seq<string>): (r: Outcome<LegacyMeterError>)
    ensures r.Pass? <==> forall k :: k in order && k in nodes ==> ValidateNode(nodes[k].config.name, nodes[k].config.unit).Pass?
    decreases |order|
  {
    if order == [] then Pass
    else if order[0] in nodes && ValidateNode(nodes[order[0]].config.name, nodes[order[0]].config.unit).Fail? then
      ValidateNode(nodes[order[0]].config.name, nodes[order[0]].config.unit)
    else ValidateEach(nodes, order[1..])
  }

  /**
   * `validate_nodes()`: the node set passes exactly when every node is known with a listed unit
   * and every checked phase has the inputs of its calculated nodes.
   */
  function ValidateNodes(nodes: Entries, order: seq<string>, options: EnergyMeterOptions): (r: Outcome<LegacyMeterError>)
    ensures r.Pass? <==>
              && (forall k :: k in order && k in nodes ==> ValidateNode(nodes[k].config.name, nodes[k].config.unit).Pass?)
              && PhaseInputsPresent(nodes, options, "l1_") && PhaseInputsPresent(nodes, options, "l2_")
              && PhaseInputsPresent(nodes, options, "l3_")
  {
    var each := ValidateEach(nodes, order);
    var l1 := ValidatePhase(nodes, options, "l1_");
    var l2 := ValidatePhase(nodes, options, "l2_");
    if each.Fail? then each
    else if l1.Fail? then l1
    else if l2.Fail? then l2
    else ValidatePhase(nodes, options, "l3_")
  }

  // ---------------------------------------------------------------- building the dictionary

  /** The names of the nodes, in the order they are given. */
  function Names(ns: seq<Entry>): (r: seq<string>)
    ensures |r| == |ns|
  {
    if ns == [] then [] else Names(ns[..|ns| - 1]) + [ns[|ns| - 1].config.name]
  }

  /** `{node.name: node for node in nodes}`: a later node with the same name replaces an earlier one. */
  function IndexEntries(ns: seq<Entry>): (r: Entries)
    ensures forall k :: k in r <==> k in Names(ns)
    ensures forall k :: k in r ==> r[k].config.name == k && r[k] in ns
  {
    if ns == [] then map[]
    else
      var front := IndexEntries(ns[..|ns| - 1]);
      var last := ns[|ns| - 1];
      assert forall e :: e in ns[..|ns| - 1] ==> e in ns;
      front[last.config.name := last]
  }

  /** The dictionary's iteration order: each name where it was first inserted. */
  function InsertionOrder(ns: seq<Entry>): (order: seq<string>)
    ensures forall k :: k in order <==> k in Names(ns)
    ensures forall i, j :: 0 <= i < j < |order| ==> order[i] != order[j]
  {
    if ns == [] then []
    else
      var front := InsertionOrder(ns[..|ns| - 1]);
      var name := ns[|ns| - 1].config.name;
      if name in front then front else front + [name]
  }

  /** `set_energy_nodes_incremental()` on every node of the dictionary. */
  function EnergyIncremental(nodes: Entries): (r: Entries)
    ensures r.Keys == nodes.Keys && forall k :: k in nodes ==> r[k] == MarkIncremental(nodes[k])
  {
    map k | k in nodes :: MarkIncremental(nodes[k])
  }

  /** A node whose name contains "energy" is switched to incremental; nothing else about any node changes. */
  function MarkIncremental(e: Entry): (r: Entry)
    ensures r.state == e.state
    ensures r.config.incrementalNode == (Contains(e.config.name, "energy") || e.config.incrementalNode)
    ensures r.config.(incrementalNode := e.config.incrementalNode) == e.config
  {
    if Contains(e.config.name, "energy") then e.(config := e.config.(incrementalNode := true)) else e
  }

  /** The loop of `set_energy_nodes_incremental` over the dictionary's values. */
  method SetEnergyNodesIncremental(nodes: Entries, order: seq<string>) returns (r: Entries)
    requires forall k :: k in nodes <==> k in order
    ensures r == EnergyIncremental(nodes)
  {
    r := nodes;
    for i := 0 to |order|
      invariant r.Keys == nodes.Keys
      invariant forall k :: k in nodes ==> r[k] == if k in order[..i] then MarkIncremental(nodes[k]) else nodes[k]
    {
      var k := order[i];
      assert forall j :: j in order[..i + 1] <==> j in order[..i] || j == k;
      if Contains(r[k].config.name, "energy") {
        r := r[k := r[k].(config := r[k].config.(incrementalNode := true))];
      }
    }
    assert order[..|order|] == order;
  }

  // ---------------------------------------------------------------- calculations

  /** Python `a * b` on numbers: an `int` when both are, a `float` otherwise. */
  function PyMul(a: Value, b: Value): (r: Value)
    ensures LegacyNode.IsNumber(r)
    ensures LegacyNode.IsNumber(a) && LegacyNode.IsNumber(b) ==> LegacyNode.Num(r) == LegacyNode.Num(a) * LegacyNode.Num(b)
  {
    if IsInt(a) && IsInt(b) then Int(AsInt(a) * AsInt(b)) else Float(LegacyNode.Num(a) * LegacyNode.Num(b))
  }

  /** The node set keeps its names and every node its configuration. */
  predicate KeepsConfigs(before: Entries, after: Entries)
  {
    after.Keys == before.Keys && forall k :: k in before ==> after[k].config == before[k].config
  }

  /** `node.set_value(v)` on the node under `key`; a reading of the wrong kind raises inside `set_value`. */
  function Store(nodes: Entries, key: string, v: Value, now: real, round: Rounding): (r: Result<Entries, LegacyMeterError>)
    requires key in nodes
    ensures r.Err? <==> !DeviceReadingFits(nodes[key].config, v)
    ensures r.Ok? ==> r.value == nodes[key := Entry(nodes[key].config, AfterSetValue(nodes[key].config, nodes[key].state, v, now, round))]
    ensures r.Ok? ==> KeepsConfigs(nodes, r.value)
  {
    var e := nodes[key];
    if DeviceReadingFits(e.config, v) then Ok(nodes[key := Entry(e.config, AfterSetValue(e.config, e.state, v, now, round))])
    else Err(ReadingMismatch)
  }

  /** Storing `None` changes nothing: `set_value(None)` returns at once. */
  lemma StoreNoneNoop(nodes: Entries, key: string, now: real, round: Rounding)
    requires key in nodes
    ensures Store(nodes, key, Null, now, round) == Ok(nodes)
  {
    SetValueNoneNoop(nodes[key].config, nodes[key].state, now, round);
    assert nodes[key := nodes[key]] == nodes;
  }

  function ValueOf(nodes: Entries, key: string): Value
    requires key in nodes
  {
    nodes[key].state.value
  }

  /**
   * `calculate_energy` AS WRITTEN: without a meter energy reading, `power_node.elapsed_time / 3600.0`
   * is evaluated before the `None` check, so a power node that has no elapsed time yet raises.
   */
  function CalculateEnergyAsWritten(nodes: Entries, options: EnergyMeterOptions, prefix: string, energyType: string,
                                    key: string, now: real, round: Rounding): (r: Result<Entries, LegacyMeterError>)
    requires key in nodes
    ensures r.Ok? ==> KeepsConfigs(nodes, r.value)
  {
    if options.readSeparateForwardReverseEnergy then CalculateSeparateEnergy(nodes, prefix, energyType, key, now, round)
    else if !options.readEnergyFromMeter then
      var pk := prefix + energyType + "_power";
      if pk !in nodes then Err(KeyMissing(pk))
      else if nodes[pk].state.elapsedTime.None? then Err(NoneOperand)
      else
        var p := nodes[pk].state;
        Store(nodes, key, if !p.value.Null? then PyMul(p.value, Float(p.elapsedTime.value / 3600.0)) else Null, now, round)
    else Ok(nodes)
  }

  /** The separate-mode branch of `calculate_energy`: forward minus reverse. */
  function CalculateSeparateEnergy(nodes: Entries, prefix: string, energyType: string, key: string, now: real,
                                   round: Rounding): (r: Result<Entries, LegacyMeterError>)
    requires key in nodes
    ensures r.Ok? ==> KeepsConfigs(nodes, r.value)
  {
    var fk := prefix + "forward_" + energyType + "_energy";
    var rk := prefix + "reverse_" + energyType + "_energy";
    if fk !in nodes then Err(KeyMissing(fk))
    else if rk !in nodes then Err(KeyMissing(rk))
    else
      var f := ValueOf(nodes, fk);
      var r := ValueOf(nodes, rk);
      Store(nodes, key, if !f.Null? && !r.Null? then LegacyNode.PySub(f, r) else Null, now, round)
  }

  /**
   * Separate mode stores forward minus reverse when both readings are present and leaves the
   * nodes unchanged otherwise; a missing forward or reverse node raises `KeyError`, forward first.
   */
  lemma SeparateEnergyCases(nodes: Entries, prefix: string, energyType: string, key: string, now: real, round: Rounding)
    requires key in nodes
    ensures var fk := prefix + "forward_" + energyType + "_energy";
            fk !in nodes ==> CalculateSeparateEnergy(nodes, prefix, energyType, key, now, round) == Err(KeyMissing(fk))
    ensures var fk := prefix + "forward_" + energyType + "_energy";
            var rk := prefix + "reverse_" + energyType + "_energy";
            fk in nodes && rk !in nodes ==> CalculateSeparateEnergy(nodes, prefix, energyType, key, now, round) == Err(KeyMissing(rk))
    ensures var fk := prefix + "forward_" + energyType + "_energy";
            var rk := prefix + "reverse_" + energyType + "_energy";
            fk in nodes && rk in nodes ==>
              var f := ValueOf(nodes, fk);
              var r := ValueOf(nodes, rk);
              && (!f.Null? && !r.Null? ==>
                    CalculateSeparateEnergy(nodes, prefix, energyType, key, now, round) == Store(nodes, key, LegacyNode.PySub(f, r), now, round))
              && (f.Null? || r.Null? ==> CalculateSeparateEnergy(nodes, prefix, energyType, key, now, round) == Ok(nodes))
  {
    StoreNoneNoop(nodes, key, now, round);
  }

  /** `calculate_energy` with the `None` check the code evidently intends: no elapsed time gives no reading. */
  function CalculateEnergy(nodes: Entries, options: EnergyMeterOptions, prefix: string, energyType: string,
                           key: string, now: real, round: Rounding): (r: Result<Entries, LegacyMeterError>)
    requires key in nodes
    ensures r.Ok? ==> KeepsConfigs(nodes, r.value)
  {
    if options.readSeparateForwardReverseEnergy then CalculateSeparateEnergy(nodes, prefix, energyType, key, now, round)
    else if !options.readEnergyFromMeter then
      var pk := prefix + energyType + "_power";
      if pk !in nodes then Err(KeyMissing(pk))
      else
        var p := nodes[pk].state;
        Store(nodes, key, if !p.value.Null? && p.elapsedTime.Some? then PyMul(p.value, Float(p.elapsedTime.value / 3600.0)) else Null,
              now, round)
    else Ok(nodes)
  }

  /** A power node that has never been read has no elapsed time: as written the energy calculation raises. */
  lemma EnergyAsWrittenFailsBeforeFirstReading(nodes: Entries, options: EnergyMeterOptions, prefix: string,
                                               energyType: string, key: string, now: real, round: Rounding)
    requires key in nodes && !options.readSeparateForwardReverseEnergy && !options.readEnergyFromMeter
    requires prefix + energyType + "_power" in nodes
    requires nodes[prefix + energyType + "_power"].state == InitialDeviceState()
    ensures CalculateEnergyAsWritten(nodes, options, prefix, energyType, key, now, round) == Err(NoneOperand)
  {
  }

  /**
   * The corrected calculation integrates power over the elapsed hours, leaves the node untouched
   * while the power has no reading or no elapsed time, and agrees with the code as written
   * whenever that one does not raise.
   */
  lemma EnergyFromPower(nodes: Entries, options: EnergyMeterOptions, prefix: string, energyType: string,
                        key: string, now: real, round: Rounding)
    requires key in nodes && !options.readSeparateForwardReverseEnergy && !options.readEnergyFromMeter
    requires prefix + energyType + "_power" in nodes
    ensures var p := nodes[prefix + energyType + "_power"].state;
            p.value.Null? || p.elapsedTime.None? ==> CalculateEnergy(nodes, options, prefix, energyType, key, now, round) == Ok(nodes)
    ensures var p := nodes[prefix + energyType + "_power"].state;
            !p.value.Null? && p.elapsedTime.Some? ==>
              CalculateEnergy(nodes, options, prefix, energyType, key, now, round) ==
              Store(nodes, key, PyMul(p.value, Float(p.elapsedTime.value / 3600.0)), now, round)
    ensures CalculateEnergyAsWritten(nodes, options, prefix, energyType, key, now, round).Ok? ==>
              CalculateEnergyAsWritten(nodes, options, prefix, energyType, key, now, round) ==
              CalculateEnergy(nodes, options, prefix, energyType, key, now, round)
  {
    StoreNoneNoop(nodes, key, now, round);
  }

  /** A reactive power's `math.acos(pf)` is evaluated on a number outside [-1, 1]. */
  predicate AcosOutOfDomain(nodes: Entries, prefix: string)
  {
    var pfk := prefix + "power_factor";
    && prefix + "voltage" in nodes && prefix + "current" in nodes && pfk in nodes
    && !ValueOf(nodes, prefix + "voltage").Null? && !ValueOf(nodes, prefix + "current").Null?
    && LegacyNode.IsNumber(ValueOf(nodes, pfk))
    && (LegacyNode.Num(ValueOf(nodes, pfk)) < -1.0 || LegacyNode.Num(ValueOf(nodes, pfk)) > 1.0)
  }

  /**
   * `calculate_power(prefix, power_type, node)`: V·I·PF, V·I·sin(acos PF) or V·I; a power factor
   * outside [-1, 1] makes the reactive power's `math.acos` raise `ValueError`.
   */
  function CalculatePower(nodes: Entries, prefix: string, powerType: string, key: string,
                          maths: MeterCalculation.Maths, now: real, round: Rounding): (r: Result<Entries, LegacyMeterError>)
    requires key in nodes
    ensures r.Ok? ==> KeepsConfigs(nodes, r.value)
    ensures r == Err(MathDomain) <==> powerType == "reactive" && AcosOutOfDomain(nodes, prefix)
  {
    var vk := prefix + "voltage";
    var ik := prefix + "current";
    var pfk := prefix + "power_factor";
    if vk !in nodes then Err(KeyMissing(vk))
    else if ik !in nodes then Err(KeyMissing(ik))
    else
      var v := ValueOf(nodes, vk);
      var i := ValueOf(nodes, ik);
      if powerType == "active" || powerType == "reactive" then
        if pfk !in nodes then Err(KeyMissing(pfk))
        else
          var pf := ValueOf(nodes, pfk);
          if powerType == "reactive" && AcosOutOfDomain(nodes, prefix) then Err(MathDomain)
          else
            var factor := if powerType == "active" then pf else Float(maths.sin(maths.acos(LegacyNode.Num(pf))));
            Store(nodes, key, if !v.Null? && !i.Null? && !pf.Null? then PyMul(PyMul(v, i), factor) else Null, now, round)
      else if powerType == "apparent" then
        Store(nodes, key, if !v.Null? && !i.Null? then PyMul(v, i) else Null, now, round)
      else Ok(nodes)
  }

  /**
   * With voltage, current and (for active and reactive power) power-factor readings present,
   * active power is V·I·PF, reactive power V·I·sin(acos PF), or `ValueError` for a power factor
   * outside [-1, 1], and apparent power V·I; any other power type stores nothing.
   */
  lemma PowerValues(nodes: Entries, prefix: string, powerType: string, key: string,
                    maths: MeterCalculation.Maths, now: real, round: Rounding)
    requires key in nodes && prefix + "voltage" in nodes && prefix + "current" in nodes
    requires !ValueOf(nodes, prefix + "voltage").Null? && !ValueOf(nodes, prefix + "current").Null?
    ensures var vi := PyMul(ValueOf(nodes, prefix + "voltage"), ValueOf(nodes, prefix + "current"));
            powerType == "apparent" ==> CalculatePower(nodes, prefix, powerType, key, maths, now, round) == Store(nodes, key, vi, now, round)
    ensures var vi := PyMul(ValueOf(nodes, prefix + "voltage"), ValueOf(nodes, prefix + "current"));
            prefix + "power_factor" in nodes && !ValueOf(nodes, prefix + "power_factor").Null? ==>
              var pf := ValueOf(nodes, prefix + "power_factor");
              && (powerType == "active" ==>
                    CalculatePower(nodes, prefix, powerType, key, maths, now, round) == Store(nodes, key, PyMul(vi, pf), now, round))
              && (powerType == "reactive" ==>
                    CalculatePower(nodes, prefix, powerType, key, maths, now, round)
                      == if LegacyNode.IsNumber(pf) && (LegacyNode.Num(pf) < -1.0 || LegacyNode.Num(pf) > 1.0)
                         then Err(MathDomain)
                         else Store(nodes, key, PyMul(vi, Float(maths.sin(maths.acos(LegacyNode.Num(pf))))), now, round))
    ensures powerType !in {"active", "reactive", "apparent"} ==> CalculatePower(nodes, prefix, powerType, key, maths, now, round) == Ok(nodes)
  {
  }

  /** Any missing input reading leaves a calculated power as it was; a missing input node raises `KeyError`. */
  lemma PowerNeedsReadings(nodes: Entries, prefix: string, powerType: string, key: string,
                           maths: MeterCalculation.Maths, now: real, round: Rounding)
    requires key in nodes && powerType in {"active", "reactive", "apparent"}
    ensures prefix + "voltage" !in nodes ==>
              CalculatePower(nodes, prefix, powerType, key, maths, now, round) == Err(KeyMissing(prefix + "voltage"))
    ensures prefix + "voltage" in nodes && prefix + "current" in nodes &&
            (ValueOf(nodes, prefix + "voltage").Null? || ValueOf(nodes, prefix + "current").Null?) &&
            (powerType != "apparent" ==> prefix + "power_factor" in nodes) ==>
              CalculatePower(nodes, prefix, powerType, key, maths, now, round) == Ok(nodes)
    ensures prefix + "voltage" in nodes && prefix + "current" in nodes && powerType != "apparent" &&
            prefix + "power_factor" in nodes && ValueOf(nodes, prefix + "power_factor").Null? ==>
              CalculatePower(nodes, prefix, powerType, key, maths, now, round) == Ok(nodes)
  {
    StoreNoneNoop(nodes, key, now, round);
  }

  /** `calculate_pf(prefix, node)`: cos(atan(Q/P)), or 0.0 when P is zero. */
  function CalculatePf(nodes: Entries, prefix: string, key: string, maths: MeterCalculation.Maths, now: real,
                       round: Rounding): (r: Result<Entries, LegacyMeterError>)
    requires key in nodes
    ensures r.Ok? ==> KeepsConfigs(nodes, r.value)
  {
    var pk := prefix + "active_power";
    var qk := prefix + "reactive_power";
    if pk !in nodes then Err(KeyMissing(pk))
    else if qk !in nodes then Err(KeyMissing(qk))
    else
      var p := ValueOf(nodes, pk);
      var q := ValueOf(nodes, qk);
      if p.Null? || q.Null? then Ok(nodes)
      else if LegacyNode.Num(p) != 0.0 then
        Store(nodes, key, Float(maths.cos(maths.atan(LegacyNode.Num(q) / LegacyNode.Num(p)))), now, round)
      else Store(nodes, key, Float(0.0), now, round)
  }

  /** A missing P or Q reading leaves the node unchanged; P = 0 gives 0.0; otherwise cos(atan(Q/P)). */
  lemma PfCases(nodes: Entries, prefix: string, key: string, maths: MeterCalculation.Maths, now: real, round: Rounding)
    requires key in nodes && prefix + "active_power" in nodes && prefix + "reactive_power" in nodes
    ensures ValueOf(nodes, prefix + "active_power").Null? || ValueOf(nodes, prefix + "reactive_power").Null? ==>
              CalculatePf(nodes, prefix, key, maths, now, round) == Ok(nodes)
    ensures !ValueOf(nodes, prefix + "active_power").Null? && !ValueOf(nodes, prefix + "reactive_power").Null? &&
            LegacyNode.Num(ValueOf(nodes, prefix + "active_power")) == 0.0 ==>
              CalculatePf(nodes, prefix, key, maths, now, round) == Store(nodes, key, Float(0.0), now, round)
    ensures !ValueOf(nodes, prefix + "active_power").Null? && !ValueOf(nodes, prefix + "reactive_power").Null? &&
            LegacyNode.Num(ValueOf(nodes, prefix + "active_power")) != 0.0 ==>
              var ratio := LegacyNode.Num(ValueOf(nodes, prefix + "reactive_power")) / LegacyNode.Num(ValueOf(nodes, prefix + "active_power"));
              CalculatePf(nodes, prefix, key, maths, now, round) == Store(nodes, key, Float(maths.cos(maths.atan(ratio))), now, round)
  {
  }

  /** `PowerFactorDirection` values as the strings the legacy code stores. */
  const UNITARY: string := "UNITARY"
  const LAGGING: string := "LAGGING"
  const LEADING: string := "LEADING"
  const UNKNOWN: string := "UNKNOWN"

  /** `calculate_pf_direction(prefix, node)`. */
  function CalculatePfDirection(nodes: Entries, options: EnergyMeterOptions, prefix: string, key: string, now: real,
                                round: Rounding): (r: Result<Entries, LegacyMeterError>)
    requires key in nodes
    ensures r.Ok? ==> KeepsConfigs(nodes, r.value)
  {
    var pfk := prefix + "power_factor";
    var erk := prefix + "reactive_energy";
    if pfk !in nodes then Err(KeyMissing(pfk))
    else
      var pf := ValueOf(nodes, pfk);
      if Truthy(pf) && LegacyNode.Num(pf) >= 0.99 then
        var stored := Store(nodes, key, Str(UNITARY), now, round);
        if stored.Ok? && erk in stored.value then
          Ok(stored.value[erk := stored.value[erk].(state := AfterResetDirection(stored.value[erk].state))])
        else stored
      else if options.negativeReactivePower then
        var qk := prefix + "reactive_power";
        if qk !in nodes then Err(KeyMissing(qk))
        else if !LegacyNode.IsNumber(ValueOf(nodes, qk)) then Err(NoneOperand)
        else Store(nodes, key, Str(if LegacyNode.Num(ValueOf(nodes, qk)) > 0.0 then LAGGING else LEADING), now, round)
      else if options.readSeparateForwardReverseEnergy then
        if erk !in nodes then Err(NoneObject)
        else
          var er := nodes[erk].state;
          Store(nodes, key, Str(if er.positiveDirection then LAGGING else if er.negativeDirection then LEADING else UNKNOWN), now, round)
      else Store(nodes, key, Str(UNKNOWN), now, round)
  }

  /**
   * Any truthy power factor of at least 0.99 makes the direction UNITARY, whatever the options,
   * and clears the direction of the phase's reactive energy when there is one.
   */
  lemma PfDirectionUnitary(nodes: Entries, options: EnergyMeterOptions, prefix: string, key: string, now: real,
                           round: Rounding)
    requires key in nodes && prefix + "power_factor" in nodes
    requires Truthy(ValueOf(nodes, prefix + "power_factor")) && LegacyNode.Num(ValueOf(nodes, prefix + "power_factor")) >= 0.99
    requires DeviceReadingFits(nodes[key].config, Str(UNITARY))
    requires key != prefix + "reactive_energy"
    ensures var r := CalculatePfDirection(nodes, options, prefix, key, now, round);
            r.Ok? && r.value.Keys == nodes.Keys
            && r.value[key].state == AfterSetValue(nodes[key].config, nodes[key].state, Str(UNITARY), now, round)
    ensures var r := CalculatePfDirection(nodes, options, prefix, key, now, round);
            r.Ok? && prefix + "reactive_energy" in nodes ==>
              r.value[prefix + "reactive_energy"] ==
                nodes[prefix + "reactive_energy"].(state := AfterResetDirection(nodes[prefix + "reactive_energy"].state))
    ensures var r := CalculatePfDirection(nodes, options, prefix, key, now, round);
            forall k :: k in nodes && k != key && k != prefix + "reactive_energy" ==> r.Ok? && r.value[k] == nodes[k]
  {
  }

  /**
   * Below the UNITARY threshold the direction follows the options: with negative reactive power
   * it is LAGGING for Q > 0 and LEADING otherwise (a Q that is not a number raises); with
   * separate energies it is LAGGING, LEADING or UNKNOWN by the reactive energy's direction
   * flags (a missing reactive-energy node raises); otherwise it is UNKNOWN.
   */
  lemma PfDirectionCases(nodes: Entries, options: EnergyMeterOptions, prefix: string, key: string, now: real,
                         round: Rounding)
    requires key in nodes && prefix + "power_factor" in nodes
    requires !(Truthy(ValueOf(nodes, prefix + "power_factor")) && LegacyNode.Num(ValueOf(nodes, prefix + "power_factor")) >= 0.99)
    ensures var r := CalculatePfDirection(nodes, options, prefix, key, now, round);
            var qk := prefix + "reactive_power";
            options.negativeReactivePower ==>
              && (qk !in nodes ==> r == Err(KeyMissing(qk)))
              && (qk in nodes && !LegacyNode.IsNumber(ValueOf(nodes, qk)) ==> r == Err(NoneOperand))
              && (qk in nodes && LegacyNode.IsNumber(ValueOf(nodes, qk)) ==>
                    r == Store(nodes, key, Str(if LegacyNode.Num(ValueOf(nodes, qk)) > 0.0 then LAGGING else LEADING), now, round))
    ensures var r := CalculatePfDirection(nodes, options, prefix, key, now, round);
            var erk := prefix + "reactive_energy";
            !options.negativeReactivePower && options.readSeparateForwardReverseEnergy ==>
              && (erk !in nodes ==> r == Err(NoneObject))
              && (erk in nodes ==>
                    var er := nodes[erk].state;
                    r == Store(nodes, key, Str(if er.positiveDirection then LAGGING else if er.negativeDirection then LEADING else UNKNOWN),
                               now, round))
    ensures !options.negativeReactivePower && !options.readSeparateForwardReverseEnergy ==>
              CalculatePfDirection(nodes, options, prefix, key, now, round) == Store(nodes, key, Str(UNKNOWN), now, round)
  {
  }

  /** The suffixes of `calculation_methods`, in their dictionary order. */
  function CalculationKeys(): seq<string>
  {
    ["_reactive_energy", "_active_energy", "_active_power", "_reactive_power", "_apparent_power",
     "_power_factor_direction", "_power_factor"]
  }

  /** The index of the first suffix the name contains. */
  function Dispatch(name: string): (r: Option<nat>)
    ensures r.Some? ==> r.value < |CalculationKeys()| && Contains(name, CalculationKeys()[r.value])
    ensures r.Some? ==> forall j :: 0 <= j < r.value ==> !Contains(name, CalculationKeys()[j])
    ensures r.None? <==> forall j :: 0 <= j < |CalculationKeys()| ==> !Contains(name, CalculationKeys()[j])
  {
    FirstContained(name, CalculationKeys(), 0)
  }

  function FirstContained(name: string, keys: seq<string>, from: nat): (r: Option<nat>)
    requires from <= |keys|
    ensures r.Some? ==> from <= r.value < |keys| && Contains(name, keys[r.value])
    ensures r.Some? ==> forall j :: from <= j < r.value ==> !Contains(name, keys[j])
    ensures r.None? <==> forall j :: from <= j < |keys| ==> !Contains(name, keys[j])
    decreases |keys| - from
  {
    if from == |keys| then None
    else if Contains(name, keys[from]) then Some(from)
    else FirstContained(name, keys, from + 1)
  }

  /** A direction node is never treated as a power factor: "_power_factor_direction" is tried before "_power_factor". */
  lemma DirectionBeforePowerFactor(name: string)
    requires Contains(name, "_power_factor_direction")
    ensures Dispatch(name).Some? && Dispatch(name).value <= 5
  {
    assert CalculationKeys()[5] == "_power_factor_direction";
  }

  /** `get_node_phase(node)`: the first of "l1_", "l2_", "l3_" the name starts with, or "". */
  function GetNodePhase(name: string): (r: string)
    ensures r in {"l1_", "l2_", "l3_", ""}
    ensures r != "" ==> StartsWith(name, r)
    ensures r == "" <==> !StartsWith(name, "l1_") && !StartsWith(name, "l2_") && !StartsWith(name, "l3_")
  {
    if StartsWith(name, "l1_") then "l1_"
    else if StartsWith(name, "l2_") then "l2_"
    else if StartsWith(name, "l3_") then "l3_"
    else ""
  }

  /** The body of the `calculate_nodes` loop for the node under `key`. */
  function CalculateStep(nodes: Entries, options: EnergyMeterOptions, key: string, maths: MeterCalculation.Maths,
                         now: real, round: Rounding): (r: Result<Entries, LegacyMeterError>)
    ensures r.Ok? ==> KeepsConfigs(nodes, r.value)
  {
    if key !in nodes || !nodes[key].config.calculated then Ok(nodes)
    else
      var name := nodes[key].config.name;
      var prefix := GetNodePhase(name);
      match Dispatch(name)
      case None => Ok(nodes)
      case Some(i) =>
        if i == 0 then CalculateEnergy(nodes, options, prefix, "reactive", key, now, round)
        else if i == 1 then CalculateEnergy(nodes, options, prefix, "active", key, now, round)
        else if i == 2 then CalculatePower(nodes, prefix, "active", key, maths, now, round)
        else if i == 3 then CalculatePower(nodes, prefix, "reactive", key, maths, now, round)
        else if i == 4 then CalculatePower(nodes, prefix, "apparent", key, maths, now, round)
        else if i == 5 then CalculatePfDirection(nodes, options, prefix, key, now, round)
        else CalculatePf(nodes, prefix, key, maths, now, round)
  }

  /** `calculate_nodes()` over the dictionary order; the first exception stops the loop, keeping earlier updates. */
  function CalculateAll(nodes: Entries, order: seq<string>, options: EnergyMeterOptions, maths: MeterCalculation.Maths,
                        now: real, round: Rounding): (Entries, Outcome<LegacyMeterError>)
    decreases |order|
  {
    if order == [] then (nodes, Pass)
    else
      var (before, out) := CalculateAll(nodes, order[..|order| - 1], options, maths, now, round);
      if out.Fail? then (before, out)
      else
        match CalculateStep(before, options, order[|order| - 1], maths, now, round)
        case Ok(after) => (after, Pass)
        case Err(e) => (before, Fail(e))
  }

  /** The calculation changes node states only: the keys and every configuration stay. */
  lemma {:induction false} CalculateAllFrame(nodes: Entries, order: seq<string>, options: EnergyMeterOptions,
                                             maths: MeterCalculation.Maths, now: real, round: Rounding)
    ensures KeepsConfigs(nodes, CalculateAll(nodes, order, options, maths, now, round).0)
    decreases |order|
  {
    if order != [] {
      var front := order[..|order| - 1];
      CalculateAllFrame(nodes, front, options, maths, now, round);
    }
  }

  // ---------------------------------------------------------------- logging

  /** The nodes `reset_directional_energy(node)` visits: forward and reverse energies of the energy type in the name. */
  function DirectionalKeys(name: string): seq<string>
  {
    var prefix := GetNodePhase(name);
    (if Contains(name, "_reactive_energy") then [prefix + "forward_reactive_energy", prefix + "reverse_reactive_energy"] else [])
    + (if Contains(name, "_active_energy") then [prefix + "forward_active_energy", prefix + "reverse_active_energy"] else [])
  }

  /** `energy_node.reset_value()` on every present, non-logging node under the keys, in order. */
  function ResetUnlogged(nodes: Entries, keys: seq<string>): (r: Entries)
    ensures r.Keys == nodes.Keys
    decreases |keys|
  {
    if keys == [] then nodes
    else
      var before := ResetUnlogged(nodes, keys[..|keys| - 1]);
      var k := keys[|keys| - 1];
      if k in before && !before[k].config.logging then before[k := before[k].(state := AfterResetValue(before[k].state))]
      else before
  }

  /** Exactly the present, non-logging nodes under the keys are reset; `reset_value` is idempotent. */
  lemma {:induction false} ResetUnloggedSpec(nodes: Entries, keys: seq<string>)
    ensures forall k :: k in nodes ==> ResetUnlogged(nodes, keys)[k].config == nodes[k].config
    ensures forall k :: k in nodes && (k !in keys || nodes[k].config.logging) ==> ResetUnlogged(nodes, keys)[k] == nodes[k]
    ensures forall k :: k in nodes && k in keys && !nodes[k].config.logging ==>
              ResetUnlogged(nodes, keys)[k] == nodes[k].(state := AfterResetValue(nodes[k].state))
    decreases |keys|
  {
    if keys != [] {
      var front := keys[..|keys| - 1];
      ResetUnloggedSpec(nodes, front);
      assert forall j :: j in keys <==> j in front || j == keys[|keys| - 1];
    }
  }

  /** The `log_nodes` check for a node that has logged before, with the helper the code evidently means. */
  predicate LogDue(e: Entry, current: DateTime)
    requires e.state.lastLogDatetime.Some?
  {
    SubtractDatetimeMins(current, e.state.lastLogDatetime.value) >= e.config.loggingPeriod
  }

  /**
   * One iteration of `log_nodes` AS WRITTEN: the first visit of a logging node records the time;
   * every later visit calls `functions.subtracte_datetime_mins`, which does not exist.
   */
  function LogStepAsWritten(nodes: Entries, key: string, current: DateTime): Result<Entries, LegacyMeterError>
  {
    if key !in nodes || !nodes[key].config.logging then Ok(nodes)
    else if nodes[key].state.lastLogDatetime.None? then
      Ok(nodes[key := nodes[key].(state := nodes[key].state.(lastLogDatetime := Some(current)))])
    else Err(MissingFunction)
  }

  /** As written, the second cycle that reaches a logging node raises, so no log entry is ever produced. */
  lemma LoggingAsWrittenFailsOnSecondCycle(nodes: Entries, key: string, first: DateTime, second: DateTime)
    requires key in nodes && nodes[key].config.logging && nodes[key].state.lastLogDatetime.None?
    ensures LogStepAsWritten(nodes, key, first).Ok?
    ensures LogStepAsWritten(LogStepAsWritten(nodes, key, first).value, key, second) == Err(MissingFunction)
  {
  }

  /** One iteration of `log_nodes` with `subtract_datetime_mins`: the new nodes and the measurements queued. */
  function LogStep(nodes: Entries, key: string, current: DateTime, db: string): (Entries, seq<Meter.Measurement>)
  {
    if key !in nodes || !nodes[key].config.logging then (nodes, [])
    else
      var e := nodes[key];
      if e.state.lastLogDatetime.None? then (nodes[key := e.(state := e.state.(lastLogDatetime := Some(current)))], [])
      else if LogDue(e, current) then
        var (entry, after) := SubmitLogResult(e.config, e.state, current);
        (ResetUnlogged(nodes[key := e.(state := after)], DirectionalKeys(e.config.name)), [Meter.Measurement(db, [entry])])
      else (nodes, [])
  }

  /**
   * A due node submits one entry, restarts its statistics and remembers this time; the directional
   * energies its name points to are reset unless they log on their own; a node that is not due,
   * or does not log, changes nothing.
   */
  lemma LogStepCases(nodes: Entries, key: string, current: DateTime, db: string)
    requires key in nodes && nodes[key].config.logging && nodes[key].state.lastLogDatetime.Some?
    ensures !LogDue(nodes[key], current) ==> LogStep(nodes, key, current, db) == (nodes, [])
    ensures LogDue(nodes[key], current) ==>
              var (r, ms) := LogStep(nodes, key, current, db);
              && ms == [Meter.Measurement(db, [SubmitLogResult(nodes[key].config, nodes[key].state, current).0])]
              && r.Keys == nodes.Keys
              && r[key].state == AfterResetValue(nodes[key].state).(lastLogDatetime := Some(current))
              && (forall k :: k in nodes && k != key && (k !in DirectionalKeys(nodes[key].config.name) || nodes[k].config.logging) ==>
                    r[k] == nodes[k])
  {
    var e := nodes[key];
    if LogDue(e, current) {
      var n1 := nodes[key := e.(state := SubmitLogResult(e.config, e.state, current).1)];
      ResetUnloggedSpec(n1, DirectionalKeys(e.config.name));
    }
  }

  /** The corrected agrees with the code as written on every visit that does not raise. */
  lemma LogStepAgreesWhereAsWrittenRuns(nodes: Entries, key: string, current: DateTime, db: string)
    requires LogStepAsWritten(nodes, key, current).Ok?
    ensures LogStep(nodes, key, current, db) == (LogStepAsWritten(nodes, key, current).value, [])
  {
  }

  /** `log_nodes()` over the dictionary order. */
  function LogAll(nodes: Entries, order: seq<string>, current: DateTime, db: string): (Entries, seq<Meter.Measurement>)
    decreases |order|
  {
    if order == [] then (nodes, [])
    else
      var (before, ms) := LogAll(nodes, order[..|order| - 1], current, db);
      var (after, more) := LogStep(before, order[|order| - 1], current, db);
      (after, ms + more)
  }

  // ---------------------------------------------------------------- publishing

  predicate Publishable(e: Entry)
  {
    e.config.publish && !e.state.value.Null?
  }

  /** The payload of `publish_nodes()`: the publish format of every published node holding a value. */
  function PublishPayload(nodes: Entries, order: seq<string>): (payload: map<string, map<string, Value>>)
    decreases |order|
  {
    if order == [] then map[]
    else
      var before := PublishPayload(nodes, order[..|order| - 1]);
      var k := order[|order| - 1];
      if k in nodes && Publishable(nodes[k]) then before[k := PublishFormat(nodes[k].config, nodes[k].state).value]
      else before
  }

  /**
   * The payload names exactly the published nodes holding a value, each with its publish format,
   * so the filter keeps `get_publish_format` from raising.
   */
  lemma {:induction false} PublishPayloadSpec(nodes: Entries, order: seq<string>)
    ensures forall k :: k in PublishPayload(nodes, order) <==> k in order && k in nodes && Publishable(nodes[k])
    ensures forall k :: k in PublishPayload(nodes, order) ==>
              PublishFormat(nodes[k].config, nodes[k].state) == Ok(PublishPayload(nodes, order)[k])
    decreases |order|
  {
    if order != [] {
      var front := order[..|order| - 1];
      PublishPayloadSpec(nodes, front);
      assert forall j :: j in order <==> j in front || j == order[|order| - 1];
    }
  }

  /** `get_device_state()` of the meter: the device state plus the meter options and type. */
  function MeterStateOf(id: int, name: string, protocol: Option<string>, connected: bool, meterType: EnergyMeterType,
                        options: EnergyMeterOptions): (r: Result<map<string, Value>, DeviceError>)
    ensures r.Err? <==> protocol.None?
    ensures r.Ok? ==> r.value.Keys == {"id", "name", "protocol", "connected", "options", "type"}
  {
    match DeviceStateOf(id, name, protocol, connected)
    case Err(e) => Err(e)
    case Ok(m) =>
      Ok(m["options" := Dict(map["read_energy_from_meter" := Bool(options.readEnergyFromMeter),
                                 "read_separate_forward_reverse_energy" := Bool(options.readSeparateForwardReverseEnergy),
                                 "negative_reactive_power" := Bool(options.negativeReactivePower),
                                 "frequency_reading" := Bool(options.frequencyReading)])]
          ["type" := Str(if meterType == SINGLE_PHASE then "SINGLE_PHASE" else "THREE_PHASE")])
  }

  // ---------------------------------------------------------------- loops

  /** The loop of `calculate_nodes`. */
  method CalculateEvery(start: Entries, order: seq<string>, options: EnergyMeterOptions, maths: MeterCalculation.Maths,
                        now: real, round: Rounding) returns (nodes: Entries, out: Outcome<LegacyMeterError>)
    ensures (nodes, out) == CalculateAll(start, order, options, maths, now, round)
  {
    nodes, out := start, Pass;
    var i := 0;
    while i < |order|
      invariant 0 <= i <= |order|
      invariant (nodes, out) == CalculateAll(start, order[..i], options, maths, now, round)
      invariant out.Fail? ==> (nodes, out) == CalculateAll(start, order, options, maths, now, round)
      decreases |order| - i
    {
      assert order[..i + 1][..i] == order[..i];
      var step := CalculateStep(nodes, options, order[i], maths, now, round);
      if step.Err? {
        out := Fail(step.error);
        CalculateAllStops(start, order, i + 1, options, maths, now, round);
        return;
      }
      nodes := step.value;
      i := i + 1;
    }
    assert order[..|order|] == order;
  }

  /** Once the calculation has failed, later nodes are not visited. */
  lemma {:induction false} CalculateAllStops(start: Entries, order: seq<string>, n: nat, options: EnergyMeterOptions,
                                             maths: MeterCalculation.Maths, now: real, round: Rounding)
    requires n <= |order| && CalculateAll(start, order[..n], options, maths, now, round).1.Fail?
    ensures CalculateAll(start, order, options, maths, now, round) == CalculateAll(start, order[..n], options, maths, now, round)
    decreases |order| - n
  {
    if n < |order| {
      assert order[..n + 1][..n] == order[..n];
      CalculateAllStops(start, order, n + 1, options, maths, now, round);
    } else {
      assert order[..n] == order;
    }
  }

  /** The loop of `log_nodes`. */
  method LogEvery(start: Entries, order: seq<string>, current: DateTime, db: string)
    returns (nodes: Entries, measurements: seq<Meter.Measurement>)
    ensures (nodes, measurements) == LogAll(start, order, current, db)
  {
    nodes, measurements := start, [];
    for i := 0 to |order|
      invariant (nodes, measurements) == LogAll(start, order[..i], current, db)
    {
      assert order[..i + 1][..i] == order[..i];
      var (after, more) := LogStep(nodes, order[i], current, db);
      nodes, measurements := after, measurements + more;
    }
    assert order[..|order|] == order;
  }

  /** The loop of `publish_nodes`. */
  method PayloadOf(nodes: Entries, order: seq<string>) returns (payload: map<string, map<string, Value>>)
    ensures payload == PublishPayload(nodes, order)
  {
    payload := map[];
    for i := 0 to |order|
      invariant payload == PublishPayload(nodes, order[..i])
    {
      assert order[..i + 1][..i] == order[..i];
      var k := order[i];
      if k in nodes && Publishable(nodes[k]) {
        payload := payload[k := PublishFormat(nodes[k].config, nodes[k].state).value];
      }
    }
    assert order[..|order|] == order;
  }

  // ---------------------------------------------------------------- the meter

  class LegacyEnergyMeter {
    const id: int
    const name: string
    const protocol: Option<string>
    const meterType: EnergyMeterType
    const options: EnergyMeterOptions
    const order: seq<string>
    var connected: bool
    var nodes: Entries
    var publishQueue: seq<Meter.MQTTMessage>
    var measurementsQueue: seq<Meter.Measurement>

    /** `f"{self.name}_{self.id}"`, the database of the log entries. */
    function LogDb(): string
    {
      TimeDb.DbName(name, id)
    }

    function Topic(): string
    {
      name + "_" + IntToString(id) + "_nodes"
    }

    constructor (id: int, name: string, protocol: string, meterType: EnergyMeterType, options: EnergyMeterOptions,
                 nodes: Entries, order: seq<string>)
      ensures this.id == id && this.name == name && this.protocol == ProtocolAttribute(protocol)
      ensures this.meterType == meterType && this.options == options
      ensures this.nodes == nodes && this.order == order
      ensures !connected && publishQueue == [] && measurementsQueue == []
    {
      this.id, this.name, this.protocol := id, name, ProtocolAttribute(protocol);
      this.meterType, this.options := meterType, options;
      this.nodes, this.order := nodes, order;
      connected, publishQueue, measurementsQueue := false, [], [];
    }

    /**
     * `EnergyMeter(...)`: the `Device` protocol check, the dictionary of the nodes, every energy
     * node made incremental, then `validate_nodes`, whose error is re-raised as `Err`.
     */
    static method Create(id: int, name: string, protocol: string, meterType: EnergyMeterType, options: EnergyMeterOptions,
                         meterNodes: seq<Entry>) returns (r: Result<LegacyEnergyMeter, LegacyMeterError>)
      ensures var nodes := EnergyIncremental(IndexEntries(meterNodes));
              r.Err? <==> ValidateNodes(nodes, InsertionOrder(meterNodes), options).Fail?
      ensures r.Ok? ==> fresh(r.value) && r.value.nodes == EnergyIncremental(IndexEntries(meterNodes))
                        && r.value.order == InsertionOrder(meterNodes) && r.value.protocol == ProtocolAttribute(protocol)
                        && !r.value.connected && r.value.publishQueue == [] && r.value.measurementsQueue == []
    {
      var index := IndexEntries(meterNodes);
      var order := InsertionOrder(meterNodes);
      var nodes := SetEnergyNodesIncremental(index, order);
      var check := ValidateNodes(nodes, order, options);
      if check.Fail? {
        return Err(check.error);
      }
      var meter := new LegacyEnergyMeter(id, name, protocol, meterType, options, nodes, order);
      return Ok(meter);
    }

    method SetConnected()
      modifies this
      ensures connected && nodes == old(nodes)
      ensures publishQueue == old(publishQueue) && measurementsQueue == old(measurementsQueue)
    {
      if !connected {
        connected := true;
      }
    }

    method SetDisconnected()
      modifies this
      ensures !connected && nodes == old(nodes)
      ensures publishQueue == old(publishQueue) && measurementsQueue == old(measurementsQueue)
    {
      if connected {
        connected := false;
      }
    }

    /** `calculate_nodes()`; an exception is returned as `Fail` with the updates made before it kept. */
    method CalculateNodes(maths: MeterCalculation.Maths, now: real, round: Rounding) returns (out: Outcome<LegacyMeterError>)
      modifies this
      ensures (nodes, out) == CalculateAll(old(nodes), order, options, maths, now, round)
      ensures connected == old(connected)
      ensures publishQueue == old(publishQueue) && measurementsQueue == old(measurementsQueue)
    {
      nodes, out := CalculateEvery(nodes, order, options, maths, now, round);
    }

    /** `log_nodes()` at the current date and time. */
    method LogNodes(current: DateTime)
      modifies this
      ensures (nodes, measurementsQueue) == (LogAll(old(nodes), order, current, LogDb()).0,
                                             old(measurementsQueue) + LogAll(old(nodes), order, current, LogDb()).1)
      ensures connected == old(connected) && publishQueue == old(publishQueue)
    {
      var logged;
      nodes, logged := LogEvery(nodes, order, current, LogDb());
      measurementsQueue := measurementsQueue + logged;
    }

    /** `publish_nodes()`: one message per cycle, even with an empty payload. */
    method PublishNodes()
      modifies this
      ensures publishQueue == old(publishQueue) + [Meter.MQTTMessage(0, Topic(), PublishPayload(nodes, order))]
      ensures nodes == old(nodes) && connected == old(connected) && measurementsQueue == old(measurementsQueue)
    {
      var payload := PayloadOf(nodes, order);
      publishQueue := publishQueue + [Meter.MQTTMessage(0, Topic(), payload)];
    }

    /** `process_nodes()`: nothing while disconnected; a calculation exception ends the cycle. */
    method ProcessNodes(current: DateTime, maths: MeterCalculation.Maths, now: real, round: Rounding)
      returns (out: Outcome<LegacyMeterError>)
      modifies this
      ensures !old(connected) ==> out.Pass? && nodes == old(nodes) && publishQueue == old(publishQueue)
                                  && measurementsQueue == old(measurementsQueue)
      ensures old(connected) ==> out == CalculateAll(old(nodes), order, options, maths, now, round).1
      ensures old(connected) && out.Fail? ==>
        && nodes == CalculateAll(old(nodes), order, options, maths, now, round).0
        && publishQueue == old(publishQueue) && measurementsQueue == old(measurementsQueue)
      ensures old(connected) && out.Pass? ==>
        var calculated := CalculateAll(old(nodes), order, options, maths, now, round).0;
        && nodes == LogAll(calculated, order, current, LogDb()).0
        && measurementsQueue == old(measurementsQueue) + LogAll(calculated, order, current, LogDb()).1
        && publishQueue == old(publishQueue) + [Meter.MQTTMessage(0, Topic(), PublishPayload(nodes, order))]
      ensures connected == old(connected)
    {
      if !connected {
        return Pass;
      }
      out := CalculateNodes(maths, now, round);
      if out.Fail? {
        return;
      }
      LogNodes(current);
      PublishNodes();
    }

    function DeviceState(): Result<map<string, Value>, DeviceError>
      reads this
    {
      MeterStateOf(id, name, protocol, connected, meterType, options)
    }
  }
}
