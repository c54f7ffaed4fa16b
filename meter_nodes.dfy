/**
 * `EnergyMeterNodes` of `controller/meter/nodes.py`: the names and units an energy meter's node
 * may have, the node dict keyed by node name, and `validate_nodes`, which checks every node's
 * name and unit, then every dependency rule per phase, then the logging periods.
 */
module MeterNodeSet {
  import opened Wrappers
  import opened General
  import opened NodeModel
  import opened MeterUtil
  import opened NodeSnapshot
  import opened MeterValidation

  /** `VALID_NODES`: the base names (without phase part) a meter node may have. */
  const VALID_NODES: set<string> := {
    "voltage", "current", "active_power", "reactive_power", "apparent_power", "power_factor",
    "power_factor_direction", "frequency", "active_energy", "reactive_energy", "forward_active_energy",
    "reverse_active_energy", "forward_reactive_energy", "reverse_reactive_energy"}

  /** `VALID_UNITS`: the units each base name accepts. */
  const VALID_UNITS: map<string, set<string>> := map[
    "voltage" := {"V"},
    "current" := {"mA", "A"},
    "active_power" := {"W", "kW"},
    "reactive_power" := {"VAr", "kVAr"},
    "apparent_power" := {"VA", "kVA"},
    "power_factor" := {""},
    "power_factor_direction" := {""},
    "frequency" := {"Hz"},
    "active_energy" := {"Wh", "kWh"},
    "reactive_energy" := {"VArh", "kVArh"},
    "forward_active_energy" := {"Wh", "kWh"},
    "reverse_active_energy" := {"Wh", "kWh"},
    "forward_reactive_energy" := {"VArh", "kVArh"},
    "reverse_reactive_energy" := {"VArh", "kVArh"}]

  /** Every valid name has an entry in the unit table, and nothing else has. */
  lemma ValidUnitsCoverValidNodes()
    ensures VALID_UNITS.Keys == VALID_NODES
  {
  }

  /** No valid base name starts with a phase token, so a phase prefix comes off it cleanly. */
  lemma ValidNodesArePlain(base: string)
    requires base in VALID_NODES
    ensures PlainBase(base)
  {
  }

  /** `EnergyMeterNodes.validate_node`: the unit set is the one of the name without its phase part. */
  function ValidateMeterNode(c: NodeConfig): Outcome<MeterError>
  {
    var base := RemovePhaseString(c.name);
    ValidateNode(c, VALID_NODES, if base in VALID_UNITS then Some(VALID_UNITS[base]) else None)
  }

  /**
   * A non-custom numeric node named by a phase prefix (or none) and a valid base name passes
   * exactly when its unit is one of that base name's units.
   */
  lemma ValidateMeterNodeByUnit(c: NodeConfig, p: string, base: string)
    requires p == "" || p in PhasePrefixes()
    requires base in VALID_NODES && c.name == p + base
    requires !c.custom && IsNumericType(c.nodeType)
    ensures ValidateMeterNode(c).Pass? <==> c.unit.Some? && c.unit.value in VALID_UNITS[base]
  {
    ValidNodesArePlain(base);
    if p == "" {
      assert c.name == base;
      PlainNameUnchanged(base);
    } else {
      PhasePrefixRoundTrip(p, base);
    }
  }

  /** The name and unit check of every node, in dict order; the first failure decides. */
  function CheckAllNodes(values: seq<MeterNode>): (r: Outcome<MeterError>)
    ensures r.Pass? <==> forall n :: n in values ==> ValidateMeterNode(n.config).Pass?
    ensures r.Fail? ==> r.error.NodeUnknown? || r.error.UnitInvalid?
  {
    if values == [] then Pass else AndThen(ValidateMeterNode(values[0].config), CheckAllNodes(values[1..]))
  }

  /** The dependency checks of one phase, in `validate_nodes` order. */
  function CheckPhase(phase: string, nodes: Nodes, meterType: EnergyMeterType, options: EnergyMeterOptions): (r: Outcome<MeterError>)
    ensures r.Fail? ==> r.error.NodeMissing?
  {
    AndThen(ValidateEnergyNodes(phase, "active", nodes, meterType, options),
    AndThen(ValidateEnergyNodes(phase, "reactive", nodes, meterType, options),
    AndThen(ValidatePowerNodes(phase, "active", nodes, meterType),
    AndThen(ValidatePowerNodes(phase, "reactive", nodes, meterType),
    AndThen(ValidatePowerNodes(phase, "apparent", nodes, meterType),
    AndThen(ValidatePfNodes(phase, nodes, meterType),
            ValidatePfDirectionNodes(phase, nodes, meterType, options)))))))
  }

  /** The phases `validate_nodes` checks: the empty prefix for one phase, l1_, l2_, l3_, total_ for three. */
  function PhasesOf(meterType: EnergyMeterType): seq<string>
  {
    match meterType
    case SINGLE_PHASE => [""]
    case THREE_PHASE => ["l1_", "l2_", "l3_", "total_"]
  }

  function CheckPhases(phases: seq<string>, nodes: Nodes, meterType: EnergyMeterType, options: EnergyMeterOptions): (r: Outcome<MeterError>)
    ensures r.Pass? <==> forall i :: 0 <= i < |phases| ==> CheckPhase(phases[i], nodes, meterType, options).Pass?
    ensures r.Fail? ==> r.error.NodeMissing?
  {
    if phases == [] then Pass
    else AndThen(CheckPhase(phases[0], nodes, meterType, options), CheckPhases(phases[1..], nodes, meterType, options))
  }

  /** `validate_nodes`: names and units, then dependencies per phase, then logging consistency. */
  function ValidateNodeSet(meterType: EnergyMeterType, options: EnergyMeterOptions, d: NodeDict): Outcome<MeterError>
  {
    AndThen(CheckAllNodes(DictValues(d)),
    AndThen(CheckPhases(PhasesOf(meterType), d.nodes, meterType, options),
            ValidateLoggingConsistency(DictValues(d), None)))
  }

  /**
   * The checks run in order and the first failure decides: a bad name or unit is reported
   * before any missing dependency, and a logging-period mismatch only when everything else
   * passes. The whole set passes exactly when all three stages do.
   */
  lemma ValidateNodeSetOrder(meterType: EnergyMeterType, options: EnergyMeterOptions, d: NodeDict)
    ensures var r := ValidateNodeSet(meterType, options, d);
      && ((exists n :: n in DictValues(d) && ValidateMeterNode(n.config).Fail?) ==>
            r.Fail? && (r.error.NodeUnknown? || r.error.UnitInvalid?))
      && (r.Fail? && r.error.NodeMissing? ==>
            forall n :: n in DictValues(d) ==> ValidateMeterNode(n.config).Pass?)
      && (r.Fail? && r.error.LoggingPeriodMismatch? ==>
            CheckAllNodes(DictValues(d)).Pass? && CheckPhases(PhasesOf(meterType), d.nodes, meterType, options).Pass?)
      && (r.Pass? <==>
            && CheckAllNodes(DictValues(d)).Pass?
            && CheckPhases(PhasesOf(meterType), d.nodes, meterType, options).Pass?
            && ValidateLoggingConsistency(DictValues(d), None).Pass?)
  {
    LoggingConsistencyFailsIff(DictValues(d));
  }

  /**
   * A passing node set has no two logging, non-custom nodes of one category with different
   * periods, and every calculated, non-custom node of a checked phase has its dependencies.
   */
  lemma ValidatedNodeSetConsistent(meterType: EnergyMeterType, options: EnergyMeterOptions, d: NodeDict, cat: Category)
    requires ValidateNodeSet(meterType, options, d).Pass?
    requires cat in CATEGORIES
    ensures !Disagree(DictValues(d), cat)
    ensures forall i :: 0 <= i < |PhasesOf(meterType)| ==> CheckPhase(PhasesOf(meterType)[i], d.nodes, meterType, options).Pass?
  {
    LoggingConsistencyFailsIff(DictValues(d));
  }

  /** `EnergyMeterNodes`: the meter's type and options and its nodes keyed by name. */
  class EnergyMeterNodes {
    const meterType: EnergyMeterType
    const meterOptions: EnergyMeterOptions
    var nodes: NodeDict

    /** No validation happens here; `ValidateNodes` does it. */
    constructor(meterType: EnergyMeterType, meterOptions: EnergyMeterOptions, ns: seq<MeterNode>)
      ensures this.meterType == meterType && this.meterOptions == meterOptions
      ensures nodes == FromNodes(ns)
    {
      this.meterType := meterType;
      this.meterOptions := meterOptions;
      nodes := FromNodes(ns);
    }

    /** `validate_nodes()`. */
    method ValidateNodes() returns (r: Outcome<MeterError>)
      ensures r == ValidateNodeSet(meterType, meterOptions, nodes)
    {
      var values := DictValues(nodes);
      r := CheckEveryNode(values);
      if r.Fail? {
        NodeStageDecides(meterType, meterOptions, nodes);
        return;
      }
      PhaseStageDecides(meterType, meterOptions, nodes);
      r := CheckEveryPhase(PhasesOf(meterType), nodes.nodes, meterType, meterOptions);
      if r.Pass? {
        r := ValidateLoggingConsistency(values, None);
      }
    }
  }

  /** The loop over `self.nodes.values()` calling `validate_node`. */
  method CheckEveryNode(values: seq<MeterNode>) returns (r: Outcome<MeterError>)
    ensures r == CheckAllNodes(values)
  {
    var i := 0;
    while i < |values|
      invariant 0 <= i <= |values|
      invariant forall j :: 0 <= j < i ==> ValidateMeterNode(values[j].config).Pass?
    {
      var check := ValidateMeterNode(values[i].config);
      if check.Fail? {
        CheckAllNodesFirstFailure(values, i);
        return check;
      }
      i := i + 1;
    }
    return Pass;
  }

  /** The loop over the phases calling the dependency validators. */
  method CheckEveryPhase(phases: seq<string>, nodes: Nodes, meterType: EnergyMeterType, options: EnergyMeterOptions)
    returns (r: Outcome<MeterError>)
    ensures r == CheckPhases(phases, nodes, meterType, options)
  {
    var k := 0;
    while k < |phases|
      invariant 0 <= k <= |phases|
      invariant forall j :: 0 <= j < k ==> CheckPhase(phases[j], nodes, meterType, options).Pass?
    {
      var check := CheckPhase(phases[k], nodes, meterType, options);
      if check.Fail? {
        CheckPhasesFirstFailure(phases, nodes, meterType, options, k);
        return check;
      }
      k := k + 1;
    }
    return Pass;
  }

  lemma NodeStageDecides(meterType: EnergyMeterType, options: EnergyMeterOptions, d: NodeDict)
    requires CheckAllNodes(DictValues(d)).Fail?
    ensures ValidateNodeSet(meterType, options, d) == CheckAllNodes(DictValues(d))
  {
  }

  lemma PhaseStageDecides(meterType: EnergyMeterType, options: EnergyMeterOptions, d: NodeDict)
    requires CheckAllNodes(DictValues(d)).Pass?
    ensures ValidateNodeSet(meterType, options, d)
      == AndThen(CheckPhases(PhasesOf(meterType), d.nodes, meterType, options), ValidateLoggingConsistency(DictValues(d), None))
  {
  }

  /** The first node that fails decides the name and unit stage. */
  lemma {:induction false} CheckAllNodesFirstFailure(values: seq<MeterNode>, i: nat)
    requires i < |values| && ValidateMeterNode(values[i].config).Fail?
    requires forall j :: 0 <= j < i ==> ValidateMeterNode(values[j].config).Pass?
    ensures CheckAllNodes(values) == ValidateMeterNode(values[i].config)
  {
    if i > 0 {
      assert ValidateMeterNode(values[0].config).Pass?;
      CheckAllNodesFirstFailure(values[1..], i - 1);
    }
  }

  /** The first phase that fails decides the dependency stage. */
  lemma {:induction false} CheckPhasesFirstFailure(phases: seq<string>, nodes: Nodes, meterType: EnergyMeterType,
                                                   options: EnergyMeterOptions, k: nat)
    requires k < |phases| && CheckPhase(phases[k], nodes, meterType, options).Fail?
    requires forall j :: 0 <= j < k ==> CheckPhase(phases[j], nodes, meterType, options).Pass?
    ensures CheckPhases(phases, nodes, meterType, options) == CheckPhase(phases[k], nodes, meterType, options)
  {
    if k > 0 {
      assert CheckPhase(phases[0], nodes, meterType, options).Pass?;
      CheckPhasesFirstFailure(phases[1..], nodes, meterType, options, k - 1);
    }
  }
}
