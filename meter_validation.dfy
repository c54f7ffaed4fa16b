/**
 * The node-set rules of `controller/meter/validation.py`: a node's name and unit, the agreement
 * of logging periods inside a measurement category, and the dependencies a calculated energy,
 * power, power-factor or power-factor-direction node needs. Each validator returns `Pass` or the
 * error it raises. Node objects are always truthy in Python, so `not nodes.get(name)` holds
 * exactly when the name is absent.
 */
module MeterValidation {
  import opened Wrappers
  import opened Strings
  import opened Values
  import opened General
  import opened NodeModel
  import opened MeterUtil
  import opened NodeSnapshot

  /**
   * The errors the node-set checks raise. `NodeMissing` carries the names its message lists;
   * `LoggingPeriodMismatch` the category, the node whose period was expected and the names of
   * the nodes that differ from it.
   */
  datatype MeterError =
    | NodeUnknown(name: string)
    | UnitInvalid(name: string)
    | NodeMissing(node: string, missing: seq<string>)
    | LoggingPeriodMismatch(category: string, expectedFrom: string, mismatched: seq<string>)

  type Nodes = map<string, MeterNode>

  /** The first failure of two checks made one after the other. */
  function AndThen(first: Outcome<MeterError>, second: Outcome<MeterError>): (r: Outcome<MeterError>)
    ensures r.Pass? <==> first.Pass? && second.Pass?
    ensures first.Fail? ==> r == first
  {
    if first.Fail? then first else second
  }

  /**
   * `validate_node`: a custom node always passes; otherwise its name without the phase part
   * must be known, a non-numeric node must have no unit, and a numeric node's unit must be in
   * the valid set, which must exist.
   */
  function ValidateNode(c: NodeConfig, validNodes: set<string>, validUnits: Option<set<string>>): (r: Outcome<MeterError>)
    ensures c.custom ==> r.Pass?
    ensures !c.custom && RemovePhaseString(c.name) !in validNodes ==> r == Fail(NodeUnknown(c.name))
    ensures r.Fail? ==> r.error == NodeUnknown(c.name) || r.error == UnitInvalid(c.name)
    ensures !c.custom && RemovePhaseString(c.name) in validNodes && !IsNumericType(c.nodeType) ==>
      (r.Pass? <==> c.unit.None?)
    ensures !c.custom && RemovePhaseString(c.name) in validNodes && IsNumericType(c.nodeType) ==>
      (r.Pass? <==> validUnits.Some? && c.unit.Some? && c.unit.value in validUnits.value)
  {
    if c.custom then Pass
    else if RemovePhaseString(c.name) !in validNodes then Fail(NodeUnknown(c.name))
    else if !IsNumericType(c.nodeType) then
      if c.unit.None? then Pass else Fail(UnitInvalid(c.name))
    else if validUnits.None? then Fail(UnitInvalid(c.name))
    else if c.unit.None? || c.unit.value !in validUnits.value then Fail(UnitInvalid(c.name))
    else Pass
  }

  /** A logging category: its name and the name endings that place a node in it. */
  datatype Category = Category(name: string, suffixes: seq<string>)

  /** The categories `validate_logging_consistency` checks, in its order. */
  const CATEGORIES: seq<Category> := [
    Category("energy", ["_energy"]),
    Category("power", ["_power", "_power_factor", "power_factor_direction"]),
    Category("voltage", ["_voltage"]),
    Category("current", ["_current"]),
    Category("frequency", ["_frequency"])]

  predicate InCategory(name: string, cat: Category)
  {
    exists s :: s in cat.suffixes && EndsWith(name, s)
  }

  /** A node the category's check looks at: in the category, logging and not custom. */
  predicate LogsIn(n: MeterNode, cat: Category)
  {
    InCategory(n.config.name, cat) && n.config.logging && !n.config.custom
  }

  /** The list comprehension of logging nodes of a category, in dict order. */
  function LoggingNodes(values: seq<MeterNode>, cat: Category): (r: seq<MeterNode>)
    ensures forall n :: n in r <==> n in values && LogsIn(n, cat)
  {
    if values == [] then []
    else
      var last := values[|values| - 1];
      LoggingNodes(values[..|values| - 1], cat) + (if LogsIn(last, cat) then [last] else [])
  }

  /** The nodes whose period differs (Python `!=`) from the expected one. */
  function Mismatched(ns: seq<MeterNode>, expected: Value): (r: seq<MeterNode>)
    ensures forall n :: n in r <==> n in ns && !PyEq(n.config.loggingPeriod, expected)
  {
    if ns == [] then []
    else
      var last := ns[|ns| - 1];
      Mismatched(ns[..|ns| - 1], expected) + (if !PyEq(last.config.loggingPeriod, expected) then [last] else [])
  }

  function Names(ns: seq<MeterNode>): (r: seq<string>)
    ensures |r| == |ns|
  {
    if ns == [] then [] else Names(ns[..|ns| - 1]) + [ns[|ns| - 1].config.name]
  }

  /** One category's check: every logging node must have the first one's period. */
  function CheckCategory(values: seq<MeterNode>, cat: Category): Outcome<MeterError>
  {
    var logging := LoggingNodes(values, cat);
    if logging == [] then Pass
    else
      var mismatched := Mismatched(logging, logging[0].config.loggingPeriod);
      if mismatched != [] then Fail(LoggingPeriodMismatch(cat.name, logging[0].config.name, Names(mismatched)))
      else Pass
  }

  /** Two nodes the category's check looks at disagree on their period. */
  predicate Disagree(values: seq<MeterNode>, cat: Category)
  {
    exists a, b :: a in values && b in values && LogsIn(a, cat) && LogsIn(b, cat)
      && !PyEq(a.config.loggingPeriod, b.config.loggingPeriod)
  }

  /** A category fails exactly when two of its logging, non-custom nodes have different periods. */
  lemma CheckCategoryFailsIff(values: seq<MeterNode>, cat: Category)
    ensures CheckCategory(values, cat).Fail? <==> Disagree(values, cat)
    ensures CheckCategory(values, cat).Fail? ==> CheckCategory(values, cat).error.LoggingPeriodMismatch?
  {
    var logging := LoggingNodes(values, cat);
    if Disagree(values, cat) {
      var a, b :| a in values && b in values && LogsIn(a, cat) && LogsIn(b, cat)
        && !PyEq(a.config.loggingPeriod, b.config.loggingPeriod);
      assert a in logging;
      var expected := logging[0].config.loggingPeriod;
      PyEqEquivalence(a.config.loggingPeriod, expected, b.config.loggingPeriod);
      PyEqEquivalence(expected, b.config.loggingPeriod, a.config.loggingPeriod);
      if PyEq(a.config.loggingPeriod, expected) {
        assert b in Mismatched(logging, expected);
      } else {
        assert a in Mismatched(logging, expected);
      }
    } else if logging != [] {
      assert logging[0] in logging;
    }
  }

  /** The full check: every category in order, the first failure deciding. */
  function CheckCategories(values: seq<MeterNode>, cats: seq<Category>): Outcome<MeterError>
  {
    if cats == [] then Pass else AndThen(CheckCategory(values, cats[0]), CheckCategories(values, cats[1..]))
  }

  /** With `node_to_check`: only the first category its name belongs to is checked. */
  function CheckFocused(values: seq<MeterNode>, name: string, cats: seq<Category>): Outcome<MeterError>
  {
    if cats == [] then Pass
    else if !InCategory(name, cats[0]) then CheckFocused(values, name, cats[1..])
    else CheckCategory(values, cats[0])
  }

  /**
   * `validate_logging_consistency(nodes, node_to_check)`: without a node, all categories; with a
   * node that does not log, nothing; otherwise the category the node's name selects.
   */
  function ValidateLoggingConsistency(values: seq<MeterNode>, nodeToCheck: Option<MeterNode>): (r: Outcome<MeterError>)
    ensures nodeToCheck.Some? && !nodeToCheck.value.config.logging ==> r.Pass?
  {
    match nodeToCheck
    case None => CheckCategories(values, CATEGORIES)
    case Some(n) => if !n.config.logging then Pass else CheckFocused(values, n.config.name, CATEGORIES)
  }

  lemma {:induction false} CheckCategoriesFailsIff(values: seq<MeterNode>, cats: seq<Category>)
    ensures CheckCategories(values, cats).Fail? <==> exists cat :: cat in cats && Disagree(values, cat)
    ensures CheckCategories(values, cats).Fail? ==> CheckCategories(values, cats).error.LoggingPeriodMismatch?
  {
    if cats != [] {
      CheckCategoryFailsIff(values, cats[0]);
      CheckCategoriesFailsIff(values, cats[1..]);
      assert forall cat :: cat in cats <==> cat == cats[0] || cat in cats[1..];
    }
  }

  /**
   * The full logging check raises `LoggingPeriodError` exactly when some category holds two
   * logging, non-custom nodes with different periods.
   */
  lemma LoggingConsistencyFailsIff(values: seq<MeterNode>)
    ensures ValidateLoggingConsistency(values, None).Fail? <==> exists cat :: cat in CATEGORIES && Disagree(values, cat)
    ensures ValidateLoggingConsistency(values, None).Fail? ==>
      ValidateLoggingConsistency(values, None).error.LoggingPeriodMismatch?
  {
    CheckCategoriesFailsIff(values, CATEGORIES);
  }

  /**
   * With a logging `node_to_check`, the check is that of the first category the node's name
   * belongs to, and passes when it belongs to none.
   */
  lemma {:induction false} FocusedChecksOneCategory(values: seq<MeterNode>, n: MeterNode, cats: seq<Category>, i: nat)
    requires i < |cats| && InCategory(n.config.name, cats[i])
    requires forall j :: 0 <= j < i ==> !InCategory(n.config.name, cats[j])
    ensures CheckFocused(values, n.config.name, cats) == CheckCategory(values, cats[i])
  {
    if i > 0 {
      assert !InCategory(n.config.name, cats[0]);
      FocusedChecksOneCategory(values, n, cats[1..], i - 1);
    }
  }

  lemma {:induction false} FocusedOutsideCategories(values: seq<MeterNode>, name: string, cats: seq<Category>)
    requires forall cat :: cat in cats ==> !InCategory(name, cat)
    ensures CheckFocused(values, name, cats).Pass?
  {
    if cats != [] {
      assert cats[0] in cats;
      FocusedOutsideCategories(values, name, cats[1..]);
    }
  }

  /** A logging `node_to_check` is checked against the first category its name belongs to only. */
  lemma FocusedLoggingCheck(values: seq<MeterNode>, n: MeterNode, i: nat)
    requires n.config.logging && i < |CATEGORIES| && InCategory(n.config.name, CATEGORIES[i])
    requires forall j :: 0 <= j < i ==> !InCategory(n.config.name, CATEGORIES[j])
    ensures ValidateLoggingConsistency(values, Some(n)) == CheckCategory(values, CATEGORIES[i])
  {
    FocusedChecksOneCategory(values, n, CATEGORIES, i);
  }

  /** A `node_to_check` outside every category passes. */
  lemma FocusedLoggingOutside(values: seq<MeterNode>, n: MeterNode)
    requires forall cat :: cat in CATEGORIES ==> !InCategory(n.config.name, cat)
    ensures ValidateLoggingConsistency(values, Some(n)).Pass?
  {
    FocusedOutsideCategories(values, n.config.name, CATEGORIES);
  }

  /** The absent names among those given, in their order. */
  function MissingNames(nodes: Nodes, names: seq<string>): (r: seq<string>)
    ensures forall k :: k in r <==> k in names && k !in nodes
    ensures r == [] <==> forall k :: k in names ==> k in nodes
  {
    if names == [] then []
    else
      var last := names[|names| - 1];
      MissingNames(nodes, names[..|names| - 1]) + (if last !in nodes then [last] else [])
  }

  /** The `missing` lists of the validators, built by a loop over the names to look up. */
  method CollectMissing(nodes: Nodes, names: seq<string>) returns (missing: seq<string>)
    ensures missing == MissingNames(nodes, names)
  {
    missing := [];
    for i := 0 to |names|
      invariant missing == MissingNames(nodes, names[..i])
    {
      assert names[..i + 1][..i] == names[..i];
      if names[i] !in nodes {
        missing := missing + [names[i]];
      }
    }
    assert names[..|names|] == names;
  }

  /** The three per-phase names of a quantity. */
  function PhaseNames(quantity: string): seq<string>
  {
    ["l1_" + quantity, "l2_" + quantity, "l3_" + quantity]
  }

  /** The target exists, is calculated and is not custom: only then do its dependencies matter. */
  predicate Checked(nodes: Nodes, name: string)
  {
    name in nodes && nodes[name].config.calculated && !nodes[name].config.custom
  }

  /** A three-phase meter's total node, which is computed from its three phases. */
  predicate IsThreePhaseTotal(meterType: EnergyMeterType, phase: string)
  {
    meterType == THREE_PHASE && phase == "total_"
  }

  /** A total's check: fails naming every absent phase node, else passes. */
  function RequireAll(nodes: Nodes, name: string, needed: seq<string>): (r: Outcome<MeterError>)
    ensures r.Pass? <==> forall k :: k in needed ==> k in nodes
    ensures r.Fail? ==> r == Fail(NodeMissing(name, MissingNames(nodes, needed)))
  {
    var missing := MissingNames(nodes, needed);
    if missing != [] then Fail(NodeMissing(name, missing)) else Pass
  }

  /** `validate_energy_nodes(phase, energy_type, ...)`. */
  function ValidateEnergyNodes(phase: string, energyType: string, nodes: Nodes, meterType: EnergyMeterType,
                               options: EnergyMeterOptions): (r: Outcome<MeterError>)
    ensures !Checked(nodes, phase + energyType + "_energy") ==> r.Pass?
    ensures r.Fail? ==> r.error.NodeMissing? && r.error.node == phase + energyType + "_energy"
    ensures Checked(nodes, phase + energyType + "_energy") && IsThreePhaseTotal(meterType, phase) ==>
      r == RequireAll(nodes, phase + energyType + "_energy", PhaseNames(energyType + "_energy"))
    ensures Checked(nodes, phase + energyType + "_energy") && !IsThreePhaseTotal(meterType, phase) ==>
      (r.Pass? <==>
        if options.readSeparateForwardReverseEnergy then
          phase + "forward_" + energyType + "_energy" in nodes && phase + "reverse_" + energyType + "_energy" in nodes
        else options.readEnergyFromMeter || phase + energyType + "_power" in nodes)
  {
    var name := phase + energyType + "_energy";
    if !Checked(nodes, name) then Pass
    else if IsThreePhaseTotal(meterType, phase) then RequireAll(nodes, name, PhaseNames(energyType + "_energy"))
    else if options.readSeparateForwardReverseEnergy then
      var forward := phase + "forward_" + energyType + "_energy";
      var reverse := phase + "reverse_" + energyType + "_energy";
      if forward in nodes && reverse in nodes then Pass else Fail(NodeMissing(name, [forward, reverse]))
    else if !options.readEnergyFromMeter then
      if phase + energyType + "_power" in nodes then Pass else Fail(NodeMissing(name, [phase + energyType + "_power"]))
    else Pass
  }

  /** The power an alternative set of measurements needs, per power type. */
  predicate PowerInputsPresent(phase: string, powerType: string, nodes: Nodes)
  {
    var v := phase + "voltage" in nodes;
    var i := phase + "current" in nodes;
    var pf := phase + "power_factor" in nodes;
    var p := phase + "active_power" in nodes;
    var q := phase + "reactive_power" in nodes;
    var s := phase + "apparent_power" in nodes;
    if powerType == "active" then (v && i && pf) || (s && q)
    else if powerType == "reactive" then (v && i && pf) || (s && p)
    else if powerType == "apparent" then (v && i) || (p && q)
    else false
  }

  /** `validate_power_nodes(phase, power_type, ...)`. */
  function ValidatePowerNodes(phase: string, powerType: string, nodes: Nodes, meterType: EnergyMeterType): (r: Outcome<MeterError>)
    ensures !Checked(nodes, phase + powerType + "_power") ==> r.Pass?
    ensures r.Fail? ==> r.error.NodeMissing? && r.error.node == phase + powerType + "_power"
    ensures Checked(nodes, phase + powerType + "_power") && IsThreePhaseTotal(meterType, phase) ==>
      r == RequireAll(nodes, phase + powerType + "_power", PhaseNames(powerType + "_power"))
    ensures Checked(nodes, phase + powerType + "_power") && !IsThreePhaseTotal(meterType, phase) ==>
      (r.Pass? <==> PowerInputsPresent(phase, powerType, nodes))
  {
    var name := phase + powerType + "_power";
    if !Checked(nodes, name) then Pass
    else if IsThreePhaseTotal(meterType, phase) then RequireAll(nodes, name, PhaseNames(powerType + "_power"))
    else if PowerInputsPresent(phase, powerType, nodes) then Pass
    else Fail(NodeMissing(name, []))
  }

  /** Calculated active power needs (V, I, PF) or (S, Q); reactive (V, I, PF) or (S, P); apparent (V, I) or (P, Q). */
  lemma PowerAlternatives(phase: string, nodes: Nodes)
    ensures PowerInputsPresent(phase, "active", nodes) <==>
      (phase + "voltage" in nodes && phase + "current" in nodes && phase + "power_factor" in nodes)
      || (phase + "apparent_power" in nodes && phase + "reactive_power" in nodes)
    ensures PowerInputsPresent(phase, "reactive", nodes) <==>
      (phase + "voltage" in nodes && phase + "current" in nodes && phase + "power_factor" in nodes)
      || (phase + "apparent_power" in nodes && phase + "active_power" in nodes)
    ensures PowerInputsPresent(phase, "apparent", nodes) <==>
      (phase + "voltage" in nodes && phase + "current" in nodes)
      || (phase + "active_power" in nodes && phase + "reactive_power" in nodes)
  {
  }

  /** The per-phase nodes a three-phase total power factor needs, in the order the loop visits them. */
  function TotalPfNeeds(): seq<string>
  {
    ["l1_active_power", "l1_reactive_power", "l2_active_power", "l2_reactive_power",
     "l3_active_power", "l3_reactive_power"]
  }

  /** `validate_pf_nodes(phase, ...)`. */
  function ValidatePfNodes(phase: string, nodes: Nodes, meterType: EnergyMeterType): (r: Outcome<MeterError>)
    ensures !Checked(nodes, phase + "power_factor") ==> r.Pass?
    ensures r.Fail? ==> r.error.NodeMissing? && r.error.node == phase + "power_factor"
    ensures Checked(nodes, phase + "power_factor") && IsThreePhaseTotal(meterType, phase) ==>
      r == RequireAll(nodes, phase + "power_factor", TotalPfNeeds())
    ensures Checked(nodes, phase + "power_factor") && !IsThreePhaseTotal(meterType, phase) ==>
      (r.Pass? <==> phase + "active_power" in nodes && phase + "reactive_power" in nodes)
  {
    var name := phase + "power_factor";
    if !Checked(nodes, name) then Pass
    else if IsThreePhaseTotal(meterType, phase) then RequireAll(nodes, name, TotalPfNeeds())
    else if phase + "active_power" in nodes && phase + "reactive_power" in nodes then Pass
    else Fail(NodeMissing(name, [phase + "active_power", phase + "reactive_power"]))
  }

  /** What a power-factor direction is derived from, besides the power factor, per meter options. */
  function DirectionSource(options: EnergyMeterOptions): seq<string>
  {
    if options.negativeReactivePower then ["reactive_power"]
    else if options.readSeparateForwardReverseEnergy then ["reactive_energy"]
    else []
  }

  /** The nodes one phase's direction needs: its power factor, then the option's source. */
  function DirectionNeeds(phase: string, options: EnergyMeterOptions): seq<string>
  {
    [phase + "power_factor"] + (if DirectionSource(options) == [] then [] else [phase + DirectionSource(options)[0]])
  }

  /** `validate_pf_direction_nodes(phase, ...)`. */
  function ValidatePfDirectionNodes(phase: string, nodes: Nodes, meterType: EnergyMeterType,
                                    options: EnergyMeterOptions): (r: Outcome<MeterError>)
    ensures !Checked(nodes, phase + "power_factor_direction") ==> r.Pass?
    ensures r.Fail? ==> r.error.NodeMissing? && r.error.node == phase + "power_factor_direction"
    ensures Checked(nodes, phase + "power_factor_direction") && IsThreePhaseTotal(meterType, phase) ==>
      r == RequireAll(nodes, phase + "power_factor_direction",
                      DirectionNeeds("l1_", options) + DirectionNeeds("l2_", options) + DirectionNeeds("l3_", options))
    ensures Checked(nodes, phase + "power_factor_direction") && !IsThreePhaseTotal(meterType, phase) ==>
      (r.Pass? <==> forall k :: k in DirectionNeeds(phase, options) ==> k in nodes)
  {
    var name := phase + "power_factor_direction";
    if !Checked(nodes, name) then Pass
    else if IsThreePhaseTotal(meterType, phase) then
      RequireAll(nodes, name, DirectionNeeds("l1_", options) + DirectionNeeds("l2_", options) + DirectionNeeds("l3_", options))
    else if forall k :: k in DirectionNeeds(phase, options) ==> k in nodes then Pass
    else Fail(NodeMissing(name, []))
  }

  /**
   * The direction needs the power factor and reactive power in negative-reactive-power mode,
   * the power factor and reactive energy in separate-energy mode, and the power factor alone
   * otherwise; the negative mode wins over the separate one.
   */
  lemma DirectionNeedsByMode(phase: string, options: EnergyMeterOptions)
    ensures options.negativeReactivePower ==>
      DirectionNeeds(phase, options) == [phase + "power_factor", phase + "reactive_power"]
    ensures !options.negativeReactivePower && options.readSeparateForwardReverseEnergy ==>
      DirectionNeeds(phase, options) == [phase + "power_factor", phase + "reactive_energy"]
    ensures !options.negativeReactivePower && !options.readSeparateForwardReverseEnergy ==>
      DirectionNeeds(phase, options) == [phase + "power_factor"]
  {
  }
}
