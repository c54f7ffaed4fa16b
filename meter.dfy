/**
 * `EnergyMeter` of `controller/meter/meter.py`: one processing cycle calculates the calculated
 * nodes, submits log entries for the nodes whose logging period has come round (and resets
 * the directional energies that are not logged on their own), and publishes the nodes that
 * are published and hold a value. The publish and measurement queues are sequences the
 * methods append to; the clock is a parameter.
 */
module Meter {
  import opened Wrappers
  import opened Values
  import opened Dates
  import opened Strings
  import TimeDb
  import opened General
  import opened NodeModel
  import opened MeterUtil
  import opened NodeSnapshot
  import opened MeterValidation
  import opened MeterCalculation
  import opened MeterNodeSet

  /** `Measurement(db, data)` put on the measurements queue. */
  datatype Measurement = Measurement(db: string, data: seq<map<string, Value>>)

  /** `MQTTMessage(qos, topic, payload)` put on the publish queue. */
  datatype MQTTMessage = MQTTMessage(qos: int, topic: string, payload: map<string, map<string, Value>>)

  /** `EnergyMeterRecord`: the meter's configuration and the records of its nodes. */
  datatype EnergyMeterRecord = EnergyMeterRecord(
    name: string,
    id: int,
    protocol: Protocol,
    meterType: EnergyMeterType,
    options: EnergyMeterOptions,
    communicationOptions: map<string, Value>,
    nodes: seq<NodeRecord>)

  /** `min_to_ms`: minutes as milliseconds. */
  function MinToMs(minutes: int): int
  {
    minutes * 60000
  }

  /**
   * The condition of `log_nodes` for a node that has logged before: at least a logging period
   * of time-of-day minutes has passed and the minute-trimmed timestamp is a whole number of
   * periods.
   */
  predicate LogDue(n: MeterNode, current: DateTime, utcOffset: int)
    requires LastLog(n).Some?
  {
    var period := n.config.loggingPeriod;
    && IsInt(period) && AsInt(period) > 0
    && SubtractDatetimeMins(current, LastLog(n).value) >= AsInt(period)
    && GetTimestamp(RemoveSecPrecision(current), utcOffset) % MinToMs(AsInt(period)) == 0
  }

  /** No entry fires while the time of day is earlier than that of the last log. */
  lemma LogNeverBeforeLastTimeOfDay(n: MeterNode, current: DateTime, utcOffset: int)
    requires LastLog(n).Some? && MinuteOfDay(current) < MinuteOfDay(LastLog(n).value)
    ensures !LogDue(n, current, utcOffset)
  {
  }

  /** With a one-minute period an entry fires whenever a minute of time of day has passed. */
  lemma LogDueEveryMinute(n: MeterNode, current: DateTime, utcOffset: int)
    requires LastLog(n).Some? && n.config.loggingPeriod == Int(1)
    ensures LogDue(n, current, utcOffset) <==> MinuteOfDay(current) - MinuteOfDay(LastLog(n).value) >= 1
  {
    TrimmedTimestampIsWholeMinutes(current, utcOffset);
  }

  /** The forward and reverse energies of one type under a prefix. */
  function DirKeys(head: string, energyType: string): seq<string>
  {
    [head + "forward_" + energyType + "_energy", head + "reverse_" + energyType + "_energy"]
  }

  /** The forward and reverse energies of a phase and its plain energy. */
  function PhaseResetKeys(p: string, energyType: string): seq<string>
  {
    DirKeys(p, energyType) + [p + energyType + "_energy"]
  }

  /** The keys `reset_directional_energy` visits for one energy type. */
  function EnergyResetKeys(prefix: string, energyType: string, name: string): seq<string>
  {
    if !Contains(name, "_" + energyType + "_energy") then []
    else if prefix == "total_" then
      DirKeys(prefix, energyType) + PhaseResetKeys("l1_", energyType) + PhaseResetKeys("l2_", energyType) + PhaseResetKeys("l3_", energyType)
    else DirKeys(prefix, energyType)
  }

  /** The keys `reset_directional_energy(node)` visits, reactive before active. */
  function ResetKeys(name: string): seq<string>
  {
    var prefix := GetNodePrefix(name);
    EnergyResetKeys(prefix, "reactive", name) + EnergyResetKeys(prefix, "active", name)
  }

  /** `processor.reset_value()` on every present, non-logging node under the keys, in order. */
  function ResetUnlogged(nodes: Nodes, keys: seq<string>, now: real): (r: Nodes)
    ensures r.Keys == nodes.Keys
    decreases |keys|
  {
    if keys == [] then nodes
    else
      var before := ResetUnlogged(nodes, keys[..|keys| - 1], now);
      var k := keys[|keys| - 1];
      if k in before && !before[k].config.logging then before[k := ResetNode(before[k], now)]
      else before
  }

  /**
   * Exactly the present, non-logging nodes under the keys are reset (a key listed twice is
   * reset once, as resetting is idempotent at one clock reading); every other node is
   * unchanged and no node's configuration changes.
   */
  lemma {:induction false} ResetUnloggedSpec(nodes: Nodes, keys: seq<string>, now: real)
    ensures var r := ResetUnlogged(nodes, keys, now);
      && (forall k :: k in nodes ==> r[k].config == nodes[k].config && r[k].kind == nodes[k].kind)
      && (forall k :: k in nodes && (k !in keys || nodes[k].config.logging) ==> r[k] == nodes[k])
      && (forall k :: k in nodes && k in keys && !nodes[k].config.logging ==> r[k] == ResetNode(nodes[k], now))
    decreases |keys|
  {
    if keys != [] {
      var front := keys[..|keys| - 1];
      ResetUnloggedSpec(nodes, front, now);
      var k := keys[|keys| - 1];
      if k in nodes && !nodes[k].config.logging {
        ResetNodeIdempotent(nodes[k], now);
      }
      assert forall j :: j in keys ==> j in front || j == k;
    }
  }

  /** The loop of `reset_directional_energy` over the keys it visits. */
  method ResetEach(nodes: Nodes, keys: seq<string>, now: real) returns (r: Nodes)
    ensures r == ResetUnlogged(nodes, keys, now)
  {
    r := nodes;
    for i := 0 to |keys|
      invariant r == ResetUnlogged(nodes, keys[..i], now)
    {
      assert keys[..i + 1][..i] == keys[..i];
      var key := keys[i];
      if key in r && !r[key].config.logging {
        r := r[key := ResetNode(r[key], now)];
      }
    }
    assert keys[..|keys|] == keys;
  }

  /** `reset_directional_energy(node)` for the node named `name`. */
  function ResetDirectionalEnergy(nodes: Nodes, name: string, now: real): (r: Nodes)
    ensures r.Keys == nodes.Keys
  {
    ResetUnlogged(nodes, ResetKeys(name), now)
  }

  /** An energy key starts with its phase prefix and ends with `_<type>_energy`. */
  lemma EnergyKeyParts(p: string, d: string, t: string)
    requires d == "forward_" || d == "reverse_" || (d == "" && (p == "l1_" || p == "l2_" || p == "l3_"))
    ensures StartsWith(p + d + t + "_energy", p)
    ensures EndsWith(p + d + t + "_energy", "_" + t + "_energy")
  {
    var head := p + d;
    var k := head + t + "_energy";
    assert p + d + t + "_energy" == k;
    assert k[..|p|] == p;
    assert head[|head| - 1] == '_';
    assert k[|head| - 1..] == [head[|head| - 1]] + t + "_energy";
  }

  lemma DirKeyParts(head: string, t: string, k: string)
    requires k in DirKeys(head, t)
    ensures StartsWith(k, head) && EndsWith(k, "_" + t + "_energy")
  {
    if k == head + "forward_" + t + "_energy" {
      EnergyKeyParts(head, "forward_", t);
    } else {
      EnergyKeyParts(head, "reverse_", t);
    }
  }

  lemma PhaseKeyParts(p: string, t: string, k: string)
    requires (p == "l1_" || p == "l2_" || p == "l3_") && k in PhaseResetKeys(p, t)
    ensures StartsWith(k, p) && EndsWith(k, "_" + t + "_energy")
  {
    if k in DirKeys(p, t) {
      DirKeyParts(p, t, k);
    } else {
      assert k == p + "" + t + "_energy";
      EnergyKeyParts(p, "", t);
    }
  }

  /** Each key of one energy type is one of the shapes `EnergyKeyParts` covers. */
  lemma EnergyResetKeyParts(prefix: string, t: string, name: string, k: string)
    requires k in EnergyResetKeys(prefix, t, name)
    ensures Contains(name, "_" + t + "_energy")
    ensures EndsWith(k, "_" + t + "_energy")
    ensures StartsWith(k, prefix) || (prefix == "total_" && (StartsWith(k, "l1_") || StartsWith(k, "l2_") || StartsWith(k, "l3_")))
  {
    if k in DirKeys(prefix, t) {
      DirKeyParts(prefix, t, k);
    } else if k in PhaseResetKeys("l1_", t) {
      PhaseKeyParts("l1_", t, k);
    } else if k in PhaseResetKeys("l2_", t) {
      PhaseKeyParts("l2_", t, k);
    } else {
      PhaseKeyParts("l3_", t, k);
    }
  }

  /**
   * A node whose name holds neither energy fragment resets nothing; every key reset is an
   * energy of a type the name holds; and outside `total_` every key carries the node's own
   * prefix, while `total_` also reaches into l1_, l2_ and l3_.
   */
  lemma ResetKeysMatchName(name: string)
    ensures !Contains(name, "_active_energy") && !Contains(name, "_reactive_energy") ==> ResetKeys(name) == []
    ensures forall k :: k in ResetKeys(name) ==>
      || (EndsWith(k, "_active_energy") && Contains(name, "_active_energy"))
      || (EndsWith(k, "_reactive_energy") && Contains(name, "_reactive_energy"))
    ensures var prefix := GetNodePrefix(name);
      forall k :: k in ResetKeys(name) ==>
        StartsWith(k, prefix) || (prefix == "total_" && (StartsWith(k, "l1_") || StartsWith(k, "l2_") || StartsWith(k, "l3_")))
  {
    var prefix := GetNodePrefix(name);
    assert "_" + "reactive" + "_energy" == "_reactive_energy" && "_" + "active" + "_energy" == "_active_energy";
    forall k | k in ResetKeys(name)
      ensures || (EndsWith(k, "_active_energy") && Contains(name, "_active_energy"))
              || (EndsWith(k, "_reactive_energy") && Contains(name, "_reactive_energy"))
      ensures StartsWith(k, prefix) || (prefix == "total_" && (StartsWith(k, "l1_") || StartsWith(k, "l2_") || StartsWith(k, "l3_")))
    {
      if k in EnergyResetKeys(prefix, "reactive", name) {
        EnergyResetKeyParts(prefix, "reactive", name, k);
      } else {
        EnergyResetKeyParts(prefix, "active", name, k);
      }
    }
  }

  /** A node that is logged is never reset by its own directional reset. */
  lemma LoggingNodeNotReset(nodes: Nodes, name: string, now: real)
    requires name in nodes && nodes[name].config.logging
    ensures ResetDirectionalEnergy(nodes, name, now)[name] == nodes[name]
  {
    ResetUnloggedSpec(nodes, ResetKeys(name), now);
  }

  /** One node of the `log_nodes` loop: the nodes afterwards and the measurements queued. */
  function LogStep(nodes: Nodes, key: string, db: string, current: DateTime, utcOffset: int, now: real,
                   round: (real, int) -> real): (r: (Nodes, seq<Measurement>))
    requires key in nodes
    ensures r.0.Keys == nodes.Keys
    ensures |r.1| <= 1
  {
    var n := nodes[key];
    if !n.config.logging || !n.config.enabled then (nodes, [])
    else if LastLog(n).None? then (nodes[key := WithLastLog(n, current)], [])
    else if LogDue(n, current, utcOffset) then
      var logged := NodeSubmitLog(n, current, now, now, round);
      (ResetDirectionalEnergy(nodes[key := logged.1], n.config.name, now), [Measurement(db, [logged.0])])
    else (nodes, [])
  }

  /**
   * A disabled or non-logging node is skipped; on the first visit only `last_log_datetime` is
   * recorded; when due, exactly one measurement holding the node's entry goes to `db`, the node
   * is reset with its last log at `current`, and only the directional energies it names are
   * reset besides; otherwise nothing changes.
   */
  lemma LogStepCases(nodes: Nodes, key: string, db: string, current: DateTime, utcOffset: int, now: real,
                     round: (real, int) -> real)
    requires key in nodes
    ensures var n := nodes[key];
      var r := LogStep(nodes, key, db, current, utcOffset, now, round);
      && (!n.config.logging || !n.config.enabled ==> r == (nodes, []))
      && (n.config.logging && n.config.enabled && LastLog(n).None? ==>
            r.1 == [] && r.0 == nodes[key := r.0[key]] && LastLog(r.0[key]) == Some(current) && r.0[key].proc == WithLastLog(n, current).proc)
      && (n.config.logging && n.config.enabled && LastLog(n).Some? && !LogDue(n, current, utcOffset) ==> r == (nodes, []))
      && (n.config.logging && n.config.enabled && LastLog(n).Some? && LogDue(n, current, utcOffset) ==>
            && |r.1| == 1 && r.1[0].db == db
            && r.1[0].data == [NodeSubmitLog(n, current, now, now, round).0]
            && r.1[0].data[0]["start_time"] == OptDate(LastLog(n))
            && !HasValue(r.0[key]) && LastLog(r.0[key]) == Some(current)
            && forall k :: k in nodes && k != key && (k !in ResetKeys(n.config.name) || nodes[k].config.logging) ==> r.0[k] == nodes[k])
  {
    var n := nodes[key];
    if n.config.logging && n.config.enabled && LastLog(n).Some? && LogDue(n, current, utcOffset) {
      var logged := NodeSubmitLog(n, current, now, now, round);
      ResetUnloggedSpec(nodes[key := logged.1], ResetKeys(n.config.name), now);
    }
  }

  /** The `log_nodes` loop over the keys in order. */
  function LogAll(nodes: Nodes, keys: seq<string>, db: string, current: DateTime, utcOffset: int, now: real,
                  round: (real, int) -> real): (r: (Nodes, seq<Measurement>))
    requires forall k :: k in keys ==> k in nodes
    ensures r.0.Keys == nodes.Keys
    ensures |r.1| <= |keys|
    decreases |keys|
  {
    if keys == [] then (nodes, [])
    else
      var before := LogAll(nodes, keys[..|keys| - 1], db, current, utcOffset, now, round);
      var step := LogStep(before.0, keys[|keys| - 1], db, current, utcOffset, now, round);
      (step.0, before.1 + step.1)
  }

  /**
   * A logging pass changes no node's configuration, so the nodes stay keyed by name and the
   * payload published after it is exact (`PublishPayloadExact`).
   */
  lemma {:induction false} LogAllKeepsConfigs(nodes: Nodes, keys: seq<string>, db: string, current: DateTime, utcOffset: int,
                                              now: real, round: (real, int) -> real)
    requires forall k :: k in keys ==> k in nodes
    ensures var r := LogAll(nodes, keys, db, current, utcOffset, now, round).0;
      forall k :: k in nodes ==> r[k].config == nodes[k].config
    decreases |keys|
  {
    if keys != [] {
      var front := keys[..|keys| - 1];
      LogAllKeepsConfigs(nodes, front, db, current, utcOffset, now, round);
      var before := LogAll(nodes, front, db, current, utcOffset, now, round).0;
      LogStepKeepsConfigs(before, keys[|keys| - 1], db, current, utcOffset, now, round);
    }
  }

  lemma LogStepKeepsConfigs(nodes: Nodes, key: string, db: string, current: DateTime, utcOffset: int,
                            now: real, round: (real, int) -> real)
    requires key in nodes
    ensures var r := LogStep(nodes, key, db, current, utcOffset, now, round).0;
      forall k :: k in nodes ==> r[k].config == nodes[k].config
  {
    var n := nodes[key];
    if n.config.logging && n.config.enabled && LastLog(n).Some? && LogDue(n, current, utcOffset) {
      var logged := NodeSubmitLog(n, current, now, now, round);
      ResetUnloggedSpec(nodes[key := logged.1], ResetKeys(n.config.name), now);
    }
  }

  /** The node of a dict that a calculation pass sends to a calculation. */
  predicate IsCalculated(n: MeterNode)
  {
    n.config.calculated && n.config.enabled
  }

  /**
   * One task of `calculate_nodes`: an enabled calculated node goes to the calculation of the
   * first suffix its name contains; a `KeyError` or `ValueError` is logged and leaves the nodes as they were.
   */
  function CalculateStep(nodes: Nodes, key: string, options: EnergyMeterOptions, maths: Maths, now: real): (r: Nodes)
    requires key in nodes
    ensures r.Keys == nodes.Keys
  {
    var n := nodes[key];
    if !IsCalculated(n) then nodes
    else
      match Dispatch(n.config.name)
      case None => nodes
      case Some(m) =>
        match ApplyCalculation(m, key, nodes, options, maths, now)
        case Ok(r) => r
        case Err(_) => nodes
  }

  /** The calculation tasks of `calculate_nodes`, run one after another in key order. */
  function CalculateAll(nodes: Nodes, keys: seq<string>, options: EnergyMeterOptions, maths: Maths, now: real): (r: Nodes)
    requires forall k :: k in keys ==> k in nodes
    ensures r.Keys == nodes.Keys
    decreases |keys|
  {
    if keys == [] then nodes
    else CalculateStep(CalculateAll(nodes, keys[..|keys| - 1], options, maths, now), keys[|keys| - 1], options, maths, now)
  }

  /** `prefix + s` contains `s`. */
  lemma ContainsAppended(prefix: string, s: string)
    ensures Contains(prefix + s, s)
  {
    assert OccursAt(prefix + s, s, |prefix|) by {
      assert (prefix + s)[|prefix|..|prefix| + |s|] == s;
    }
  }

  /**
   * An active or reactive power whose square root or arc cosine is out of domain raises
   * `ValueError` in its task; the gathered exception is only logged, so the node set, the
   * target included, stays as it was.
   */
  lemma PowerDomainErrorKeepsNodes(nodes: Nodes, key: string, powerType: string, options: EnergyMeterOptions,
                                   maths: Maths, now: real)
    requires key in nodes && IsCalculated(nodes[key])
    requires Dispatch(nodes[key].config.name) == Some(PowerCalc(powerType))
    requires var prefix := GetNodePrefix(nodes[key].config.name);
      && prefix != "total_"
      && (powerType == "active" ==> ActivePower(prefix, nodes, maths).Err?)
      && (powerType == "reactive" ==> ReactivePower(prefix, nodes, maths).Err?)
      && (powerType == "active" || powerType == "reactive")
    ensures CalculateStep(nodes, key, options, maths, now) == nodes
  {
    var prefix := GetNodePrefix(nodes[key].config.name);
    assert CalculatePower(prefix, powerType, key, nodes, maths, now).Err?;
  }

  /**
   * A calculation writes only its target node and, for a power-factor direction, the
   * reactive energy of its phase; every node keeps its configuration.
   */
  lemma CalculateStepFrame(nodes: Nodes, key: string, options: EnergyMeterOptions, maths: Maths, now: real)
    requires key in nodes
    ensures var r := CalculateStep(nodes, key, options, maths, now);
      && (forall k :: k in nodes ==> r[k].config == nodes[k].config)
      && (forall k :: k in nodes && k != key && !Contains(k, "reactive_energy") ==> r[k] == nodes[k])
      && (!IsCalculated(nodes[key]) || Dispatch(nodes[key].config.name).None? ==> r == nodes)
  {
    var n := nodes[key];
    if IsCalculated(n) && Dispatch(n.config.name).Some? {
      var prefix := GetNodePrefix(n.config.name);
      ContainsAppended(prefix, "reactive_energy");
      ApplyCalculationFrame(Dispatch(n.config.name).value, key, nodes, options, maths, now);
    }
  }

  lemma ApplyCalculationFrame(m: CalcMethod, target: string, nodes: Nodes, options: EnergyMeterOptions, maths: Maths, now: real)
    requires target in nodes
    ensures var r := ApplyCalculation(m, target, nodes, options, maths, now);
      var er := GetNodePrefix(nodes[target].config.name) + "reactive_energy";
      r.Ok? ==>
        && (forall k :: k in nodes ==> r.value[k].config == nodes[k].config)
        && (forall k :: k in nodes && k != target && k != er ==> r.value[k] == nodes[k])
  {
  }

  /**
   * A calculation pass leaves every node that is not an enabled calculated node with a matching
   * suffix unchanged, apart from reactive energies a power-factor direction resets.
   */
  lemma {:induction false} CalculateAllFrame(nodes: Nodes, keys: seq<string>, options: EnergyMeterOptions, maths: Maths, now: real)
    requires forall k :: k in keys ==> k in nodes
    ensures var r := CalculateAll(nodes, keys, options, maths, now);
      && (forall k :: k in nodes ==> r[k].config == nodes[k].config)
      && (forall k :: k in nodes && (!IsCalculated(nodes[k]) || Dispatch(nodes[k].config.name).None?) && !Contains(k, "reactive_energy")
            ==> r[k] == nodes[k])
    decreases |keys|
  {
    if keys != [] {
      var front := keys[..|keys| - 1];
      CalculateAllFrame(nodes, front, options, maths, now);
      var before := CalculateAll(nodes, front, options, maths, now);
      var key := keys[|keys| - 1];
      CalculateStepFrame(before, key, options, maths, now);
    }
  }

  /** A published node: `node.config.publish and node.processor.value is not None`. */
  predicate Publishable(n: MeterNode)
  {
    n.config.publish && HasValue(n)
  }

  /** The payload `publish_nodes` builds over the keys in order, keyed by node name. */
  function PublishPayload(nodes: Nodes, keys: seq<string>, round: (real, int) -> real): map<string, map<string, Value>>
    decreases |keys|
  {
    if keys == [] then map[]
    else
      var rest := PublishPayload(nodes, keys[..|keys| - 1], round);
      var k := keys[|keys| - 1];
      if k in nodes && Publishable(nodes[k]) then rest[nodes[k].config.name := NodePublishFormat(nodes[k], round)]
      else rest
  }

  /** The loop of `calculate_nodes` over the node keys in order. */
  method CalculateEvery(start: Nodes, order: seq<string>, options: EnergyMeterOptions, maths: Maths, now: real)
    returns (nodes: Nodes)
    requires forall k :: k in order ==> k in start
    ensures nodes == CalculateAll(start, order, options, maths, now)
  {
    nodes := start;
    for i := 0 to |order|
      invariant nodes == CalculateAll(start, order[..i], options, maths, now)
    {
      assert order[..i + 1][..i] == order[..i];
      var key := order[i];
      var n := nodes[key];
      if IsCalculated(n) {
        var m := Dispatch(n.config.name);
        if m.Some? {
          var result := ApplyCalculation(m.value, key, nodes, options, maths, now);
          if result.Ok? {
            nodes := result.value;
          }
        }
      }
    }
    assert order[..|order|] == order;
  }

  /** The loop of `publish_nodes` that collects the published nodes' formats. */
  method BuildPayload(nodes: Nodes, order: seq<string>, round: (real, int) -> real)
    returns (payload: map<string, map<string, Value>>)
    requires forall k :: k in order ==> k in nodes
    ensures payload == PublishPayload(nodes, order, round)
  {
    payload := map[];
    for i := 0 to |order|
      invariant payload == PublishPayload(nodes, order[..i], round)
    {
      assert order[..i + 1][..i] == order[..i];
      var n := nodes[order[i]];
      if n.config.publish && HasValue(n) {
        payload := payload[n.config.name := NodePublishFormat(n, round)];
      }
    }
    assert order[..|order|] == order;
  }

  /** What `publish_nodes` queues: one message on `<name>_<id>_nodes`, or nothing for an empty payload. */
  function PublishMessages(topic: string, payload: map<string, map<string, Value>>): (r: seq<MQTTMessage>)
    ensures |r| <= 1 && (r == [] <==> payload == map[])
  {
    if payload == map[] then [] else [MQTTMessage(0, topic, payload)]
  }

  /**
   * The payload of a dict keyed by name holds exactly the published nodes with a value, each in
   * its publish format.
   */
  lemma PublishPayloadExact(d: NodeDict, round: (real, int) -> real)
    requires ValidDict(d) && KeyedByName(d)
    ensures var payload := PublishPayload(d.nodes, d.order, round);
      && (forall k :: k in payload <==> k in d.nodes && Publishable(d.nodes[k]))
      && (forall k :: k in payload ==> payload[k] == NodePublishFormat(d.nodes[k], round))
  {
    PublishPayloadSpec(d.nodes, d.order, round);
  }

  /** Over any keys of nodes keyed by name, the payload holds the published keys with a value. */
  lemma {:induction false} PublishPayloadSpec(nodes: Nodes, keys: seq<string>, round: (real, int) -> real)
    requires forall k :: k in nodes ==> nodes[k].config.name == k
    ensures var payload := PublishPayload(nodes, keys, round);
      && (forall k :: k in payload <==> k in keys && k in nodes && Publishable(nodes[k]))
      && (forall k :: k in payload ==> payload[k] == NodePublishFormat(nodes[k], round))
    decreases |keys|
  {
    if keys != [] {
      var front := keys[..|keys| - 1];
      PublishPayloadSpec(nodes, front, round);
      assert forall j :: j in keys <==> j in front || j == keys[|keys| - 1];
    }
  }

  /**
   * Logging runs before publishing in a cycle, so a node whose entry was just submitted holds
   * no value and is left out of the payload.
   */
  lemma LoggedNodeNotPublished(nodes: Nodes, key: string, db: string, current: DateTime, utcOffset: int, now: real,
                               round: (real, int) -> real)
    requires key in nodes && |LogStep(nodes, key, db, current, utcOffset, now, round).1| == 1
    ensures !Publishable(LogStep(nodes, key, db, current, utcOffset, now, round).0[key])
  {
    LogStepCases(nodes, key, db, current, utcOffset, now, round);
  }

  /** Whether some earlier record of the set equals this one. */
  predicate HasEqualRecord(records: seq<NodeRecord>, r: NodeRecord)
  {
    exists i :: 0 <= i < |records| && RecordEquals(records[i], r)
  }

  /** `node_records.add(record)` for each node in turn: a record equal to one already present is dropped. */
  function RecordSet(ns: seq<MeterNode>): seq<NodeRecord>
    decreases |ns|
  {
    if ns == [] then []
    else
      var rest := RecordSet(ns[..|ns| - 1]);
      var record := MeterNodeRecord(ns[|ns| - 1]);
      if HasEqualRecord(rest, record) then rest else rest + [record]
  }

  /**
   * The record set holds no two equal records (equal meaning same device id and name), one
   * for every node given, and only records of nodes given.
   */
  lemma RecordSetSpec(ns: seq<MeterNode>)
    ensures var r := RecordSet(ns);
      && (forall i, j :: 0 <= i < j < |r| ==> !RecordEquals(r[i], r[j]))
      && (forall n :: n in ns ==> HasEqualRecord(r, MeterNodeRecord(n)))
      && (forall x :: x in r ==> exists n :: n in ns && x == MeterNodeRecord(n))
  {
    RecordSetDistinct(ns);
    RecordSetCovers(ns);
    RecordSetOnlyGiven(ns);
  }

  lemma {:induction false} RecordSetDistinct(ns: seq<MeterNode>)
    ensures forall i, j :: 0 <= i < j < |RecordSet(ns)| ==> !RecordEquals(RecordSet(ns)[i], RecordSet(ns)[j])
    decreases |ns|
  {
    if ns != [] {
      var front := ns[..|ns| - 1];
      RecordSetDistinct(front);
      var rest := RecordSet(front);
      var record := MeterNodeRecord(ns[|ns| - 1]);
      var r := RecordSet(ns);
      forall i, j | 0 <= i < j < |r|
        ensures !RecordEquals(r[i], r[j])
      {
        if j < |rest| {
          assert r[i] == rest[i] && r[j] == rest[j];
        } else {
          assert !HasEqualRecord(rest, record) && r == rest + [record];
          assert r[i] == rest[i] && r[j] == record;
        }
      }
    }
  }

  lemma {:induction false} RecordSetCovers(ns: seq<MeterNode>)
    ensures forall n :: n in ns ==> HasEqualRecord(RecordSet(ns), MeterNodeRecord(n))
    decreases |ns|
  {
    if ns != [] {
      var front := ns[..|ns| - 1];
      RecordSetCovers(front);
      var rest := RecordSet(front);
      var record := MeterNodeRecord(ns[|ns| - 1]);
      assert forall n :: n in ns ==> n in front || n == ns[|ns| - 1];
      if !HasEqualRecord(rest, record) {
        HasEqualRecordAppend(rest, record);
      }
    }
  }

  lemma {:induction false} RecordSetOnlyGiven(ns: seq<MeterNode>)
    ensures forall x :: x in RecordSet(ns) ==> exists n :: n in ns && x == MeterNodeRecord(n)
    decreases |ns|
  {
    if ns != [] {
      var front := ns[..|ns| - 1];
      RecordSetOnlyGiven(front);
      assert forall n :: n in front ==> n in ns;
    }
  }

  /** Replacing the nodes by a map with the same keys keeps the dict well formed. */
  lemma SameKeysValid(d: NodeDict, nodes: Nodes)
    requires ValidDict(d) && nodes.Keys == d.nodes.Keys
    ensures ValidDict(d.(nodes := nodes))
  {
  }

  /** Appending a record keeps every equal record found so far and finds the new one. */
  lemma HasEqualRecordAppend(rest: seq<NodeRecord>, record: NodeRecord)
    ensures HasEqualRecord(rest + [record], record)
    ensures forall x :: HasEqualRecord(rest, x) ==> HasEqualRecord(rest + [record], x)
  {
    var r := rest + [record];
    assert RecordEquals(r[|rest|], record);
    forall x | HasEqualRecord(rest, x)
      ensures HasEqualRecord(r, x)
    {
      var i :| 0 <= i < |rest| && RecordEquals(rest[i], x);
      assert r[i] == rest[i];
    }
  }

  /** One node of the `log_nodes` loop. */
  method LogOne(nodes: Nodes, key: string, db: string, current: DateTime, utcOffset: int, now: real,
                round: (real, int) -> real) returns (r: Nodes, queued: seq<Measurement>)
    requires key in nodes
    ensures (r, queued) == LogStep(nodes, key, db, current, utcOffset, now, round)
  {
    var n := nodes[key];
    if !n.config.logging || !n.config.enabled {
      return nodes, [];
    }
    if LastLog(n).None? {
      return nodes[key := WithLastLog(n, current)], [];
    }
    if !LogDue(n, current, utcOffset) {
      return nodes, [];
    }
    var logged := NodeSubmitLog(n, current, now, now, round);
    r := ResetEach(nodes[key := logged.1], ResetKeys(n.config.name), now);
    queued := [Measurement(db, [logged.0])];
  }

  /** The loop of `log_nodes` over the dict's keys. */
  method LogEvery(start: Nodes, order: seq<string>, db: string, current: DateTime, utcOffset: int, now: real,
                  round: (real, int) -> real) returns (nodes: Nodes, queued: seq<Measurement>)
    requires forall k :: k in order ==> k in start
    ensures (nodes, queued) == LogAll(start, order, db, current, utcOffset, now, round)
  {
    nodes := start;
    queued := [];
    for i := 0 to |order|
      invariant (nodes, queued) == LogAll(start, order[..i], db, current, utcOffset, now, round)
    {
      assert order[..i + 1][..i] == order[..i];
      var more;
      nodes, more := LogOne(nodes, order[i], db, current, utcOffset, now, round);
      queued := queued + more;
    }
    assert order[..|order|] == order;
  }

  /** `EnergyMeter`: the meter's identity and options, its node set, and the queues it writes. */
  class EnergyMeter {
    const id: int
    const name: string
    const protocol: Protocol
    const meterType: EnergyMeterType
    const meterOptions: EnergyMeterOptions
    const communicationOptions: map<string, Value>
    /** `self.nodes`, the node set the meter was given, in its iteration order. */
    const deviceNodes: seq<MeterNode>
    const meterNodes: EnergyMeterNodes
    var connected: bool
    var disconnectedCalculation: bool
    var published: seq<MQTTMessage>
    var measurements: seq<Measurement>

    /** The nodes are keyed by name in dict order. */
    ghost predicate Valid()
      reads this, meterNodes
    {
      ValidDict(meterNodes.nodes)
    }

    /** `<name>_<id>`, the measurement database. */
    function LogDb(): string
    {
      TimeDb.DbName(name, id)
    }

    /** `<name>_<id>_nodes`, the publish topic. */
    function Topic(): string
    {
      name + "_" + IntToString(id) + "_nodes"
    }

    /**
     * The state `__init__` sets up before validating: the nodes keyed by name, disconnected,
     * no calculation pass since disconnection, nothing queued.
     */
    constructor(id: int, name: string, protocol: Protocol, meterType: EnergyMeterType, meterOptions: EnergyMeterOptions,
                communicationOptions: map<string, Value>, ns: seq<MeterNode>)
      ensures Valid()
      ensures this.id == id && this.name == name && this.protocol == protocol && this.meterType == meterType
      ensures this.meterOptions == meterOptions && this.communicationOptions == communicationOptions && deviceNodes == ns
      ensures meterNodes.meterType == meterType && meterNodes.meterOptions == meterOptions && meterNodes.nodes == FromNodes(ns)
      ensures !connected && !disconnectedCalculation && published == [] && measurements == []
      ensures fresh(meterNodes)
    {
      this.id := id;
      this.name := name;
      this.protocol := protocol;
      this.meterType := meterType;
      this.meterOptions := meterOptions;
      this.communicationOptions := communicationOptions;
      deviceNodes := ns;
      meterNodes := new EnergyMeterNodes(meterType, meterOptions, ns);
      connected := false;
      disconnectedCalculation := false;
      published := [];
      measurements := [];
    }

    /** `EnergyMeter(...)`: the meter, or the validation error `__init__` raises. */
    static method Create(id: int, name: string, protocol: Protocol, meterType: EnergyMeterType, meterOptions: EnergyMeterOptions,
                         communicationOptions: map<string, Value>, ns: seq<MeterNode>) returns (r: Result<EnergyMeter, MeterError>)
      ensures r.Err? <==> ValidateNodeSet(meterType, meterOptions, FromNodes(ns)).Fail?
      ensures r.Err? ==> r.error == ValidateNodeSet(meterType, meterOptions, FromNodes(ns)).error
      ensures r.Ok? ==> fresh(r.value) && fresh(r.value.meterNodes) && r.value.Valid()
      ensures r.Ok? ==> r.value.meterNodes.nodes == FromNodes(ns) && r.value.deviceNodes == ns && !r.value.connected
    {
      var meter := new EnergyMeter(id, name, protocol, meterType, meterOptions, communicationOptions, ns);
      var check := meter.meterNodes.ValidateNodes();
      if check.Fail? {
        return Err(check.error);
      }
      return Ok(meter);
    }

    /** The protocol layer's connection flag. */
    method SetConnection(state: bool)
      modifies this
      ensures connected == state
      ensures disconnectedCalculation == old(disconnectedCalculation) && published == old(published) && measurements == old(measurements)
    {
      connected := state;
    }

    /** `reset_directional_energy(node)` for the node named `nodeName`. */
    method ResetDirectional(nodeName: string, now: real)
      requires Valid()
      modifies meterNodes
      ensures Valid()
      ensures meterNodes.nodes == old(meterNodes.nodes).(nodes := ResetDirectionalEnergy(old(meterNodes.nodes.nodes), nodeName, now))
    {
      var nodes := ResetEach(meterNodes.nodes.nodes, ResetKeys(nodeName), now);
      SameKeysValid(meterNodes.nodes, nodes);
      meterNodes.nodes := meterNodes.nodes.(nodes := nodes);
    }

    /** `log_nodes()` at `current`, `utcOffset` minutes from UTC, with processor clock `now`. */
    method LogNodes(current: DateTime, utcOffset: int, now: real, round: (real, int) -> real)
      requires Valid()
      modifies this, meterNodes
      ensures Valid()
      ensures var logged := LogAll(old(meterNodes.nodes.nodes), old(meterNodes.nodes.order), LogDb(), current, utcOffset, now, round);
        && meterNodes.nodes == old(meterNodes.nodes).(nodes := logged.0)
        && measurements == old(measurements) + logged.1
      ensures connected == old(connected) && disconnectedCalculation == old(disconnectedCalculation) && published == old(published)
    {
      var nodes, queued := LogEvery(meterNodes.nodes.nodes, meterNodes.nodes.order, LogDb(), current, utcOffset, now, round);
      SameKeysValid(meterNodes.nodes, nodes);
      meterNodes.nodes := meterNodes.nodes.(nodes := nodes);
      measurements := measurements + queued;
    }

    /** `calculate_nodes()`. */
    method CalculateNodes(maths: Maths, now: real)
      requires Valid()
      modifies meterNodes
      ensures Valid()
      ensures meterNodes.nodes == old(meterNodes.nodes).(nodes := CalculateAll(old(meterNodes.nodes.nodes), old(meterNodes.nodes.order), meterOptions, maths, now))
    {
      var nodes := CalculateEvery(meterNodes.nodes.nodes, meterNodes.nodes.order, meterOptions, maths, now);
      SameKeysValid(meterNodes.nodes, nodes);
      meterNodes.nodes := meterNodes.nodes.(nodes := nodes);
    }


    /** `publish_nodes()`. */
    method PublishNodes(round: (real, int) -> real)
      requires Valid()
      modifies this
      ensures published == old(published) + PublishMessages(Topic(), PublishPayload(meterNodes.nodes.nodes, meterNodes.nodes.order, round))
      ensures connected == old(connected) && disconnectedCalculation == old(disconnectedCalculation) && measurements == old(measurements)
    {
      var payload := BuildPayload(meterNodes.nodes.nodes, meterNodes.nodes.order, round);
      if payload != map[] {
        published := published + [MQTTMessage(0, Topic(), payload)];
      }
    }

    /**
     * `process_nodes()`: connected, it clears the disconnection flag, calculates, logs and then
     * publishes; disconnected, it calculates once and not again until reconnected.
     */
    method ProcessNodes(current: DateTime, utcOffset: int, now: real, maths: Maths, round: (real, int) -> real)
      requires Valid()
      modifies this, meterNodes
      ensures Valid() && connected == old(connected)
      ensures old(connected) ==>
        var calculated := CalculateAll(old(meterNodes.nodes.nodes), old(meterNodes.nodes.order), meterOptions, maths, now);
        var logged := LogAll(calculated, old(meterNodes.nodes.order), LogDb(), current, utcOffset, now, round);
        && !disconnectedCalculation
        && meterNodes.nodes == old(meterNodes.nodes).(nodes := logged.0)
        && measurements == old(measurements) + logged.1
        && published == old(published) + PublishMessages(Topic(), PublishPayload(logged.0, old(meterNodes.nodes.order), round))
      ensures !old(connected) && !old(disconnectedCalculation) ==>
        && disconnectedCalculation
        && meterNodes.nodes == old(meterNodes.nodes).(nodes := CalculateAll(old(meterNodes.nodes.nodes), old(meterNodes.nodes.order), meterOptions, maths, now))
        && measurements == old(measurements) && published == old(published)
      ensures !old(connected) && old(disconnectedCalculation) ==>
        && disconnectedCalculation && meterNodes.nodes == old(meterNodes.nodes)
        && measurements == old(measurements) && published == old(published)
    {
      if connected {
        disconnectedCalculation := false;
        CalculateNodes(maths, now);
        LogNodes(current, utcOffset, now, round);
        PublishNodes(round);
      } else if !disconnectedCalculation {
        CalculateNodes(maths, now);
        disconnectedCalculation := true;
      }
    }

    /** `get_meter_record()`. */
    method GetMeterRecord() returns (r: EnergyMeterRecord)
      ensures r == EnergyMeterRecord(name, id, protocol, meterType, meterOptions, communicationOptions, RecordSet(deviceNodes))
    {
      var records: seq<NodeRecord> := [];
      for i := 0 to |deviceNodes|
        invariant records == RecordSet(deviceNodes[..i])
      {
        assert deviceNodes[..i + 1][..i] == deviceNodes[..i];
        var record := MeterNodeRecord(deviceNodes[i]);
        if !HasEqualRecord(records, record) {
          records := records + [record];
        }
      }
      assert deviceNodes[..|deviceNodes|] == deviceNodes;
      return EnergyMeterRecord(name, id, protocol, meterType, meterOptions, communicationOptions, records);
    }
  }
}
