/**
 * Node-name helpers of `util/functions/meter.py`: the phase prefix of a node name, the name
 * with its phase part removed, default attributes per meter type, and node lookups.
 */
module MeterUtil {
  import opened Wrappers
  import opened Strings
  import opened General
  import opened NodeModel

  /** The prefixes `get_node_prefix` tries, in order: line-to-line ones before single phases. */
  const NODE_PREFIXES: seq<string> := ["l1_l2_", "l2_l3_", "l3_l1_", "l1_", "l2_", "l3_", "total_"]

  /** The first prefix of `prefixes` that `name` starts with, or "" when none does. */
  function FirstPrefix(name: string, prefixes: seq<string>): (r: string)
    ensures r == "" || (r in prefixes && StartsWith(name, r))
  {
    if |prefixes| == 0 then ""
    else if StartsWith(name, prefixes[0]) then prefixes[0]
    else FirstPrefix(name, prefixes[1..])
  }

  /** `get_node_prefix(node)`, applied to the node's name. */
  function GetNodePrefix(name: string): string
  {
    FirstPrefix(name, NODE_PREFIXES)
  }

  /**
   * The prefix is the first of the list the name starts with: every earlier prefix fails,
   * and "" means that none matches.
   */
  lemma {:induction false} FirstPrefixIsFirstMatch(name: string, prefixes: seq<string>)
    requires forall i :: 0 <= i < |prefixes| ==> prefixes[i] != ""
    ensures var r := FirstPrefix(name, prefixes);
      && (r == "" <==> forall i :: 0 <= i < |prefixes| ==> !StartsWith(name, prefixes[i]))
      && (r != "" ==> exists k :: 0 <= k < |prefixes| && prefixes[k] == r
                        && forall i :: 0 <= i < k ==> !StartsWith(name, prefixes[i]))
  {
    if |prefixes| > 0 && !StartsWith(name, prefixes[0]) {
      FirstPrefixIsFirstMatch(name, prefixes[1..]);
      var r := FirstPrefix(name, prefixes);
      if r != "" {
        var k :| 0 <= k < |prefixes[1..]| && prefixes[1..][k] == r
          && forall i :: 0 <= i < k ==> !StartsWith(name, prefixes[1..][i]);
        assert prefixes[k + 1] == r;
        assert forall i :: 0 <= i < k + 1 ==> !StartsWith(name, prefixes[i]) by {
          forall i | 0 <= i < k + 1
            ensures !StartsWith(name, prefixes[i])
          {
            if i > 0 {
              assert prefixes[i] == prefixes[1..][i - 1];
            }
          }
        }
      } else {
        assert forall i :: 0 <= i < |prefixes| ==> !StartsWith(name, prefixes[i]) by {
          forall i | 0 <= i < |prefixes|
            ensures !StartsWith(name, prefixes[i])
          {
            if i > 0 {
              assert prefixes[i] == prefixes[1..][i - 1];
            }
          }
        }
      }
    } else if |prefixes| > 0 {
      assert prefixes[0] != "";
    }
  }

  /** The name tokens `remove_phase_string` treats as a phase. */
  function PhaseTokens(): set<string>
  {
    {"l1", "l2", "l3", "total"}
  }

  /** The second tokens that mark a line-to-line name. */
  function LineTokens(): set<string>
  {
    {"l1", "l2", "l3"}
  }

  /**
   * `remove_phase_string`: drop a leading phase token and, after it, one line token; other
   * names are returned unchanged.
   */
  function RemovePhaseString(name: string): string
  {
    var parts := Split(name, '_');
    if parts[0] in PhaseTokens() then
      if |parts| > 1 && parts[1] in LineTokens() then Join(parts[2..], "_")
      else Join(parts[1..], "_")
    else name
  }

  /** A base name that does not itself start with a phase: non-empty, first letter not `l`, `t` or `_`. */
  predicate PlainBase(base: string)
  {
    |base| > 0 && base[0] != 'l' && base[0] != 't' && base[0] != '_'
  }

  lemma PlainBaseFirstToken(base: string)
    requires PlainBase(base)
    ensures Split(base, '_')[0] !in PhaseTokens()
  {
    SplitHead(base, '_');
  }

  /** Single-phase and total prefixes. */
  function PhasePrefixes(): set<string>
  {
    {"l1_", "l2_", "l3_", "total_"}
  }

  /** Line-to-line prefixes. */
  function LinePrefixes(): set<string>
  {
    {"l1_l2_", "l2_l3_", "l3_l1_"}
  }

  /** A name with no phase part is returned unchanged and has the empty prefix. */
  lemma PlainNameUnchanged(base: string)
    requires PlainBase(base)
    ensures RemovePhaseString(base) == base
    ensures GetNodePrefix(base) == ""
  {
    PlainBaseFirstToken(base);
  }

  /** Splitting `t_base` yields the token `t` followed by the pieces of `base`. */
  lemma SplitTokenPrefix(t: string, base: string)
    requires '_' !in t
    ensures Split(t + "_" + base, '_') == [t] + Split(base, '_')
  {
    assert t + "_" + base == t + ['_'] + base;
    SplitAfterToken(t, '_', base);
  }

  /** The first prefix is the one at `k` when it matches and no earlier one does. */
  lemma {:induction false} FirstPrefixAt(name: string, prefixes: seq<string>, k: nat)
    requires k < |prefixes| && StartsWith(name, prefixes[k])
    requires forall i :: 0 <= i < k ==> !StartsWith(name, prefixes[i])
    ensures FirstPrefix(name, prefixes) == prefixes[k]
  {
    if k > 0 {
      assert !StartsWith(name, prefixes[0]);
      FirstPrefixAt(name, prefixes[1..], k - 1);
    }
  }

  /** Removing the phase part of `t_base` for a phase token `t` and a plain base. */
  lemma PhaseTokenRemoved(t: string, base: string)
    requires t in PhaseTokens() && PlainBase(base)
    ensures RemovePhaseString(t + "_" + base) == base
  {
    SplitTokenPrefix(t, base);
    PlainBaseFirstToken(base);
    JoinSplit(base, '_');
    var parts := Split(t + "_" + base, '_');
    assert parts[0] == t && parts[1..] == Split(base, '_');
  }

  /** Removing the phase part of `t1_t2_base` for a line-to-line pair of tokens. */
  lemma LineTokensRemoved(t1: string, t2: string, base: string)
    requires t1 in LineTokens() && t2 in LineTokens() && PlainBase(base)
    ensures RemovePhaseString(t1 + "_" + t2 + "_" + base) == base
  {
    assert t1 + "_" + t2 + "_" + base == t1 + "_" + (t2 + "_" + base);
    SplitTokenPrefix(t1, t2 + "_" + base);
    SplitTokenPrefix(t2, base);
    JoinSplit(base, '_');
    var parts := Split(t1 + "_" + t2 + "_" + base, '_');
    assert parts == [t1, t2] + Split(base, '_');
    assert parts[2..] == Split(base, '_');
  }

  /**
   * For a phase or total prefix `p` and a plain base name, the phase part comes off exactly
   * and `p` is the prefix found.
   */
  lemma PhasePrefixRoundTrip(p: string, base: string)
    requires p in PhasePrefixes() && PlainBase(base)
    ensures RemovePhaseString(p + base) == base
    ensures GetNodePrefix(p + base) == p
  {
    var name := p + base;
    var P := NODE_PREFIXES;
    assert name[|p|] == base[0];
    if p == "l1_" {
      assert name == "l1" + "_" + base;
      PhaseTokenRemoved("l1", base);
      assert !StartsWith(name, P[0]) by { assert name[3] != P[0][3]; }
      assert !StartsWith(name, P[1]) && !StartsWith(name, P[2]) by { assert name[1] == '1'; }
      FirstPrefixAt(name, P, 3);
    } else if p == "l2_" {
      assert name == "l2" + "_" + base;
      PhaseTokenRemoved("l2", base);
      assert !StartsWith(name, P[1]) by { assert name[3] != P[1][3]; }
      assert !StartsWith(name, P[0]) && !StartsWith(name, P[2]) && !StartsWith(name, P[3]) by { assert name[1] == '2'; }
      FirstPrefixAt(name, P, 4);
    } else if p == "l3_" {
      assert name == "l3" + "_" + base;
      PhaseTokenRemoved("l3", base);
      assert !StartsWith(name, P[2]) by { assert name[3] != P[2][3]; }
      assert forall i :: 0 <= i < 5 && i != 2 ==> !StartsWith(name, P[i]) by { assert name[1] == '3'; }
      FirstPrefixAt(name, P, 5);
    } else {
      assert name == "total" + "_" + base;
      PhaseTokenRemoved("total", base);
      assert forall i :: 0 <= i < 6 ==> !StartsWith(name, P[i]) by { assert name[0] == 't'; }
      FirstPrefixAt(name, P, 6);
    }
  }

  /** The same for a line-to-line prefix such as `l1_l2_`. */
  lemma LinePrefixRoundTrip(p: string, base: string)
    requires p in LinePrefixes() && PlainBase(base)
    ensures RemovePhaseString(p + base) == base
    ensures GetNodePrefix(p + base) == p
  {
    var name := p + base;
    var P := NODE_PREFIXES;
    if p == "l1_l2_" {
      assert name == "l1" + "_" + "l2" + "_" + base;
      LineTokensRemoved("l1", "l2", base);
      FirstPrefixAt(name, P, 0);
    } else if p == "l2_l3_" {
      assert name == "l2" + "_" + "l3" + "_" + base;
      LineTokensRemoved("l2", "l3", base);
      assert !StartsWith(name, P[0]) by { assert name[1] == '2'; }
      FirstPrefixAt(name, P, 1);
    } else {
      assert name == "l3" + "_" + "l1" + "_" + base;
      LineTokensRemoved("l3", "l1", base);
      assert !StartsWith(name, P[0]) && !StartsWith(name, P[1]) by { assert name[1] == '3'; }
      FirstPrefixAt(name, P, 2);
    }
  }

  /** `create_default_node_attributes`: single-phase meters get `SINGLEPHASE`, three-phase `GENERAL`. */
  function CreateDefaultNodeAttributes(meterType: EnergyMeterType): (a: NodeAttributes)
    ensures meterType == SINGLE_PHASE ==> a.phase == "Singlephase"
    ensures meterType == THREE_PHASE ==> a.phase == "General"
  {
    match meterType
    case SINGLE_PHASE => NodeAttributes(NodePhaseValue(SINGLEPHASE))
    case THREE_PHASE => NodeAttributes(NodePhaseValue(GENERAL))
  }

  /**
   * The exceptions of a node lookup and of the calculations: the `KeyError` of `get_node` or of
   * an absent dependency, and the `ValueError` ("math domain error") `math.sqrt` or `math.acos`
   * raises outside its domain.
   */
  datatype CalcError = KeyError(key: string) | MathDomainError

  /** `find_node`: the node under `key`, or `None`. */
  function FindNode<T>(key: string, nodes: map<string, T>): (r: Option<T>)
    ensures r.Some? <==> key in nodes
    ensures r.Some? ==> r.value == nodes[key]
  {
    if key in nodes then Some(nodes[key]) else None
  }

  /** `get_node`: the node under `key`, or a `KeyError`. */
  function GetNode<T>(key: string, nodes: map<string, T>): (r: Result<T, CalcError>)
    ensures r.Ok? <==> key in nodes
    ensures r.Ok? ==> r.value == nodes[key]
    ensures r.Err? ==> r.error == KeyError(key)
  {
    match FindNode(key, nodes)
    case Some(n) => Ok(n)
    case None => Err(KeyError(key))
  }
}
