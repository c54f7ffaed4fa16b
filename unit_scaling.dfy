/** SI-prefix scaling of `util/functions/calculation.py`. */
module UnitScaling {
  import opened Wrappers

  /** `get_unit_factor`: the factor of the unit's first character in the SI prefix table. */
  function GetUnitFactor(unit: Option<string>): (f: real)
    ensures f > 0.0
    ensures unit.None? || unit.value == "" ==> f == 1.0
    ensures unit.Some? && unit.value != "" ==>
      f == match unit.value[0]
        case 'm' => 0.001
        case 'k' => 1000.0
        case 'M' => 1000000.0
        case 'G' => 1000000000.0
        case _ => 1.0
  {
    if unit.None? || unit.value == "" then 1.0
    else
      var table := map['m' := 0.001, 'k' := 1000.0, 'M' := 1000000.0, 'G' := 1000000000.0];
      if unit.value[0] in table then table[unit.value[0]] else 1.0
  }

  /** `get_scaled_value`: a value in the unit, expressed in the base unit. */
  function GetScaledValue(value: real, unit: Option<string>): real
  {
    value * GetUnitFactor(unit)
  }

  /** `apply_output_scaling`: a base-unit value, expressed in the unit. */
  function ApplyOutputScaling(value: real, unit: Option<string>): real
  {
    value / GetUnitFactor(unit)
  }

  /** Scaling to the base unit and back is the identity, in both orders. */
  lemma ScalingRoundTrip(value: real, unit: Option<string>)
    ensures ApplyOutputScaling(GetScaledValue(value, unit), unit) == value
    ensures GetScaledValue(ApplyOutputScaling(value, unit), unit) == value
  {
    var f := GetUnitFactor(unit);
    assert value * f / f == value;
    assert value / f * f == value;
  }

  /** Scaling preserves sign and order, because the factor is positive. */
  lemma ScalingMonotone(a: real, b: real, unit: Option<string>)
    requires a <= b
    ensures GetScaledValue(a, unit) <= GetScaledValue(b, unit)
    ensures ApplyOutputScaling(a, unit) <= ApplyOutputScaling(b, unit)
  {
    var f := GetUnitFactor(unit);
    assert (b - a) * f >= 0.0;
    assert (b - a) / f >= 0.0;
    assert b / f - a / f == (b - a) / f;
  }

  /** Example of `kWh` to `Wh` and back: 1.5 kWh is 1500 Wh. */
  lemma KiloExample()
    ensures GetScaledValue(1.5, Some("kWh")) == 1500.0
    ensures ApplyOutputScaling(1500.0, Some("kWh")) == 1.5
  {
  }
}
