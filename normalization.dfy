/**
 * `NormalizedQuantity` (ios/Plugin/KaizenHealthkitPlugin.swift): picks the unit a quantity is
 * reported in, the label shown for that unit, and the quantity's value in it.
 */
module Normalization {
  import opened Wrappers
  import opened HealthKit

  /** `unit` is nil when no unit fits; `unitName` and `value` are then "" and 0. */
  datatype NormalizedQuantity = NormalizedQuantity(unit: Option<Unit>, unitName: string, value: real)

  /** The label the plugin reports beside a unit it chose. */
  function UnitLabel(u: Unit): string {
    match u
    case CountPerMinute => "BPM"
    case Percent => "%"
    case Pound => "pound"
    case Inch => "inch"
    case Count => "count"
    case Minute => "minute"
    case Kilocalorie => "kilocalorie"
  }

  /** The quantity-type names whose unit is fixed whatever the quantity is. */
  predicate HasFixedUnit(quantityType: string) {
    quantityType == "heartRate" || quantityType == "oxygenSaturation" || quantityType == "weight"
  }

  /** The units probed for compatibility, in the order they are tried. */
  const ProbeOrder: seq<Unit> := [Inch, Count, Minute, Kilocalorie]

  /** `u` is the first unit of ProbeOrder that the quantity is compatible with. */
  ghost predicate FirstCompatibleProbe(kit: UnitKit, quantity: Quantity, u: Unit) {
    exists i :: 0 <= i < |ProbeOrder| && ProbeOrder[i] == u && kit.isCompatible(quantity, u) &&
      forall j :: 0 <= j < i ==> !kit.isCompatible(quantity, ProbeOrder[j])
  }

  /** The if/else ladder of `NormalizedQuantity.init(quantityType:quantity:)`. */
  function Normalize(kit: UnitKit, quantityType: string, quantity: Quantity): (r: NormalizedQuantity)
    // the name overrides win whatever the quantity is
    ensures quantityType == "heartRate" ==> r.unit == Some(CountPerMinute) && r.unitName == "BPM"
    ensures quantityType == "oxygenSaturation" ==> r.unit == Some(Percent) && r.unitName == "%"
    ensures quantityType == "weight" ==> r.unit == Some(Pound) && r.unitName == "pound"
    // otherwise the first compatible probe is chosen
    ensures !HasFixedUnit(quantityType) && r.unit.Some? ==> FirstCompatibleProbe(kit, quantity, r.unit.value)
    // no unit exactly when there is no override and no probe fits
    ensures r.unit.None? <==>
      !HasFixedUnit(quantityType) && forall i :: 0 <= i < |ProbeOrder| ==> !kit.isCompatible(quantity, ProbeOrder[i])
    ensures r.unit.None? ==> r.unitName == "" && r.value == 0.0
    ensures r.unit.Some? ==> r.unitName == UnitLabel(r.unit.value) && r.value == kit.doubleValue(quantity, r.unit.value)
  {
    var unit :=
      if quantityType == "heartRate" then Some(CountPerMinute)
      else if quantityType == "oxygenSaturation" then Some(Percent)
      else if quantityType == "weight" then Some(Pound)
      else if kit.isCompatible(quantity, Inch) then assert ProbeOrder[0] == Inch; Some(Inch)
      else if kit.isCompatible(quantity, Count) then assert ProbeOrder[1] == Count; Some(Count)
      else if kit.isCompatible(quantity, Minute) then assert ProbeOrder[2] == Minute; Some(Minute)
      else if kit.isCompatible(quantity, Kilocalorie) then assert ProbeOrder[3] == Kilocalorie; Some(Kilocalorie)
      else None;
    match unit
    case None => NormalizedQuantity(None, "", 0.0)
    case Some(u) => NormalizedQuantity(Some(u), UnitLabel(u), kit.doubleValue(quantity, u))
  }

  // A data-driven reference for the same choice: an ordered table of name overrides,
  // then an ordered list of probes.

  /** The name overrides, in the order they are tested. */
  const Overrides: seq<(string, Unit)> := [("heartRate", CountPerMinute), ("oxygenSaturation", Percent), ("weight", Pound)]

  /** The unit of the first table entry named `quantityType`. */
  function LookupOverride(table: seq<(string, Unit)>, quantityType: string): Option<Unit> {
    if table == [] then None
    else if table[0].0 == quantityType then Some(table[0].1)
    else LookupOverride(table[1..], quantityType)
  }

  /** The first unit of `probes` the quantity is compatible with. */
  function FirstCompatible(kit: UnitKit, quantity: Quantity, probes: seq<Unit>): Option<Unit> {
    if probes == [] then None
    else if kit.isCompatible(quantity, probes[0]) then Some(probes[0])
    else FirstCompatible(kit, quantity, probes[1..])
  }

  /** The table-driven normalisation. */
  function NormalizeByTable(kit: UnitKit, quantityType: string, quantity: Quantity): NormalizedQuantity {
    var unit := match LookupOverride(Overrides, quantityType)
                case Some(u) => Some(u)
                case None => FirstCompatible(kit, quantity, ProbeOrder);
    match unit
    case None => NormalizedQuantity(None, "", 0.0)
    case Some(u) => NormalizedQuantity(Some(u), UnitLabel(u), kit.doubleValue(quantity, u))
  }

  /** The ladder and the table agree on every input. */
  lemma NormalizeIsTableDriven(kit: UnitKit, quantityType: string, quantity: Quantity)
    ensures Normalize(kit, quantityType, quantity) == NormalizeByTable(kit, quantityType, quantity)
  {
    var weightOnly := [("weight", Pound)];
    var rest := [("oxygenSaturation", Percent)] + weightOnly;
    assert Overrides[1..] == rest && rest[1..] == weightOnly && weightOnly[1..] == [];
    if !HasFixedUnit(quantityType) {
      calc {
        LookupOverride(Overrides, quantityType);
        LookupOverride(rest, quantityType);
        LookupOverride(weightOnly, quantityType);
        LookupOverride([], quantityType);
      }
      var kcalOnly := [Kilocalorie];
      var fromMinute := [Minute] + kcalOnly;
      var fromCount := [Count] + fromMinute;
      assert ProbeOrder[1..] == fromCount && fromCount[1..] == fromMinute;
      assert fromMinute[1..] == kcalOnly && kcalOnly[1..] == [];
      assert FirstCompatible(kit, quantity, kcalOnly) ==
        if kit.isCompatible(quantity, Kilocalorie) then Some(Kilocalorie) else None;
      assert FirstCompatible(kit, quantity, fromMinute) ==
        if kit.isCompatible(quantity, Minute) then Some(Minute) else FirstCompatible(kit, quantity, kcalOnly);
      assert FirstCompatible(kit, quantity, fromCount) ==
        if kit.isCompatible(quantity, Count) then Some(Count) else FirstCompatible(kit, quantity, fromMinute);
    }
  }
}
