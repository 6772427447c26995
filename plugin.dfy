/**
 * The decision logic of `KaizenHealthkitPlugin` (ios/Plugin/KaizenHealthkitPlugin.swift):
 * category names to HealthKit type handles, operation names to statistics options,
 * the statistics report, and the argument checks of the two entry points
 * `requestAuthorization` and `queryHKitStatistics`. The calls into HealthKit are
 * parameters of the entry points.
 */
module KaizenHealthkitPlugin {
  import opened Wrappers
  import opened HealthKit
  import opened Normalization

  // ---------------------------------------------------------------------------
  // Category names
  // ---------------------------------------------------------------------------

  /** The name each quantity type is requested by (`weight` stands for body mass). */
  function QuantityTypeName(t: QuantityType): string {
    match t
    case StepCount => "stepCount"
    case ActiveEnergyBurned => "activeEnergyBurned"
    case BodyMass => "weight"
    case HeartRate => "heartRate"
    case OxygenSaturation => "oxygenSaturation"
  }

  /** The name each sample type is requested by. */
  function SampleTypeName(t: SampleType): string {
    match t
    case QuantitySample(q) => QuantityTypeName(q)
    case CategorySample(SleepAnalysis) => "sleepAnalysis"
  }

  /** `getType`: the quantity type a statistics query names, or nil. */
  function GetType(name: string): (r: Option<QuantityType>)
    ensures r.Some? ==> QuantityTypeName(r.value) == name
    ensures r.None? ==> forall t :: QuantityTypeName(t) != name
  {
    match name
    case "stepCount" => Some(StepCount)
    case "activeEnergyBurned" => Some(ActiveEnergyBurned)
    case "weight" => Some(BodyMass)
    case "heartRate" => Some(HeartRate)
    case "oxygenSaturation" => Some(OxygenSaturation)
    case _ => None
  }

  /** One case of the switch in `getTypes`: the sample type an authorization names, if any. */
  function SampleTypeFor(item: string): (r: Option<SampleType>)
    ensures r.Some? ==> SampleTypeName(r.value) == item
    ensures r.None? ==> forall t :: SampleTypeName(t) != item
  {
    match item
    case "stepCount" => Some(QuantitySample(StepCount))
    case "sleepAnalysis" => Some(CategorySample(SleepAnalysis))
    case "activeEnergyBurned" => Some(QuantitySample(ActiveEnergyBurned))
    case "weight" => Some(QuantitySample(BodyMass))
    case "heartRate" => Some(QuantitySample(HeartRate))
    case "oxygenSaturation" => Some(QuantitySample(OxygenSaturation))
    case _ => None
  }

  /** Every statistics-queryable name is also accepted for authorization, as the same
      type; `sleepAnalysis` is the one name authorization accepts that `getType` refuses. */
  lemma QueryableNamesAreAuthorizable(name: string)
    ensures GetType(name).Some? ==> SampleTypeFor(name) == Some(QuantitySample(GetType(name).value))
    ensures SampleTypeFor(name).Some? && GetType(name).None? <==> name == "sleepAnalysis"
  {
    match SampleTypeFor(name)
    case None =>
    case Some(t) =>
      match t {
        case QuantitySample(q) => assert GetType(QuantityTypeName(q)) == Some(q);
        case CategorySample(SleepAnalysis) =>
      }
  }

  /** The set of sample types `getTypes` collects from a list of names. */
  function TypesOf(items: seq<string>): set<SampleType> {
    set item | item in items && SampleTypeFor(item).Some? :: SampleTypeFor(item).value
  }

  /** A sample type is collected exactly when its name is in the list. */
  lemma TypesOfMembers(items: seq<string>, t: SampleType)
    ensures t in TypesOf(items) <==> SampleTypeName(t) in items
  {
    var name := SampleTypeName(t);
    assert SampleTypeFor(name) == Some(t) by {
      match t
      case QuantitySample(q) =>
        match q {
          case StepCount =>
          case ActiveEnergyBurned =>
          case BodyMass =>
          case HeartRate =>
          case OxygenSaturation =>
        }
      case CategorySample(SleepAnalysis) =>
    }
    if name in items {
      assert t in TypesOf(items);
    }
  }

  /** The collected set depends only on which names occur: not on their order, nor on repeats. */
  lemma TypesOfIgnoresOrderAndRepeats(a: seq<string>, b: seq<string>)
    requires forall item :: item in a <==> item in b
    ensures TypesOf(a) == TypesOf(b)
  {
    forall t | t in TypesOf(a) ensures t in TypesOf(b) {
      TypesOfMembers(a, t);
      TypesOfMembers(b, t);
    }
    forall t | t in TypesOf(b) ensures t in TypesOf(a) {
      TypesOfMembers(a, t);
      TypesOfMembers(b, t);
    }
  }

  /** Collecting from a concatenation collects the union; an unknown name adds nothing. */
  lemma TypesOfAppend(a: seq<string>, b: seq<string>)
    ensures TypesOf(a + b) == TypesOf(a) + TypesOf(b)
  {
    forall t ensures t in TypesOf(a + b) <==> t in TypesOf(a) + TypesOf(b) {
      TypesOfMembers(a + b, t);
      TypesOfMembers(a, t);
      TypesOfMembers(b, t);
    }
  }

  /** `getTypes`: inserts the handle of every recognised name into a set; other names are skipped. */
  method GetTypes(items: seq<string>) returns (types: set<SampleType>)
    ensures types == TypesOf(items)
    ensures forall t :: t in types <==> SampleTypeName(t) in items
  {
    types := {};
    for i := 0 to |items|
      invariant types == TypesOf(items[..i])
    {
      TypesOfAppend(items[..i], [items[i]]);
      assert items[..i + 1] == items[..i] + [items[i]];
      match SampleTypeFor(items[i])
      case Some(t) =>
        types := types + {t};
      case None =>
    }
    assert items[..|items|] == items;
    forall t ensures t in types <==> SampleTypeName(t) in items {
      TypesOfMembers(items, t);
    }
  }

  // ---------------------------------------------------------------------------
  // Statistics operations
  // ---------------------------------------------------------------------------

  /** The aggregate operations a statistics query may ask for. */
  datatype Operation = Sum | Average | Min | Max | Latest

  /** The name each operation is requested by; it is also its key in the report. */
  function OperationName(op: Operation): string {
    match op
    case Sum => "sum"
    case Average => "average"
    case Min => "min"
    case Max => "max"
    case Latest => "latest"
  }

  /** The operation a name stands for: the cases shared by the switches of
      `getStatisticsOptions` and `generateReport`. */
  function ParseOperation(name: string): (r: Option<Operation>)
    ensures r.Some? ==> OperationName(r.value) == name
    ensures r.None? ==> forall op :: OperationName(op) != name
  {
    match name
    case "sum" => Some(Sum)
    case "average" => Some(Average)
    case "min" => Some(Min)
    case "max" => Some(Max)
    case "latest" => Some(Latest)
    case _ => None
  }

  /** The statistics option each operation needs. */
  function OptionFor(op: Operation): StatisticsOption {
    match op
    case Sum => CumulativeSum
    case Average => DiscreteAverage
    case Min => DiscreteMin
    case Max => DiscreteMax
    case Latest => MostRecent
  }

  /** The option set `getStatisticsOptions` builds from a list of operation names. */
  function OptionsOf(operations: seq<string>): set<StatisticsOption> {
    set name | name in operations && ParseOperation(name).Some? :: OptionFor(ParseOperation(name).value)
  }

  /** Each operation's option is in the set exactly when the operation's name is listed;
      nothing else is. */
  lemma OptionsOfMembers(operations: seq<string>, o: StatisticsOption)
    ensures o in OptionsOf(operations) <==> exists op :: OptionFor(op) == o && OperationName(op) in operations
  {
    if o in OptionsOf(operations) {
      var name :| name in operations && ParseOperation(name).Some? && OptionFor(ParseOperation(name).value) == o;
      var op := ParseOperation(name).value;
      assert OptionFor(op) == o && OperationName(op) in operations;
    }
    if op :| OptionFor(op) == o && OperationName(op) in operations {
      var name := OperationName(op);
      assert ParseOperation(name) == Some(op) by {
        match op
        case Sum =>
        case Average =>
        case Min =>
        case Max =>
        case Latest =>
      }
      assert o in OptionsOf(operations);
    }
  }

  /** The option set is the union of the options of the names; an empty list yields none. */
  lemma OptionsOfAppend(a: seq<string>, b: seq<string>)
    ensures OptionsOf(a + b) == OptionsOf(a) + OptionsOf(b)
    ensures OptionsOf([]) == {}
  {
    forall o ensures o in OptionsOf(a + b) <==> o in OptionsOf(a) + OptionsOf(b) {
      OptionsOfMembers(a + b, o);
      OptionsOfMembers(a, o);
      OptionsOfMembers(b, o);
    }
  }

  /** `getStatisticsOptions`: inserts the option of every known operation name; unknown names are skipped. */
  method GetStatisticsOptions(operations: seq<string>) returns (ops: set<StatisticsOption>)
    ensures ops == OptionsOf(operations)
    ensures forall op :: OptionFor(op) in ops <==> OperationName(op) in operations
  {
    ops := {};
    for i := 0 to |operations|
      invariant ops == OptionsOf(operations[..i])
    {
      OptionsOfAppend(operations[..i], [operations[i]]);
      assert operations[..i + 1] == operations[..i] + [operations[i]];
      match ParseOperation(operations[i])
      case Some(op) =>
        ops := ops + {OptionFor(op)};
      case None =>
    }
    assert operations[..|operations|] == operations;
    forall op ensures OptionFor(op) in ops <==> OperationName(op) in operations {
      OptionsOfMembers(operations, OptionFor(op));
    }
  }

  // ---------------------------------------------------------------------------
  // The statistics report
  // ---------------------------------------------------------------------------

  /** A value of the result dictionary handed back to JavaScript. */
  datatype Value = Number(n: real) | Text(s: string)

  /** The key under which the report's common unit label is stored. */
  const UnitNameKey: string := "unitName"

  /** Why a report could not be produced: the first present aggregate fitted no unit,
      so the force unwrap `result.unit!` traps. */
  datatype ReportError = UnitNotFound

  /** The aggregate accessor of HKStatistics that an operation reads. */
  function Aggregate(statistics: Statistics, op: Operation): Option<Quantity> {
    match op
    case Sum => statistics.sumQuantity
    case Average => statistics.averageQuantity
    case Min => statistics.minimumQuantity
    case Max => statistics.maximumQuantity
    case Latest => statistics.mostRecentQuantity
  }

  /** The aggregate an operation name reads; nil for an unknown name or an absent aggregate. */
  function AggregateNamed(statistics: Statistics, name: string): Option<Quantity> {
    match ParseOperation(name)
    case None => None
    case Some(op) => Aggregate(statistics, op)
  }

  /** `i` is the position of the first listed operation whose aggregate is present. */
  predicate FirstPresentAt(statistics: Statistics, operations: seq<string>, i: nat) {
    i < |operations| && AggregateNamed(statistics, operations[i]).Some? &&
    forall j :: 0 <= j < i ==> AggregateNamed(statistics, operations[j]).None?
  }

  /** The position of the first listed operation whose aggregate is present. */
  function FirstPresentIndex(statistics: Statistics, operations: seq<string>): (r: Option<nat>)
    ensures r.Some? ==> FirstPresentAt(statistics, operations, r.value)
    ensures r.None? ==> forall j :: 0 <= j < |operations| ==> AggregateNamed(statistics, operations[j]).None?
  {
    if operations == [] then None
    else
      var last := |operations| - 1;
      match FirstPresentIndex(statistics, operations[..last])
      case Some(i) => Some(i)
      case None => if AggregateNamed(statistics, operations[last]).Some? then Some(last) else None
  }

  /** Every present listed operation, converted into the unit `u`. */
  function Converted(kit: UnitKit, statistics: Statistics, operations: seq<string>, u: Unit): map<string, Value> {
    map name | name in operations && AggregateNamed(statistics, name).Some? ::
      Number(kit.doubleValue(AggregateNamed(statistics, name).value, u))
  }

  /** The unit a report is expressed in: that normalisation picks for the first present aggregate. */
  function ReportUnit(kit: UnitKit, quantityName: string, statistics: Statistics, operations: seq<string>): Option<NormalizedQuantity> {
    match FirstPresentIndex(statistics, operations)
    case None => None
    case Some(i) => Some(Normalize(kit, quantityName, AggregateNamed(statistics, operations[i]).value))
  }

  /** What `generateReport` returns: nothing when no aggregate is present; otherwise every present
      operation in the unit of the first, and that unit's label under `unitName`. */
  function Report(kit: UnitKit, quantityName: string, statistics: Statistics, operations: seq<string>): Result<map<string, Value>, ReportError> {
    match ReportUnit(kit, quantityName, statistics, operations)
    case None => Success(map[])
    case Some(first) =>
      match first.unit
      case None => Failure(UnitNotFound)
      case Some(u) => Success(Converted(kit, statistics, operations, u)[UnitNameKey := Text(first.unitName)])
  }

  /** Appending one operation adds its converted value, if its aggregate is present. */
  lemma ConvertedAppend(kit: UnitKit, statistics: Statistics, operations: seq<string>, name: string, u: Unit)
    ensures Converted(kit, statistics, operations + [name], u) ==
      match AggregateNamed(statistics, name)
      case None => Converted(kit, statistics, operations, u)
      case Some(q) => Converted(kit, statistics, operations, u)[name := Number(kit.doubleValue(q, u))]
  {
  }

  /** No aggregate in the list is present, so nothing is converted. */
  lemma ConvertedNothingPresent(kit: UnitKit, statistics: Statistics, operations: seq<string>, u: Unit)
    requires FirstPresentIndex(statistics, operations).None?
    ensures Converted(kit, statistics, operations, u) == map[]
  {
    forall name | name in operations ensures AggregateNamed(statistics, name).None? {
      var j :| 0 <= j < |operations| && operations[j] == name;
    }
  }

  /** An operation with no present aggregate (or an unknown name) changes neither the unit nor the report. */
  lemma ReportSkips(kit: UnitKit, quantityName: string, statistics: Statistics, prefix: seq<string>, name: string)
    requires AggregateNamed(statistics, name).None?
    ensures ReportUnit(kit, quantityName, statistics, prefix + [name]) == ReportUnit(kit, quantityName, statistics, prefix)
    ensures Report(kit, quantityName, statistics, prefix + [name]) == Report(kit, quantityName, statistics, prefix)
  {
    var ops := prefix + [name];
    assert ops[..|prefix|] == prefix;
    match FirstPresentIndex(statistics, prefix)
    case None =>
    case Some(j) =>
      assert ops[j] == prefix[j];
      match Normalize(kit, quantityName, AggregateNamed(statistics, prefix[j]).value).unit
      case None =>
      case Some(u) => ConvertedAppend(kit, statistics, prefix, name, u);
  }

  /** The first present aggregate fixes the unit and writes `unitName` and its own value. */
  lemma ReportFirstPresent(kit: UnitKit, quantityName: string, statistics: Statistics, prefix: seq<string>, name: string)
    requires FirstPresentIndex(statistics, prefix).None?
    requires AggregateNamed(statistics, name).Some?
    ensures ReportUnit(kit, quantityName, statistics, prefix + [name]) ==
      Some(Normalize(kit, quantityName, AggregateNamed(statistics, name).value))
    ensures var first := Normalize(kit, quantityName, AggregateNamed(statistics, name).value);
      first.unit.Some? ==>
        Report(kit, quantityName, statistics, prefix + [name]) ==
          Success(map[][UnitNameKey := Text(first.unitName)][name := Number(first.value)])
  {
    var ops := prefix + [name];
    assert ops[..|prefix|] == prefix;
    var first := Normalize(kit, quantityName, AggregateNamed(statistics, name).value);
    if first.unit.Some? {
      var u := first.unit.value;
      ConvertedNothingPresent(kit, statistics, prefix, u);
      ConvertedAppend(kit, statistics, prefix, name, u);
      assert name != UnitNameKey;
      assert Converted(kit, statistics, ops, u) == map[name := Number(first.value)];
      assert map[name := Number(first.value)][UnitNameKey := Text(first.unitName)] ==
        map[][UnitNameKey := Text(first.unitName)][name := Number(first.value)];
    }
  }

  /** A present aggregate after the first is converted into the unit already fixed. */
  lemma ReportLaterPresent(kit: UnitKit, quantityName: string, statistics: Statistics, prefix: seq<string>, name: string,
                           u: Unit, res: map<string, Value>)
    requires ReportUnit(kit, quantityName, statistics, prefix).Some?
    requires ReportUnit(kit, quantityName, statistics, prefix).value.unit == Some(u)
    requires Report(kit, quantityName, statistics, prefix) == Success(res)
    requires AggregateNamed(statistics, name).Some?
    ensures ReportUnit(kit, quantityName, statistics, prefix + [name]) == ReportUnit(kit, quantityName, statistics, prefix)
    ensures Report(kit, quantityName, statistics, prefix + [name]) ==
      Success(res[name := Number(kit.doubleValue(AggregateNamed(statistics, name).value, u))])
  {
    var ops := prefix + [name];
    assert ops[..|prefix|] == prefix;
    var j := FirstPresentIndex(statistics, prefix).value;
    assert ops[j] == prefix[j];
    var first := ReportUnit(kit, quantityName, statistics, prefix).value;
    var converted := Converted(kit, statistics, prefix, u);
    var value := Number(kit.doubleValue(AggregateNamed(statistics, name).value, u));
    ConvertedAppend(kit, statistics, prefix, name, u);
    assert name != UnitNameKey;
    assert converted[name := value][UnitNameKey := Text(first.unitName)] ==
      converted[UnitNameKey := Text(first.unitName)][name := value];
  }

  /** `generateReport`: walks the operations, skipping absent aggregates and unknown names;
      the first present aggregate fixes the unit and writes `unitName`, every later one is
      converted into that unit. */
  method GenerateReport(kit: UnitKit, quantityName: string, statistics: Statistics, operations: seq<string>)
    returns (r: Result<map<string, Value>, ReportError>)
    ensures r == Report(kit, quantityName, statistics, operations)
  {
    var res: map<string, Value> := map[];
    var unit: Option<Unit> := None;
    for i := 0 to |operations|
      invariant ReportUnit(kit, quantityName, statistics, operations[..i]).Some? ==>
        ReportUnit(kit, quantityName, statistics, operations[..i]).value.unit.Some?
      invariant unit == (match ReportUnit(kit, quantityName, statistics, operations[..i])
                         case None => None
                         case Some(first) => first.unit)
      invariant Report(kit, quantityName, statistics, operations[..i]) == Success(res)
    {
      var operation := operations[i];
      assert operations[..i + 1] == operations[..i] + [operation];
      var aggregate := AggregateNamed(statistics, operation);
      if aggregate.None? {
        ReportSkips(kit, quantityName, statistics, operations[..i], operation);
        continue;
      }
      var quantity := aggregate.value;
      if unit.None? {
        var result := Normalize(kit, quantityName, quantity);
        ReportFirstPresent(kit, quantityName, statistics, operations[..i], operation);
        if result.unit.None? {
          PrefixFixesReport(kit, quantityName, statistics, operations[..i + 1], operations[i + 1..]);
          assert operations[..i + 1] + operations[i + 1..] == operations;
          return Failure(UnitNotFound);
        }
        unit := result.unit;
        res := res[UnitNameKey := Text(result.unitName)];
        res := res[operation := Number(result.value)];
      } else {
        ReportLaterPresent(kit, quantityName, statistics, operations[..i], operation, unit.value, res);
        res := res[operation := Number(kit.doubleValue(quantity, unit.value))];
      }
    }
    assert operations[..|operations|] == operations;
    r := Success(res);
  }

  /** Once a prefix of the operations contains a present aggregate, later operations cannot
      change which one is first. */
  lemma PrefixFixesFirst(statistics: Statistics, prefix: seq<string>, rest: seq<string>)
    requires FirstPresentIndex(statistics, prefix).Some?
    ensures FirstPresentIndex(statistics, prefix + rest) == FirstPresentIndex(statistics, prefix)
  {
    var i := FirstPresentIndex(statistics, prefix).value;
    FirstPresentIndexUnique(statistics, prefix + rest, i);
  }

  /** The first present index is determined by its contract. */
  lemma FirstPresentIndexUnique(statistics: Statistics, operations: seq<string>, i: nat)
    requires FirstPresentAt(statistics, operations, i)
    ensures FirstPresentIndex(statistics, operations) == Some(i)
  {
  }

  /** A report whose unit is fixed by a prefix is a failure for every extension of it. */
  lemma PrefixFixesReport(kit: UnitKit, quantityName: string, statistics: Statistics, prefix: seq<string>, rest: seq<string>)
    requires Report(kit, quantityName, statistics, prefix).Failure?
    ensures Report(kit, quantityName, statistics, prefix + rest).Failure?
  {
    PrefixFixesFirst(statistics, prefix, rest);
    var i := FirstPresentIndex(statistics, prefix).value;
    assert (prefix + rest)[i] == prefix[i];
  }

  /** The report is empty exactly when no listed operation has a present aggregate. */
  lemma ReportEmptyIffNothingPresent(kit: UnitKit, quantityName: string, statistics: Statistics, operations: seq<string>)
    ensures Report(kit, quantityName, statistics, operations) == Success(map[]) <==>
      forall j :: 0 <= j < |operations| ==> AggregateNamed(statistics, operations[j]).None?
  {
    match FirstPresentIndex(statistics, operations)
    case None =>
    case Some(i) =>
      match Normalize(kit, quantityName, AggregateNamed(statistics, operations[i]).value).unit
      case None =>
      case Some(u) =>
        var m := Converted(kit, statistics, operations, u)[UnitNameKey := Text(Normalize(kit, quantityName, AggregateNamed(statistics, operations[i]).value).unitName)];
        assert UnitNameKey in m;
  }

  /** The report traps exactly when the first present aggregate fits no unit. */
  lemma ReportFailsIffFirstFitsNoUnit(kit: UnitKit, quantityName: string, statistics: Statistics, operations: seq<string>)
    ensures Report(kit, quantityName, statistics, operations).Failure? <==>
      exists i: nat :: FirstPresentAt(statistics, operations, i) &&
        Normalize(kit, quantityName, AggregateNamed(statistics, operations[i]).value).unit.None?
  {
    match FirstPresentIndex(statistics, operations)
    case None =>
    case Some(i) =>
      assert FirstPresentAt(statistics, operations, i);
      forall k | FirstPresentAt(statistics, operations, k) ensures k == i {
        FirstPresentIndexUnique(statistics, operations, k);
      }
  }

  /** The first operation with a present aggregate fixes the report's unit and its `unitName`;
      every present operation, that one included, is reported in that unit; no other key is written. */
  lemma ReportUnitFixedByFirst(kit: UnitKit, quantityName: string, statistics: Statistics, operations: seq<string>, i: nat, u: Unit)
    requires FirstPresentAt(statistics, operations, i)
    requires Normalize(kit, quantityName, AggregateNamed(statistics, operations[i]).value).unit == Some(u)
    ensures Report(kit, quantityName, statistics, operations).Success?
    ensures var m := Report(kit, quantityName, statistics, operations).value;
      var first := Normalize(kit, quantityName, AggregateNamed(statistics, operations[i]).value);
      && UnitNameKey in m && m[UnitNameKey] == Text(first.unitName)
      && m[UnitNameKey] == Text(UnitLabel(u))
      && operations[i] in m && m[operations[i]] == Number(first.value)
      && (forall j :: 0 <= j < |operations| && AggregateNamed(statistics, operations[j]).Some? ==>
            operations[j] in m && m[operations[j]] == Number(kit.doubleValue(AggregateNamed(statistics, operations[j]).value, u)))
      && (forall key :: key in m ==>
            key == UnitNameKey || (key in operations && AggregateNamed(statistics, key).Some?))
  {
    FirstPresentIndexUnique(statistics, operations, i);
    var first := Normalize(kit, quantityName, AggregateNamed(statistics, operations[i]).value);
    var m := Report(kit, quantityName, statistics, operations).value;
    assert m == Converted(kit, statistics, operations, u)[UnitNameKey := Text(first.unitName)];
    forall j | 0 <= j < |operations| && AggregateNamed(statistics, operations[j]).Some?
      ensures operations[j] in m && m[operations[j]] == Number(kit.doubleValue(AggregateNamed(statistics, operations[j]).value, u))
    {
      assert operations[j] != UnitNameKey;
      assert operations[j] in operations;
    }
  }

  /** An operation whose aggregate is absent, or whose name is unknown, changes nothing
      wherever it stands in the list. */
  lemma ReportIgnoresAbsent(kit: UnitKit, quantityName: string, statistics: Statistics, before: seq<string>, name: string, after: seq<string>)
    requires AggregateNamed(statistics, name).None?
    ensures Report(kit, quantityName, statistics, before + [name] + after) == Report(kit, quantityName, statistics, before + after)
  {
    var with := before + [name] + after;
    var without := before + after;
    assert forall n :: n in with <==> n in without || n == name;
    match FirstPresentIndex(statistics, without)
    case None =>
      forall j | 0 <= j < |with| ensures AggregateNamed(statistics, with[j]).None? {
        if j < |before| {
          assert with[j] == without[j];
        } else if j > |before| {
          assert with[j] == without[j - 1];
        }
      }
    case Some(k) =>
      var at := if k < |before| then k else k + 1;
      assert with[at] == without[k];
      forall j | 0 <= j < at ensures AggregateNamed(statistics, with[j]).None? {
        if j < |before| {
          assert with[j] == without[j];
        } else if j > |before| {
          assert with[j] == without[j - 1];
        }
      }
      FirstPresentIndexUnique(statistics, with, at);
      var first := Normalize(kit, quantityName, AggregateNamed(statistics, without[k]).value);
      match first.unit
      case None =>
      case Some(u) =>
        assert Converted(kit, statistics, with, u) == Converted(kit, statistics, without, u);
  }

  /** Asking for `sum` then `max` reports both in the unit chosen for the sum. */
  lemma SumThenMaxShareTheSumUnit(kit: UnitKit, quantityName: string, statistics: Statistics, u: Unit)
    requires statistics.sumQuantity.Some? && statistics.maximumQuantity.Some?
    requires Normalize(kit, quantityName, statistics.sumQuantity.value).unit == Some(u)
    ensures Report(kit, quantityName, statistics, ["sum", "max"]) ==
      Success(map["sum" := Number(kit.doubleValue(statistics.sumQuantity.value, u)),
                  "max" := Number(kit.doubleValue(statistics.maximumQuantity.value, u)),
                  UnitNameKey := Text(UnitLabel(u))])
  {
    var ops := ["sum", "max"];
    assert AggregateNamed(statistics, ops[0]) == statistics.sumQuantity;
    assert AggregateNamed(statistics, ops[1]) == statistics.maximumQuantity;
    assert FirstPresentAt(statistics, ops, 0);
    ReportUnitFixedByFirst(kit, quantityName, statistics, ops, 0, u);
    var m := Report(kit, quantityName, statistics, ops).value;
    assert forall key :: key in m ==> key == UnitNameKey || key == "sum" || key == "max";
    assert m["sum"] == Number(kit.doubleValue(statistics.sumQuantity.value, u));
    assert m["max"] == Number(kit.doubleValue(statistics.maximumQuantity.value, u));
    assert UnitNameKey in m && m[UnitNameKey] == Text(UnitLabel(u));
    assert m == map["sum" := Number(kit.doubleValue(statistics.sumQuantity.value, u)),
                  "max" := Number(kit.doubleValue(statistics.maximumQuantity.value, u)),
                  UnitNameKey := Text(UnitLabel(u))];
  }

  // ---------------------------------------------------------------------------
  // Entry points
  // ---------------------------------------------------------------------------

  /** A value of the options object a JavaScript caller passes to a plugin call. */
  datatype JsValue = JsString(s: string) | JsStringArray(items: seq<string>) | JsOther

  /** `call.options`: the options object, by key. */
  type CallOptions = map<string, JsValue>

  /** `call.options[key] as? String`. */
  function StringOption(options: CallOptions, key: string): Option<string> {
    if key in options && options[key].JsString? then Some(options[key].s) else None
  }

  /** `call.options[key] as? [String]`. */
  function StringArrayOption(options: CallOptions, key: string): Option<seq<string>> {
    if key in options && options[key].JsStringArray? then Some(options[key].items) else None
  }

  /** How a plugin call ends: resolved with a payload, rejected with a reason, or trapped
      by a failed force unwrap. */
  datatype Call = Resolved(payload: map<string, Value>) | Rejected(reason: string) | Trapped

  /** The sets handed to `HKHealthStore.requestAuthorization(toShare:read:)`. */
  datatype AuthorizationRequest = AuthorizationRequest(toShare: set<SampleType>, read: set<SampleType>)

  /** The request built from the three name lists: `all` goes into both sets. */
  function AuthorizationSets(read: seq<string>, write: seq<string>, all: seq<string>): AuthorizationRequest {
    AuthorizationRequest(TypesOf(write) + TypesOf(all), TypesOf(read) + TypesOf(all))
  }

  /** A type is shared exactly when its name is in `write` or `all`, and read exactly when
      its name is in `read` or `all`; so every recognised name in `all` is in both. */
  lemma AuthorizationSetsMembers(read: seq<string>, write: seq<string>, all: seq<string>, t: SampleType)
    ensures t in AuthorizationSets(read, write, all).toShare <==> SampleTypeName(t) in write || SampleTypeName(t) in all
    ensures t in AuthorizationSets(read, write, all).read <==> SampleTypeName(t) in read || SampleTypeName(t) in all
  {
    TypesOfMembers(read, t);
    TypesOfMembers(write, t);
    TypesOfMembers(all, t);
  }

  /** Authorizing `all: ["stepCount"]` with empty `read` and `write` asks to read and share step counts only. */
  lemma StepCountInAllIsReadAndShared()
    ensures AuthorizationSets([], [], ["stepCount"]) ==
      AuthorizationRequest({QuantitySample(StepCount)}, {QuantitySample(StepCount)})
  {
    var r := AuthorizationSets([], [], ["stepCount"]);
    forall t ensures t in r.toShare <==> t == QuantitySample(StepCount) {
      AuthorizationSetsMembers([], [], ["stepCount"], t);
      assert SampleTypeName(t) == "stepCount" <==> t == QuantitySample(StepCount);
    }
    forall t ensures t in r.read <==> t == QuantitySample(StepCount) {
      AuthorizationSetsMembers([], [], ["stepCount"], t);
    }
  }

  /** The three lists `requestAuthorization` needs are all present. */
  predicate HasAuthorizationLists(options: CallOptions) {
    StringArrayOption(options, "all").Some? && StringArrayOption(options, "read").Some? &&
    StringArrayOption(options, "write").Some?
  }

  /** `requestAuthorization`: refuses when health data is unavailable, then when `all`, `read`
      or `write` is missing, in that order, before asking HealthKit anything; otherwise asks
      for the composed sets (`granted` stands for the user's answer) and resolves or rejects. */
  method RequestAuthorization(healthDataAvailable: bool, options: CallOptions, granted: AuthorizationRequest -> bool)
    returns (request: Option<AuthorizationRequest>, r: Call)
    ensures !healthDataAvailable ==> request == None && r == Rejected("Health data not available")
    ensures healthDataAvailable && StringArrayOption(options, "all").None? ==>
      request == None && r == Rejected("Must provide all")
    ensures healthDataAvailable && StringArrayOption(options, "all").Some? && StringArrayOption(options, "read").None? ==>
      request == None && r == Rejected("Must provide read")
    ensures (healthDataAvailable && StringArrayOption(options, "all").Some? && StringArrayOption(options, "read").Some? &&
             StringArrayOption(options, "write").None?) ==>
      request == None && r == Rejected("Must provide write")
    ensures request.Some? <==> healthDataAvailable && HasAuthorizationLists(options)
    ensures request.Some? ==>
      && request.value == AuthorizationSets(StringArrayOption(options, "read").value,
                                            StringArrayOption(options, "write").value,
                                            StringArrayOption(options, "all").value)
      && r == (if granted(request.value) then Resolved(map[]) else Rejected("Could not get permission"))
  {
    if !healthDataAvailable {
      return None, Rejected("Health data not available");
    }
    var all := StringArrayOption(options, "all");
    if all.None? {
      return None, Rejected("Must provide all");
    }
    var read := StringArrayOption(options, "read");
    if read.None? {
      return None, Rejected("Must provide read");
    }
    var write := StringArrayOption(options, "write");
    if write.None? {
      return None, Rejected("Must provide write");
    }
    var writeTypes := GetTypes(write.value);
    var allTypes := GetTypes(all.value);
    var readTypes := GetTypes(read.value);
    var sets := AuthorizationRequest(writeTypes + allTypes, readTypes + allTypes);
    request := Some(sets);
    if !granted(sets) {
      r := Rejected("Could not get permission");
    } else {
      r := Resolved(map[]);
    }
  }

  /** The HealthKit statistics query the plugin issues. */
  datatype StatisticsQuery = StatisticsQuery(quantityType: QuantityType, startDate: string, endDate: string,
                                             options: set<StatisticsOption>)

  /** The four fields `queryHKitStatistics` needs are all present. */
  predicate HasStatisticsFields(options: CallOptions) {
    StringOption(options, "quantityType").Some? && StringOption(options, "startDate").Some? &&
    StringOption(options, "endDate").Some? && StringArrayOption(options, "operations").Some?
  }

  /** How the query's completion handler ends the call: the error's description (or "")
      when there are no statistics, otherwise the report. */
  function StatisticsReply(kit: UnitKit, quantityName: string, operations: seq<string>,
                           outcome: Result<Statistics, Option<string>>): Call {
    match outcome
    case Failure(description) => Rejected(description.GetOr(""))
    case Success(statistics) =>
      match Report(kit, quantityName, statistics, operations)
      case Success(res) => Resolved(res)
      case Failure(_) => Trapped
  }

  /** `queryHKitStatistics`: refuses a missing `quantityType`, `startDate`, `endDate` or
      `operations`, in that order, then a name `getType` does not know; otherwise issues one
      query (`execute` stands for HealthKit running it) and replies with the report. */
  method QueryHKitStatistics(kit: UnitKit, options: CallOptions, execute: StatisticsQuery -> Result<Statistics, Option<string>>)
    returns (query: Option<StatisticsQuery>, r: Call)
    ensures StringOption(options, "quantityType").None? ==>
      query == None && r == Rejected("Must provide quantityType")
    ensures StringOption(options, "quantityType").Some? && StringOption(options, "startDate").None? ==>
      query == None && r == Rejected("Must provide startDate")
    ensures (StringOption(options, "quantityType").Some? && StringOption(options, "startDate").Some? &&
             StringOption(options, "endDate").None?) ==>
      query == None && r == Rejected("Must provide endDate")
    ensures (StringOption(options, "quantityType").Some? && StringOption(options, "startDate").Some? &&
             StringOption(options, "endDate").Some? && StringArrayOption(options, "operations").None?) ==>
      query == None && r == Rejected("Must provide operations")
    ensures HasStatisticsFields(options) && GetType(StringOption(options, "quantityType").value).None? ==>
      query == None && r == Rejected("Error in quantity type")
    ensures query.Some? <==> HasStatisticsFields(options) && GetType(StringOption(options, "quantityType").value).Some?
    ensures query.Some? ==>
      var name := StringOption(options, "quantityType").value;
      var operations := StringArrayOption(options, "operations").value;
      && query.value == StatisticsQuery(GetType(name).value, StringOption(options, "startDate").value,
                                        StringOption(options, "endDate").value, OptionsOf(operations))
      && r == StatisticsReply(kit, name, operations, execute(query.value))
  {
    var quantityName := StringOption(options, "quantityType");
    if quantityName.None? {
      return None, Rejected("Must provide quantityType");
    }
    var startDate := StringOption(options, "startDate");
    if startDate.None? {
      return None, Rejected("Must provide startDate");
    }
    var endDate := StringOption(options, "endDate");
    if endDate.None? {
      return None, Rejected("Must provide endDate");
    }
    var operations := StringArrayOption(options, "operations");
    if operations.None? {
      return None, Rejected("Must provide operations");
    }
    var ops := GetStatisticsOptions(operations.value);
    var quantityType := GetType(quantityName.value);
    if quantityType.None? {
      return None, Rejected("Error in quantity type");
    }
    var issued := StatisticsQuery(quantityType.value, startDate.value, endDate.value, ops);
    query := Some(issued);
    match execute(issued)
    case Failure(description) =>
      r := Rejected(description.GetOr(""));
    case Success(statistics) =>
      var res := GenerateReport(kit, quantityName.value, statistics, operations.value);
      match res
      case Success(payload) => r := Resolved(payload);
      case Failure(_) => r := Trapped;
  }
}
