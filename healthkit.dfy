/**
 * The parts of Apple's HealthKit framework that the plugin touches, as abstract values.
 *
 * Type handles (HKQuantityType, HKCategoryType, HKSampleType) are tags; a quantity
 * (HKQuantity) is an opaque handle whose unit compatibility and numeric conversion are
 * supplied by a `UnitKit`, a record of uninterpreted functions standing for
 * `HKQuantity.is(compatibleWith:)` and `HKQuantity.doubleValue(for:)`.
 */
module HealthKit {
  import opened Wrappers

  /** The quantity type handles the plugin ever asks HealthKit for. */
  datatype QuantityType = StepCount | ActiveEnergyBurned | BodyMass | HeartRate | OxygenSaturation

  /** The category type handles the plugin ever asks HealthKit for. */
  datatype CategoryType = SleepAnalysis

  /** HKSampleType: both quantity and category types are sample types. */
  datatype SampleType = QuantitySample(quantityType: QuantityType) | CategorySample(categoryType: CategoryType)

  /** The units the plugin names: `HKUnit(from: "count/min")`, `.percent()`, `.pound()`,
      `.inch()`, `.count()`, `.minute()` and `.kilocalorie()`. The null unit
      `HKUnit(from: "")` is represented by `None` wherever a unit is optional. */
  datatype Unit = CountPerMinute | Percent | Pound | Inch | Count | Minute | Kilocalorie

  /** An opaque HKQuantity. */
  datatype Quantity = Quantity(handle: nat)

  /** The framework's unit behaviour, left uninterpreted: whether a quantity can be
      expressed in a unit, and its (floating-point) magnitude in that unit. */
  datatype UnitKit = UnitKit(isCompatible: (Quantity, Unit) -> bool, doubleValue: (Quantity, Unit) -> real)

  /** HKStatisticsOptions members the plugin inserts. */
  datatype StatisticsOption = CumulativeSum | DiscreteAverage | DiscreteMin | DiscreteMax | MostRecent

  /** An HKStatistics result: each aggregate accessor may return nil. */
  datatype Statistics = Statistics(
    sumQuantity: Option<Quantity>,
    averageQuantity: Option<Quantity>,
    minimumQuantity: Option<Quantity>,
    maximumQuantity: Option<Quantity>,
    mostRecentQuantity: Option<Quantity>)
}
