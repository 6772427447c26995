# kaizen-healthkit: the plugin's decision logic in Dafny

kaizen-healthkit is a Capacitor plugin that lets a JavaScript app ask Apple HealthKit for
authorization and for aggregate statistics. Almost all of it is glue. The decisions live in
`ios/Plugin/KaizenHealthkitPlugin.swift`, and this project models exactly those:

- **Category names to type handles.** `getType` maps five names to the quantity types a
  statistics query may use. `getTypes` turns a list of names into a set of sample types for
  authorization, and it skips names it does not know.
- **Authorization.** `requestAuthorization` checks availability, then requires `all`, `read`
  and `write`, in that order. It then asks HealthKit to share `write ∪ all` and read `read ∪ all`.
- **Statistics options.** `getStatisticsOptions` folds operation names (`sum`, `average`,
  `min`, `max`, `latest`) into a set of HealthKit statistics options.
- **Unit choice.** `NormalizedQuantity.init` is a fixed ladder. The overrides by name come
  first (heart rate in count/min shown as "BPM", oxygen saturation in percent, weight in pounds).
  Then come compatibility probes in the order inch, count, minute, kilocalorie. If nothing
  fits, there is no unit.
- **The report.** `generateReport` walks the requested operations. It skips absent aggregates
  and unknown names. The first present aggregate fixes the unit and writes `unitName`. Every
  present operation is reported in that unit.
- **Statistics request checks.** `queryHKitStatistics` requires `quantityType`, `startDate`,
  `endDate` and `operations`, in that order. It then refuses a quantity type `getType` does not know.

Files and modules:

- `wrappers.dfy` (`Wrappers`): `Option` and `Result`.
- `healthkit.dfy` (`HealthKit`): the framework as abstract values. Type handles are datatype
  tags. A quantity is an opaque handle. `UnitKit` is a record of two uninterpreted functions,
  for `is(compatibleWith:)` and `doubleValue(for:)`. `Statistics` is a record of five optional
  aggregates.
- `normalization.dfy` (`Normalization`): `NormalizedQuantity` and its ladder. It also holds a
  data-driven reference for the ladder (an ordered override table plus an ordered probe list)
  and the proof that the two agree.
- `plugin.dfy` (`KaizenHealthkitPlugin`): the name tables, `GetTypes`,
  `GetStatisticsOptions`, `GenerateReport` and the two entry points. Each loop method is
  proved against a specification function (`TypesOf`, `OptionsOf`, `Report`). The properties
  are lemmas about those functions.

The HealthKit calls become parameters. Health-data availability is a `bool`. The user's
authorization answer is a function of the requested sets. Running a statistics query is a
function from the query to statistics or an error description. Each entry point returns the
request it handed to HealthKit (`None` when it refused first). It also returns how the call
ended: resolved, rejected with a reason, or trapped by the force unwrap `result.unit!`.

The name tables and messages are the code's own:

- `getType` knows five quantity names: stepCount, activeEnergyBurned, weight, heartRate and
  oxygenSaturation.
- The compatibility probes are inch, count, minute and kilocalorie, in that order, and no others.
- The rejection strings are "Error in quantity type" and "Could not get permission".

## Model

| member | source | states |
|---|---|---|
| Normalization.Normalize | ios/Plugin/KaizenHealthkitPlugin.swift:12-42 | heartRate, oxygenSaturation and weight get count/min "BPM", percent "%" and pound "pound" whatever the quantity; otherwise the unit is the first compatible probe in the order inch, count, minute, kilocalorie; there is no unit exactly when no override applies and no probe fits, and then the label is "" and the value 0; otherwise the label belongs to the unit and the value is the quantity in that unit |
| Normalization.NormalizeIsTableDriven | ios/Plugin/KaizenHealthkitPlugin.swift:12-42 | the if/else ladder equals a lookup in an ordered override table followed by a first-compatible search of the ordered probe list |
| KaizenHealthkitPlugin.GetType | ios/Plugin/KaizenHealthkitPlugin.swift:67-82 | a returned quantity type is the one the name denotes; nil exactly for names that denote no quantity type |
| KaizenHealthkitPlugin.SampleTypeFor | ios/Plugin/KaizenHealthkitPlugin.swift:87-102 | one case of the getTypes switch: a returned sample type is the one the name denotes; none exactly for names that denote no sample type |
| KaizenHealthkitPlugin.QueryableNamesAreAuthorizable | ios/Plugin/KaizenHealthkitPlugin.swift:67-105 | every name getType accepts is accepted by getTypes as the same type; sleepAnalysis is the one name getTypes accepts and getType refuses |
| KaizenHealthkitPlugin.TypesOfMembers | ios/Plugin/KaizenHealthkitPlugin.swift:84-105 | a sample type is in the collected set exactly when its name is in the list |
| KaizenHealthkitPlugin.TypesOfIgnoresOrderAndRepeats | ios/Plugin/KaizenHealthkitPlugin.swift:84-105 | two lists with the same names, in any order and with any repeats, give the same set |
| KaizenHealthkitPlugin.TypesOfAppend | ios/Plugin/KaizenHealthkitPlugin.swift:84-105 | the set for a concatenation is the union of the sets; so an unknown name adds nothing |
| KaizenHealthkitPlugin.GetTypes | ios/Plugin/KaizenHealthkitPlugin.swift:84-105 | the loop returns exactly the set specified by the names, and a type is in it exactly when its name is listed |
| KaizenHealthkitPlugin.ParseOperation | ios/Plugin/KaizenHealthkitPlugin.swift:136-150 | a returned operation is the one the name denotes; none exactly for names that denote no operation |
| KaizenHealthkitPlugin.OptionsOfMembers | ios/Plugin/KaizenHealthkitPlugin.swift:133-154 | an option is in the set exactly when the name of an operation mapping to it is listed |
| KaizenHealthkitPlugin.OptionsOfAppend | ios/Plugin/KaizenHealthkitPlugin.swift:133-154 | the options of a concatenation are the union of the options; the empty list yields no option |
| KaizenHealthkitPlugin.GetStatisticsOptions | ios/Plugin/KaizenHealthkitPlugin.swift:133-154 | the loop returns exactly the specified option set: sum, average, min, max and latest add cumulativeSum, discreteAverage, discreteMin, discreteMax and mostRecent, and nothing else is added |
| KaizenHealthkitPlugin.FirstPresentIndex | ios/Plugin/KaizenHealthkitPlugin.swift:160-188 | the position found has a present aggregate and no earlier one has; when none is found, no listed operation has a present aggregate |
| KaizenHealthkitPlugin.ReportSkips | ios/Plugin/KaizenHealthkitPlugin.swift:163-182 | an operation with an absent aggregate or an unknown name changes neither the unit nor the report |
| KaizenHealthkitPlugin.ReportFirstPresent | ios/Plugin/KaizenHealthkitPlugin.swift:184-188 | the first present aggregate is normalised, which fixes the unit; its label goes under unitName and its value under its operation's name |
| KaizenHealthkitPlugin.ReportLaterPresent | ios/Plugin/KaizenHealthkitPlugin.swift:189-191 | a present aggregate after the first leaves the unit alone and is added converted into that unit |
| KaizenHealthkitPlugin.GenerateReport | ios/Plugin/KaizenHealthkitPlugin.swift:156-195 | the loop returns `Report`: a failure exactly when the first present aggregate fits no unit, otherwise the map `Report` defines |
| KaizenHealthkitPlugin.PrefixFixesFirst | ios/Plugin/KaizenHealthkitPlugin.swift:184-186 | once a prefix has a present aggregate, operations after it cannot change which one is first |
| KaizenHealthkitPlugin.PrefixFixesReport | ios/Plugin/KaizenHealthkitPlugin.swift:184-186 | once the first present aggregate has trapped, no later operation can rescue the report |
| KaizenHealthkitPlugin.ReportEmptyIffNothingPresent | ios/Plugin/KaizenHealthkitPlugin.swift:156-195 | the report is the empty map exactly when no listed operation has a present aggregate |
| KaizenHealthkitPlugin.ReportFailsIffFirstFitsNoUnit | ios/Plugin/KaizenHealthkitPlugin.swift:184-186 | the report traps exactly when the first present aggregate normalises to no unit |
| KaizenHealthkitPlugin.ReportUnitFixedByFirst | ios/Plugin/KaizenHealthkitPlugin.swift:156-195 | when the first present aggregate has unit u, unitName is that unit's label; every present operation, the first one included, is reported in u; no key other than unitName and present operation names appears |
| KaizenHealthkitPlugin.ReportIgnoresAbsent | ios/Plugin/KaizenHealthkitPlugin.swift:160-182 | inserting an operation with an absent aggregate or an unknown name anywhere in the list leaves the report unchanged |
| KaizenHealthkitPlugin.SumThenMaxShareTheSumUnit | ios/Plugin/KaizenHealthkitPlugin.swift:156-195 | for the operations sum then max, both values are in the unit chosen for the sum, and unitName is its label |
| KaizenHealthkitPlugin.AuthorizationSetsMembers | ios/Plugin/KaizenHealthkitPlugin.swift:121-122 | a type is shared exactly when its name is in write or all, and read exactly when its name is in read or all |
| KaizenHealthkitPlugin.StepCountInAllIsReadAndShared | ios/Plugin/KaizenHealthkitPlugin.swift:121-122 | with all = ["stepCount"] and empty read and write, both sets are exactly {stepCount} |
| KaizenHealthkitPlugin.RequestAuthorization | ios/Plugin/KaizenHealthkitPlugin.swift:107-131 | rejects "Health data not available", then "Must provide all", "Must provide read", "Must provide write", in that order, without asking HealthKit; otherwise asks for share = write ∪ all and read = read ∪ all, and resolves or rejects "Could not get permission" according to the answer |
| KaizenHealthkitPlugin.QueryHKitStatistics | ios/Plugin/KaizenHealthkitPlugin.swift:197-236 | rejects "Must provide quantityType", "startDate", "endDate", "operations" in that order, then "Error in quantity type" when getType knows no such name, issuing no query in those cases; otherwise issues one query with the named type, the dates and the option set, and replies with the error's description (or "") or with the report |

## Left out

- The HealthKit calls (`HKHealthStore.isHealthDataAvailable`, `requestAuthorization(toShare:read:)`, `execute`) and their asynchronous completion handlers: foreign code. They are parameters of the entry points, and each handler's effect is the call's final outcome.
- `isAvailable` (ios/Plugin/KaizenHealthkitPlugin.swift:59-65): it only forwards HealthKit's availability flag and has no decision of its own.
- Unit compatibility and `doubleValue(for:)`: framework behaviour on floating-point values. They are the uninterpreted fields of `UnitKit`, and `Double` is modelled as `real`.
- Normalization.Normalize: does not model the exception `doubleValue(for:)` raises when a quantity is incompatible with an override unit, because compatibility is left uninterpreted.
- KaizenHealthkitPlugin.GenerateReport: does not model the exception `doubleValue(for:)` raises when a later present aggregate is incompatible with the unit the first one fixed (ios/Plugin/KaizenHealthkitPlugin.swift:190); such an aggregate is reported as a number. Compatibility is left uninterpreted, and all aggregates of one HKStatistics come from one quantity type, so they share a dimension.
- KaizenHealthkitPlugin.QueryHKitStatistics: does not model the crash on a malformed date. `getDateFromString` force-unwraps the formatter's result before the quantity type is checked. Dates are opaque strings passed to the query.
- The `print` diagnostics for unknown names: output only.
- `src/index.ts`, `src/web.ts` and `src/definitions.ts`: plugin registration, a web stub and type declarations, with no logic.
- Sample queries, sleep and workout records, and blood-glucose units: none of them is in the modelled file. The `KaizenHealthkit` implementation class is not part of this model.
