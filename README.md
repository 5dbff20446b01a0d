# Process-to-station allocation, modelled in Dafny

The modelled program assigns manufacturing processes to work stations. It takes an
ordered table of processes. Each process has an id, a name, a duration in minutes
(`expectedTimeInMin`), a machine type and a list of ids it depends on. The output is an
ordered list of stations. Each station record holds a label `S1`, `S2`, ..., the
`{id, name}` of its members, their total time, the waste (the throughput target less the
total) and the number of machines it needs. The allocator has two modes:

- **Dependency-respecting.** It first checks that every dependency names an existing
  process; otherwise it fails with an error naming the first bad dependency. Then it
  repeats passes over the table. A pass seeds a station with the first unallocated row
  whose dependencies are all allocated. It then sweeps the whole table, adding every
  unallocated row of the seed's machine type whose dependencies are met and that keeps the
  station within the target. Rows count as allocated as soon as they join. The loop stops
  when every row is allocated or when a pass finds no seed; any rows left over are dropped.
  Every station needs one machine.
- **Grouped.** Dependencies are ignored. The rows are grouped by machine type, and the
  types are visited in ascending string order, as pandas `groupby` sorts them. Each group
  keeps table order and is packed first-fit into consecutive stations. A station needs the
  ceiling of its total time in machines. Station numbering continues across groups.

The summary report's three totals are also modelled: the station count, the total waste
and the total machines.

Layout:

- `processes.dfy`: the process row, the station-time sum and the dependency checks.
- `labels.dfy`: the decimal station labels.
- `stations.dfy`: station records.
- `summary.dfy`: the summary totals.
- `machine_keys.dfy`: the sorted machine-type keys.
- `validation.dfy`: dependency validation.
- `dependency_mode.dfy` and `dependency_properties.dfy`: the dependency-respecting loops,
  their specification functions and their properties.
- `grouped_mode.dfy` and `grouped_properties.dfy`: the same for grouped mode.
- `allocator.dfy`: the entry point that joins validation and the two modes.

Each loop of the source is a Dafny method with loop invariants. Each method is proved equal
to a recursive specification function:

- `FirstSeed`, `Fill` and `Passes` specify the dependency-respecting loops.
- `PackFrom` and `PackAll` specify grouped mode.

The properties the program promises are proved as lemmas about these functions.

Durations are exact `real`s, so IEEE rounding is not modelled. The allocator methods do
not require unique ids, because the source does not check for them. Only the completeness
result assumes unique ids.

## Model

| member | source | states |
|---|---|---|
| Processes.StationTimeAppend | code.py:38-39 | the station time of two concatenated member lists is the sum of their times |
| Processes.StationTimePermutation | code.py:38-39 | any reordering of the same members has the same station time |
| Processes.CheckDependenciesMetAgrees | code.py:42-43 | with the dependency map built from a table of unique ids, `check_dependencies_met` agrees with the inline test "all dependencies allocated", and an id missing from the map has its dependencies met |
| Processes.IdsOfCardinality | code.py:69 | a table has at most as many distinct ids as rows, and exactly as many when ids are unique |
| StationLabels.NatToString | code.py:93 | the decimal rendering of a station number is a non-empty digit string without leading zeros |
| StationLabels.DecimalRoundTrip | code.py:93 | reading the rendered digits back gives the station number |
| StationLabels.LabelInjective | code.py:93 | distinct station numbers give distinct `S<n>` labels |
| Stations.Ceil | code.py:122 | `math.ceil`: the least integer not below the value |
| Stations.RenderAppend | code.py:92-99 | rendering two runs of member lists numbers the second run right after the first |
| Stations.StationRecord | code.py:92-98 | each station record has label `S<first+s>`, its members' `{id, name}` in order, total = the sum of member durations, waste = target - total, and 1 machine or the ceiling of the total, by mode |
| Stations.StationIdsDistinct | code.py:93 | station ids are consecutive from the first number, and no two stations share an id |
| Stations.FlatRefsOfRender | code.py:94 | the member summaries of all stations, in order, are the summaries of the flattened member lists |
| DependencyValidation.ValidateDependencies | code.py:64-67 | validation reports no error exactly when every dependency of every row is some row's id; otherwise it reports the first unknown dependency in row order and then list order, with the row that declares it |
| DependencyValidation.UnknownDependencyIsFatal | code.py:64-67 | a dependency that matches no row's id makes the table invalid |
| DependencyMode.FirstSeedIsFirst | code.py:71-76 | the seed scan returns the first unallocated row whose dependencies are all allocated, and returns none only when no row qualifies |
| DependencyMode.FillGrows | code.py:82-89 | the sweep only adds ids to the allocated set, and only ids of table rows |
| DependencyMode.AllocateWithDependencies | code.py:69-104 | the outer `while` loop emits exactly the stations of the pass-by-pass specification, labelled from S1 with one machine each |
| DependencyMode.AllocationPass | code.py:70-104 | one pass either finds no seed, so the run ends, or emits the next station of the specification and strictly grows the allocated set within the table's ids |
| DependencyMode.BuildStation | code.py:77-89 | a station seeded by a row holds the seed followed by the sweep's additions |
| DependencyMode.SweepForMembers | code.py:82-89 | the inner scan, with rows marked allocated as they join, computes the sweep specification |
| DependencyProperties.PassesShapes | code.py:69-104 | every station the remaining passes emit is non-empty and holds one machine type, stays within the target when it has two or more members, and there are at most as many further stations as unallocated rows |
| DependencyProperties.PassesOrder | code.py:76-89 | in the flattened output of the remaining passes no row is in the allocated set or repeated, and each row's dependencies are allocated before it |
| DependencyProperties.PassesStuck | code.py:69-104 | when the passes end, every row is allocated or has an unallocated dependency |
| DependencyProperties.FillValid | code.py:82-89 | the sweep keeps the open station valid: same machine type as the seed, within budget once it has two members, and each member's dependencies allocated before it |
| DependencyProperties.DependencyStationsShape | code.py:77-89 | every station is non-empty and of one machine type, stays within the target unless it is the seed alone, and holds only table rows |
| DependencyProperties.NoProcessTwice | code.py:72-89 | no process id appears twice in the output, neither among the rows nor among the emitted `{id, name}` summaries |
| DependencyProperties.DependenciesComeFirst | code.py:76-89 | in the flattened stations, every dependency of a row is an id of an earlier row, in an earlier station or earlier in the same one |
| DependencyProperties.StopsOnlyWhenStuck | code.py:100-104 | when the run ends, every row not allocated has a dependency that is not allocated |
| DependencyProperties.AtMostOneStationPerRow | code.py:69-79 | the outer loop emits at most as many stations as there are rows |
| DependencyProperties.RankedRowAllocated | code.py:69-104 | if the rows can be ranked so that each dependency ranks below its dependant, a stuck set with all dependencies valid includes every row |
| DependencyProperties.AllAllocatedIffAcyclic | code.py:69-104 | for a valid table with unique ids, every row is allocated exactly when the dependency graph is acyclic |
| DependencyProperties.DependencySummary | code.py:141-144 | the summary of a dependency run has one station per pass; its total waste is the target once per station (`Budget`) less the total member time, and it needs one machine per station |
| GroupedMode.AllocateByMachineType | code.py:105-136 | the loop over machine-type groups emits exactly the packed stations of every group, in ascending key order, numbered from S1 across groups |
| GroupedMode.PackMachineGroup | code.py:110-136 | the first-fit loop over one group, with its running total, emits the stations of the packing specification and hands on the next station number |
| MachineKeys.MachineTypeKeys | code.py:107 | the `groupby` keys are strictly ascending in Python string order, and they are exactly the machine types in the table |
| MachineKeys.AscendingKeysUnique | code.py:107 | there is only one strictly ascending key list with a given set of keys |
| GroupedProperties.PackGroupPartition | code.py:110-136 | concatenating one group's stations gives back the group's rows in order |
| GroupedProperties.PackFromBudget | code.py:113-126 | every packed station with two or more members stays within the target |
| GroupedProperties.PackGroupEmptyStation | code.py:113-128 | a group packs to no station only when empty; the first station is empty exactly when the group's first row alone exceeds the target; every later station is non-empty |
| GroupedProperties.PackGroupClosedByOverflow | code.py:113-126 | each station after the first was opened by a row that would have pushed the previous station over the target |
| GroupedProperties.MachineGroupMembers | code.py:107-109 | a group holds exactly the table's rows of its machine type |
| GroupedProperties.GroupsOfPermutation | code.py:107-109 | grouping by a duplicate-free key list covering every row's type neither drops nor duplicates rows |
| GroupedProperties.GroupedPartition | code.py:107-136 | the stations' member lists, concatenated, are the rows ordered by ascending machine type and then table order, and they are a permutation of the table |
| GroupedProperties.GroupedStationsShape | code.py:113-126 | every grouped station holds one machine type and stays within the target when it has two or more members; with a non-negative target, a station over the target holds exactly one row |
| GroupedProperties.EmptyStationRecord | code.py:117-123 | an empty grouped station is recorded with no members, total 0, waste equal to the target, and 0 machines |
| GroupedProperties.GroupedWorkTime | code.py:107-136 | the grouped stations together take exactly the table's total time |
| GroupedProperties.GroupedSummary | code.py:141-144 | the summary of a grouped run: total waste is the target once per station (`Budget`) less the table's total time; machines are the sum of the stations' ceilings, at least the total time and below it plus one per station |
| Summary.Summarize | code.py:141-144 | the totals of an empty allocation are all zero |
| Summary.SummarizeAppend | code.py:141-144 | the totals of two allocations placed one after the other add up |
| Summary.TotalWasteOfRender | code.py:143 | total waste = the target once per station (`Budget`) less the time of all members |
| Summary.BudgetIsProduct | code.py:143 | the target counted once per station is the number of stations times the target |
| Summary.TotalWorkTimeFlatten | code.py:95 | the stations' total times add up to the time of all their members |
| Summary.TotalMachinesOneEach | code.py:144 | with one machine per station, the machine total is the station count |
| Summary.TotalMachinesCeil | code.py:144 | with ceilings, the machine total is the sum of the stations' ceilings, at least the total time and below it plus one per station |
| Allocator.AllocateProcessesToStations | code.py:46-138 | only the dependency mode can fail, and it fails exactly when some dependency names no row, reporting the first one; otherwise each mode returns its station list |

## Left out

- `load_data` (code.py:25-35) reads JSON with pandas. The model takes the table as a sequence of rows.
- `save_to_file` and `save_visualization` (code.py:10-22) are file output and are not modelled.
- `visualize_station_allocation` (code.py:168-222) draws a chart and is not modelled.
- `main` and the command-line wiring (code.py:225-263) are not modelled. Its `max_waste_tolerance` argument is never used by the core.
- The report's text formatting (code.py:146-163) is not modelled; only the three totals are.
- Floating point is replaced by exact `real` arithmetic. So the running total in grouped mode and the recomputed sums in dependency mode agree exactly, and float drift is not modelled.
- pandas types are not modelled: column dtypes, `NaN` machine types (which `groupby` drops) and non-string keys. Machine types are strings, and the `groupby` key order is computed by `MachineTypeKeys` as code-point lexicographic order, which is Python's string `<`.
- Processes.CheckDependenciesMet: the allocator's loops use the inline test that all of a row's dependencies are allocated, as the source does. `check_dependencies_met` is modelled beside them, and its agreement with the inline test is proved only for tables with unique ids, which a dictionary keyed by id needs.
- The `ValueError` exception is modelled as a `Failure` result that carries the offending process id and dependency. The message text is not modelled.
- Ids need not be unique for the allocator methods. DependencyProperties.AllAllocatedIffAcyclic assumes unique ids, because its ranking of the rows is keyed by id.
