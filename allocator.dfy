/** `allocate_processes_to_stations`: validation followed by dependency-respecting
    allocation, or grouped allocation when dependencies are not respected. */
module Allocator {
  import opened Processes
  import opened Stations
  import opened DependencyValidation
  import opened DependencyMode
  import opened GroupedMode

  /** The station list, or the `ValueError` raised for an unknown dependency. */
  datatype Result<T, E> = Success(value: T) | Failure(error: E)

  /** The allocation of `table` against `target`. Only dependency-respecting allocation
      validates, and it fails exactly when some dependency names no row, reporting the
      first such dependency; otherwise each mode yields its station records. */
  method AllocateProcessesToStations(table: seq<Process>, respectDependencies: bool, target: real)
    returns (r: Result<seq<Station>, AllocationError>)
    ensures r.Failure? <==> respectDependencies && !DependenciesExist(table)
    ensures r.Failure? ==> ReportsFirstUnknown(table, r.error)
    ensures r.Success? && respectDependencies ==> r.value == DependencyStations(table, target)
    ensures !respectDependencies ==> r == Success(GroupedStations(table, target))
  {
    if respectDependencies {
      var error := ValidateDependencies(table);
      if error.Some? {
        return Failure(error.value);
      }
      var stations := AllocateWithDependencies(table, target);
      r := Success(stations);
    } else {
      var stations := AllocateByMachineType(table, target);
      r := Success(stations);
    }
  }
}
