/** The dependency check run before dependency-respecting allocation: every declared
    dependency must be the id of some row. */
module DependencyValidation {
  import opened Processes

  /** The `ValueError` raised for the first dependency that names no row. */
  datatype AllocationError = InvalidDependency(processId: string, dependency: string)

  /** Every dependency of row `p` is some row's id. */
  predicate DependenciesKnown(table: seq<Process>, p: Process)
  {
    forall k :: 0 <= k < |p.dependency| ==> p.dependency[k] in IdColumn(table)
  }

  /** Every dependency of every row is some row's id. */
  predicate DependenciesExist(table: seq<Process>)
  {
    forall i :: 0 <= i < |table| ==> DependenciesKnown(table, table[i])
  }

  /** Dependency `k` of row `i` is the first unknown one, scanning rows in table order
      and each row's dependencies in list order. */
  predicate FirstUnknownDependency(table: seq<Process>, i: int, k: int)
  {
    && 0 <= i < |table|
    && 0 <= k < |table[i].dependency|
    && table[i].dependency[k] !in IdColumn(table)
    && (forall i' :: 0 <= i' < i ==> DependenciesKnown(table, table[i']))
    && (forall k' :: 0 <= k' < k ==> table[i].dependency[k'] in IdColumn(table))
  }

  /** The error names the first unknown dependency and the row that declares it. */
  predicate ReportsFirstUnknown(table: seq<Process>, e: AllocationError)
  {
    exists i, k | 0 <= i < |table| && 0 <= k < |table[i].dependency| ::
      FirstUnknownDependency(table, i, k)
                   && e == InvalidDependency(table[i].id, table[i].dependency[k])
  }

  /** The validation loops: `None` when every dependency exists, otherwise the error for
      the first one that does not. */
  method ValidateDependencies(table: seq<Process>) returns (error: Option<AllocationError>)
    ensures error.None? <==> DependenciesExist(table)
    ensures error.Some? ==> ReportsFirstUnknown(table, error.value)
  {
    var ids := IdColumn(table);
    for i := 0 to |table|
      invariant forall i' :: 0 <= i' < i ==> DependenciesKnown(table, table[i'])
    {
      var deps := table[i].dependency;
      for k := 0 to |deps|
        invariant forall k' :: 0 <= k' < k ==> deps[k'] in ids
      {
        if deps[k] !in ids {
          assert FirstUnknownDependency(table, i, k);
          return Some(InvalidDependency(table[i].id, deps[k]));
        }
      }
    }
    return None;
  }

  /** A listed dependency with no matching row makes the table invalid, and a table
      where every listed dependency has a row is valid. */
  lemma {:induction false} UnknownDependencyIsFatal(table: seq<Process>, i: nat, k: nat)
    requires i < |table| && k < |table[i].dependency|
    ensures (forall j :: 0 <= j < |table| ==> table[j].id != table[i].dependency[k])
            ==> !DependenciesExist(table)
  {
    if forall j :: 0 <= j < |table| ==> table[j].id != table[i].dependency[k] {
      var d := table[i].dependency[k];
      forall m | 0 <= m < |table| ensures IdColumn(table)[m] != d {
        assert IdColumn(table)[m] == table[m].id;
      }
      assert d !in IdColumn(table);
      assert !DependenciesKnown(table, table[i]);
    }
  }
}
