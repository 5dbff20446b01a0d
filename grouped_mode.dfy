/** Grouped allocation: dependencies are ignored; the rows are split by machine type,
    the types visited in ascending order, and each type's rows, in table order, are
    packed first-fit into consecutive stations against the target. */
module GroupedMode {
  import opened Processes
  import opened StationLabels
  import opened Stations
  import opened MachineKeys

  // ---------------------------------------------------------------------------
  // Specification

  /** The rows of machine type `k`, in table order: one group of the grouping. */
  function MachineGroup(table: seq<Process>, k: string): seq<Process>
  {
    if table == [] then []
    else
      var last := table[|table| - 1];
      MachineGroup(table[..|table| - 1], k) + (if last.machineType == k then [last] else [])
  }

  /** The groups for the keys `keys`, in key order. */
  function GroupsOf(table: seq<Process>, keys: seq<string>): seq<seq<Process>>
  {
    seq(|keys|, n requires 0 <= n < |keys| => MachineGroup(table, keys[n]))
  }

  /** The rows as grouped mode visits them: by machine type in ascending order, and in
      table order within a type. */
  function GroupedOrder(table: seq<Process>): seq<Process>
  {
    Flatten(GroupsOf(table, MachineTypeKeys(table)))
  }

  /** First-fit packing of `rows[i..]` with the station `open` still open: a row joins
      the open station when the sum stays within the target; otherwise the open station
      is emitted, even when it is empty, and the row opens the next one. The last open
      station is emitted only when it is not empty. */
  function PackFrom(rows: seq<Process>, target: real, open: seq<Process>, i: nat): seq<seq<Process>>
    decreases |rows| - i
  {
    if i >= |rows| then (if open != [] then [open] else [])
    else if CalculateStationTime(open) + rows[i].expectedTimeInMin <= target then
      PackFrom(rows, target, open + [rows[i]], i + 1)
    else
      [open] + PackFrom(rows, target, [rows[i]], i + 1)
  }

  /** The member lists of the stations packed from one group. */
  function PackGroup(rows: seq<Process>, target: real): seq<seq<Process>>
  {
    PackFrom(rows, target, [], 0)
  }

  /** The member lists of the stations of the groups for `keys`, group after group. */
  function PackAll(table: seq<Process>, target: real, keys: seq<string>): seq<seq<Process>>
  {
    if keys == [] then []
    else PackAll(table, target, keys[..|keys| - 1]) + PackGroup(MachineGroup(table, keys[|keys| - 1]), target)
  }

  /** The member lists of all stations of a grouped run. */
  function GroupedGroups(table: seq<Process>, target: real): seq<seq<Process>>
  {
    PackAll(table, target, MachineTypeKeys(table))
  }

  /** The station records of a grouped run: `S1, S2, ...` across all groups, each
      needing the ceiling of its time in machines. */
  function GroupedStations(table: seq<Process>, target: real): seq<Station>
  {
    Render(GroupedGroups(table, target), 1, target, CeilOfTotal)
  }

  // ---------------------------------------------------------------------------
  // The allocator's loops

  /** The grouped branch of `allocate_processes_to_stations`. */
  method AllocateByMachineType(table: seq<Process>, target: real) returns (stations: seq<Station>)
    ensures stations == GroupedStations(table, target)
  {
    var keys := MachineTypeKeys(table);
    stations := [];
    var stationId: nat := 1;
    ghost var groups: seq<seq<Process>> := [];
    for n := 0 to |keys|
      invariant stationId == |groups| + 1
      invariant stations == Render(groups, 1, target, CeilOfTotal)
      invariant groups == PackAll(table, target, keys[..n])
    {
      var group := MachineGroup(table, keys[n]);
      var packed;
      packed, stationId := PackMachineGroup(group, target, stationId);
      RenderAppend(groups, PackGroup(group, target), 1, target, CeilOfTotal);
      assert keys[..n + 1][..n] == keys[..n];
      stations := stations + packed;
      groups := groups + PackGroup(group, target);
    }
    assert keys[..|keys|] == keys;
  }

  /** The packing loop over one group, numbering its stations from `firstId`, with the
      running total kept beside the open station. */
  method PackMachineGroup(group: seq<Process>, target: real, firstId: nat)
    returns (packed: seq<Station>, nextId: nat)
    ensures packed == Render(PackGroup(group, target), firstId, target, CeilOfTotal)
    ensures nextId == firstId + |PackGroup(group, target)|
  {
    packed := [];
    nextId := firstId;
    var stationProcesses: seq<Process> := [];
    var totalExpectedTime: real := 0.0;
    ghost var closed: seq<seq<Process>> := [];
    for r := 0 to |group|
      invariant totalExpectedTime == CalculateStationTime(stationProcesses)
      invariant closed + PackFrom(group, target, stationProcesses, r) == PackGroup(group, target)
      invariant packed == Render(closed, firstId, target, CeilOfTotal)
      invariant nextId == firstId + |closed|
    {
      var process := group[r];
      if totalExpectedTime + process.expectedTimeInMin <= target {
        StationTimeSnoc(stationProcesses, process);
        stationProcesses := stationProcesses + [process];
        totalExpectedTime := totalExpectedTime + process.expectedTimeInMin;
      } else {
        var station := Station(Label(nextId), Refs(stationProcesses), totalExpectedTime,
                               target - totalExpectedTime, Ceil(totalExpectedTime));
        CloseStation(closed, stationProcesses, packed, firstId, target);
        assert (closed + [stationProcesses]) + PackFrom(group, target, [process], r + 1)
               == closed + ([stationProcesses] + PackFrom(group, target, [process], r + 1));
        packed := packed + [station];
        closed := closed + [stationProcesses];
        nextId := nextId + 1;
        stationProcesses := [process];
        totalExpectedTime := process.expectedTimeInMin;
        assert totalExpectedTime == CalculateStationTime(stationProcesses);
      }
    }
    if stationProcesses != [] {
      var station := Station(Label(nextId), Refs(stationProcesses), totalExpectedTime,
                             target - totalExpectedTime, Ceil(totalExpectedTime));
      CloseStation(closed, stationProcesses, packed, firstId, target);
      packed := packed + [station];
      closed := closed + [stationProcesses];
      nextId := nextId + 1;
    }
  }

  /** Closing the open station appends its record, numbered after the closed ones. */
  lemma CloseStation(closed: seq<seq<Process>>, members: seq<Process>, packed: seq<Station>,
                     firstId: nat, target: real)
    requires packed == Render(closed, firstId, target, CeilOfTotal)
    ensures packed + [MakeStation(firstId + |closed|, members, target, CeilOfTotal)]
            == Render(closed + [members], firstId, target, CeilOfTotal)
  {
    RenderAppend(closed, [members], firstId, target, CeilOfTotal);
  }
}
