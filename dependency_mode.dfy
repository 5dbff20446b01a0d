/** Dependency-respecting allocation: repeatedly seed a station with the first
    unallocated row whose dependencies are all allocated, then sweep the whole table
    adding every further row of the seed's machine type whose dependencies are met and
    which keeps the station within the target. Rows join (and count as allocated) one
    at a time, so later rows of the same sweep see them. */
module DependencyMode {
  import opened Processes
  import opened StationLabels
  import opened Stations

  // ---------------------------------------------------------------------------
  // Specification: one function per scan of the source

  /** Row `i` can seed a station: not yet allocated, all its dependencies allocated. */
  predicate CanSeed(table: seq<Process>, allocatedIds: set<string>, i: int)
    requires 0 <= i < |table|
  {
    table[i].id !in allocatedIds && DependenciesMet(table[i], allocatedIds)
  }

  /** The seed scan from row `from` on: the first row that can seed a station. */
  function FirstSeed(table: seq<Process>, allocatedIds: set<string>, from: nat): Option<nat>
    decreases |table| - from
  {
    if from >= |table| then None
    else if CanSeed(table, allocatedIds, from) then Some(from)
    else FirstSeed(table, allocatedIds, from + 1)
  }

  /** A station being filled, with the allocated-id set as it stands. */
  datatype OpenStation = OpenStation(members: seq<Process>, allocatedIds: set<string>)

  /** Row `j` joins the open station during the sweep. */
  predicate CanJoin(table: seq<Process>, target: real, machineType: string, st: OpenStation, j: int)
    requires 0 <= j < |table|
  {
    && table[j].id !in st.allocatedIds
    && table[j].machineType == machineType
    && DependenciesMet(table[j], st.allocatedIds)
    && CalculateStationTime(st.members) + table[j].expectedTimeInMin <= target
  }

  /** The sweep from row `j` on. */
  function Fill(table: seq<Process>, target: real, machineType: string, st: OpenStation, j: nat): OpenStation
    decreases |table| - j
  {
    if j >= |table| then st
    else if CanJoin(table, target, machineType, st, j) then
      assert table[j] in table;
      Fill(table, target, machineType,
           OpenStation(st.members + [table[j]], st.allocatedIds + {table[j].id}), j + 1)
    else Fill(table, target, machineType, st, j + 1)
  }

  /** The station seeded by row `i` when `allocatedIds` are allocated. */
  function SeedStation(table: seq<Process>, target: real, allocatedIds: set<string>, i: nat): OpenStation
    requires i < |table|
  {
    Fill(table, target, table[i].machineType,
         OpenStation([table[i]], allocatedIds + {table[i].id}), 0)
  }

  /** The outer loop from the allocated set `allocatedIds` on: the member lists of the
      stations it still emits, in order. It stops when every row's id is allocated, or
      when no row can seed a station. */
  function Passes(table: seq<Process>, target: real, allocatedIds: set<string>): seq<seq<Process>>
    requires allocatedIds <= IdsOf(table)
    decreases |table| - |allocatedIds|
  {
    if |allocatedIds| >= |table| then []
    else
      FirstSeedIsFirst(table, allocatedIds, 0);
      match FirstSeed(table, allocatedIds, 0)
      case None => []
      case Some(i) =>
        assert table[i] in table;
        var st := SeedStation(table, target, allocatedIds, i);
        FillGrows(table, target, table[i].machineType,
                  OpenStation([table[i]], allocatedIds + {table[i].id}), 0);
        SubsetCardinality(allocatedIds + {table[i].id}, st.allocatedIds);
        [st.members] + Passes(table, target, st.allocatedIds)
  }

  /** The seed scan finds the first row at or after `from` that can seed a station,
      and `None` only when there is no such row. */
  lemma {:induction false} FirstSeedIsFirst(table: seq<Process>, allocatedIds: set<string>, from: nat)
    decreases |table| - from
    ensures FirstSeed(table, allocatedIds, from).Some? ==>
              var i := FirstSeed(table, allocatedIds, from).value;
              from <= i < |table| && CanSeed(table, allocatedIds, i)
    ensures forall i :: from <= i < |table| &&
              (FirstSeed(table, allocatedIds, from).None? || i < FirstSeed(table, allocatedIds, from).value)
              ==> !CanSeed(table, allocatedIds, i)
  {
    if from < |table| && !CanSeed(table, allocatedIds, from) {
      FirstSeedIsFirst(table, allocatedIds, from + 1);
    }
  }

  /** The sweep only ever adds ids, and only ids of rows of the table. */
  lemma {:induction false} FillGrows(table: seq<Process>, target: real, machineType: string, st: OpenStation, j: nat)
    decreases |table| - j
    ensures st.allocatedIds <= Fill(table, target, machineType, st, j).allocatedIds
    ensures st.allocatedIds <= IdsOf(table) ==> Fill(table, target, machineType, st, j).allocatedIds <= IdsOf(table)
  {
    if j < |table| {
      if CanJoin(table, target, machineType, st, j) {
        assert table[j] in table;
        FillGrows(table, target, machineType,
                  OpenStation(st.members + [table[j]], st.allocatedIds + {table[j].id}), j + 1);
      } else {
        FillGrows(table, target, machineType, st, j + 1);
      }
    }
  }

  /** One productive pass of the outer loop. */
  lemma PassesSeeded(table: seq<Process>, target: real, allocatedIds: set<string>, i: nat)
    requires allocatedIds <= IdsOf(table) && |allocatedIds| < |table|
    requires i < |table| && FirstSeed(table, allocatedIds, 0) == Some(i)
    ensures SeedStation(table, target, allocatedIds, i).allocatedIds <= IdsOf(table)
    ensures Passes(table, target, allocatedIds)
            == [SeedStation(table, target, allocatedIds, i).members]
               + Passes(table, target, SeedStation(table, target, allocatedIds, i).allocatedIds)
  {
    assert table[i] in table;
    FillGrows(table, target, table[i].machineType,
              OpenStation([table[i]], allocatedIds + {table[i].id}), 0);
  }

  /** Appending the record of the next station keeps the records in step with the
      member lists. */
  lemma RecordStation(groups: seq<seq<Process>>, members: seq<Process>, stations: seq<Station>,
                      target: real, policy: MachinePolicy)
    requires stations == Render(groups, 1, target, policy)
    ensures stations + [MakeStation(|groups| + 1, members, target, policy)]
            == Render(groups + [members], 1, target, policy)
  {
    RenderAppend(groups, [members], 1, target, policy);
  }

  /** The member lists of all stations of a dependency-respecting run. */
  function DependencyGroups(table: seq<Process>, target: real): seq<seq<Process>>
  {
    Passes(table, target, {})
  }

  /** The station records of a dependency-respecting run: `S1, S2, ...`, one machine each. */
  function DependencyStations(table: seq<Process>, target: real): seq<Station>
  {
    Render(DependencyGroups(table, target), 1, target, OneMachine)
  }

  // ---------------------------------------------------------------------------
  // The allocator's loops

  /** The dependency-respecting branch of `allocate_processes_to_stations`, after
      validation. */
  method AllocateWithDependencies(table: seq<Process>, target: real) returns (stations: seq<Station>)
    ensures stations == DependencyStations(table, target)
  {
    stations := [];
    var stationId: nat := 1;
    var allocatedIds: set<string> := {};
    ghost var groups: seq<seq<Process>> := [];
    assert groups + Passes(table, target, allocatedIds) == DependencyGroups(table, target);
    while |allocatedIds| < |table|
      invariant allocatedIds <= IdsOf(table)
      invariant stationId == |groups| + 1
      invariant stations == Render(groups, 1, target, OneMachine)
      invariant groups + Passes(table, target, allocatedIds) == DependencyGroups(table, target)
      decreases |table| - |allocatedIds|
    {
      ghost var before := allocatedIds;
      var foundNewStation, currentStation;
      foundNewStation, currentStation, allocatedIds := AllocationPass(table, target, allocatedIds);
      if !foundNewStation {
        break;
      }
      var total := CalculateStationTime(currentStation);
      var station := Station(Label(stationId), Refs(currentStation), total, target - total, 1);
      assert station == MakeStation(|groups| + 1, currentStation, target, OneMachine);
      RecordStation(groups, currentStation, stations, target, OneMachine);
      assert (groups + [currentStation]) + Passes(table, target, allocatedIds)
             == groups + ([currentStation] + Passes(table, target, allocatedIds));
      stations := stations + [station];
      groups := groups + [currentStation];
      stationId := stationId + 1;
    }
  }

  /** One pass of the outer loop: scan for the first row that can seed a station; if
      there is one, build its station. Reports whether a station was found and the
      allocated-id set afterwards. */
  method AllocationPass(table: seq<Process>, target: real, allocatedIdsBefore: set<string>)
    returns (foundNewStation: bool, currentStation: seq<Process>, allocatedIds: set<string>)
    requires allocatedIdsBefore <= IdsOf(table) && |allocatedIdsBefore| < |table|
    ensures !foundNewStation ==> Passes(table, target, allocatedIdsBefore) == []
    ensures foundNewStation ==>
              && allocatedIds <= IdsOf(table)
              && |allocatedIds| > |allocatedIdsBefore|
              && Passes(table, target, allocatedIdsBefore)
                 == [currentStation] + Passes(table, target, allocatedIds)
  {
    foundNewStation, currentStation, allocatedIds := false, [], allocatedIdsBefore;
    for i := 0 to |table|
      invariant !foundNewStation && allocatedIds == allocatedIdsBefore
      invariant FirstSeed(table, allocatedIdsBefore, i) == FirstSeed(table, allocatedIdsBefore, 0)
    {
      if table[i].id in allocatedIds {
        continue;
      }
      if DependenciesMet(table[i], allocatedIds) {
        currentStation, allocatedIds := BuildStation(table, target, i, allocatedIds);
        foundNewStation := true;
        assert FirstSeed(table, allocatedIdsBefore, i) == Some(i);
        PassesSeeded(table, target, allocatedIdsBefore, i);
        assert table[i] in table;
        FillGrows(table, target, table[i].machineType,
                  OpenStation([table[i]], allocatedIdsBefore + {table[i].id}), 0);
        SubsetCardinality(allocatedIdsBefore + {table[i].id}, allocatedIds);
        break;
      }
    }
  }

  /** Open a station seeded by row `i`, mark the seed allocated, and sweep for members. */
  method BuildStation(table: seq<Process>, target: real, i: nat, allocatedIdsBefore: set<string>)
    returns (currentStation: seq<Process>, allocatedIds: set<string>)
    requires i < |table|
    ensures OpenStation(currentStation, allocatedIds) == SeedStation(table, target, allocatedIdsBefore, i)
  {
    var machineType := table[i].machineType;
    currentStation := [table[i]];
    allocatedIds := allocatedIdsBefore + {table[i].id};
    currentStation, allocatedIds := SweepForMembers(table, target, machineType, currentStation, allocatedIds);
  }

  /** The inner sweep: scan the whole table once, adding each row that can join the
      station and marking it allocated at once. */
  method SweepForMembers(table: seq<Process>, target: real, machineType: string,
                         seeded: seq<Process>, seededIds: set<string>)
    returns (currentStation: seq<Process>, allocatedIds: set<string>)
    ensures OpenStation(currentStation, allocatedIds)
            == Fill(table, target, machineType, OpenStation(seeded, seededIds), 0)
  {
    currentStation, allocatedIds := seeded, seededIds;
    for j := 0 to |table|
      invariant Fill(table, target, machineType, OpenStation(currentStation, allocatedIds), j)
                == Fill(table, target, machineType, OpenStation(seeded, seededIds), 0)
    {
      var next := table[j];
      if next.id in allocatedIds {
        continue;
      }
      if next.machineType == machineType && DependenciesMet(next, allocatedIds)
         && CalculateStationTime(currentStation) + next.expectedTimeInMin <= target
      {
        currentStation := currentStation + [next];
        allocatedIds := allocatedIds + {next.id};
      }
    }
  }
}
