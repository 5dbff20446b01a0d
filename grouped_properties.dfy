/** What a grouped run guarantees: the stations partition the table in grouped order,
    each station holds one machine type and keeps within the target unless it is a
    single process, an empty station opens a group exactly when the group's first row
    alone exceeds the target, and every station was closed because the next row did
    not fit. */
module GroupedProperties {
  import opened Processes
  import opened Stations
  import opened MachineKeys
  import opened GroupedMode
  import opened Summary

  /** A station of grouped mode: one machine type throughout, and within the target
      unless it holds at most one process. */
  predicate GroupedShape(target: real, g: seq<Process>)
  {
    && SameMachineType(g)
    && (|g| >= 2 ==> CalculateStationTime(g) <= target)
  }

  /** Each station after the first opened with a row that would have pushed the
      station before it over the target. */
  predicate ClosedByOverflow(target: real, p: seq<seq<Process>>)
  {
    forall s :: 0 < s < |p| ==>
      p[s] != [] && CalculateStationTime(p[s - 1]) + p[s][0].expectedTimeInMin > target
  }

  /** No key occurs twice. */
  predicate DistinctKeys(keys: seq<string>)
  {
    forall a, b :: 0 <= a < b < |keys| ==> keys[a] != keys[b]
  }

  // ---------------------------------------------------------------------------
  // One group

  /** Packing loses and repeats nothing: the stations from `open` and `rows[i..]`,
      concatenated, are `open` followed by those rows. */
  lemma {:induction false} PackFromFlatten(rows: seq<Process>, target: real, open: seq<Process>, i: nat)
    requires i <= |rows|
    ensures Flatten(PackFrom(rows, target, open, i)) == open + rows[i..]
    decreases |rows| - i
  {
    if i == |rows| {
      assert rows[i..] == [];
      if open != [] {
        FlattenCons([open], open, []);
      }
    } else {
      assert rows[i..] == [rows[i]] + rows[i + 1..];
      if CalculateStationTime(open) + rows[i].expectedTimeInMin <= target {
        PackFromFlatten(rows, target, open + [rows[i]], i + 1);
      } else {
        PackFromFlatten(rows, target, [rows[i]], i + 1);
        FlattenCons(PackFrom(rows, target, open, i), open, PackFrom(rows, target, [rows[i]], i + 1));
      }
    }
  }

  /** The stations of one group, concatenated, are the group's rows in order. */
  lemma PackGroupPartition(rows: seq<Process>, target: real)
    ensures Flatten(PackGroup(rows, target)) == rows
  {
    PackFromFlatten(rows, target, [], 0);
    assert rows[0..] == rows;
  }

  /** Every station packed from an open station that fits keeps within the target
      unless it holds a single process. */
  lemma {:induction false} PackFromBudget(rows: seq<Process>, target: real, open: seq<Process>, i: nat)
    requires |open| >= 2 ==> CalculateStationTime(open) <= target
    ensures forall s :: 0 <= s < |PackFrom(rows, target, open, i)| ==>
              (|PackFrom(rows, target, open, i)[s]| >= 2 ==>
                 CalculateStationTime(PackFrom(rows, target, open, i)[s]) <= target)
    decreases |rows| - i
  {
    if i < |rows| {
      if CalculateStationTime(open) + rows[i].expectedTimeInMin <= target {
        StationTimeSnoc(open, rows[i]);
        PackFromBudget(rows, target, open + [rows[i]], i + 1);
      } else {
        PackFromBudget(rows, target, [rows[i]], i + 1);
      }
    }
  }

  /** Packing with a non-empty open station emits only non-empty stations, the first
      of which starts with the open station. */
  lemma {:induction false} PackFromOpen(rows: seq<Process>, target: real, open: seq<Process>, i: nat)
    requires open != []
    ensures PackFrom(rows, target, open, i) != []
    ensures open <= PackFrom(rows, target, open, i)[0]
    ensures forall s :: 0 <= s < |PackFrom(rows, target, open, i)| ==> PackFrom(rows, target, open, i)[s] != []
    decreases |rows| - i
  {
    if i < |rows| {
      if CalculateStationTime(open) + rows[i].expectedTimeInMin <= target {
        PackFromOpen(rows, target, open + [rows[i]], i + 1);
      } else {
        PackFromOpen(rows, target, [rows[i]], i + 1);
      }
    }
  }

  /** The empty-station quirk: a group's first station is empty exactly when the
      group's first row alone exceeds the target; every later station is non-empty,
      and an empty group emits no station. */
  lemma PackGroupEmptyStation(rows: seq<Process>, target: real)
    ensures rows == [] <==> PackGroup(rows, target) == []
    ensures PackGroup(rows, target) != [] ==>
              (PackGroup(rows, target)[0] == [] <==> rows[0].expectedTimeInMin > target)
    ensures forall s :: 0 < s < |PackGroup(rows, target)| ==> PackGroup(rows, target)[s] != []
  {
    if rows != [] {
      PackFromOpen(rows, target, [rows[0]], 1);
      var rest := PackFrom(rows, target, [rows[0]], 1);
      assert CalculateStationTime([]) == 0.0 && [] + [rows[0]] == [rows[0]];
      if rows[0].expectedTimeInMin <= target {
        assert PackGroup(rows, target) == rest;
      } else {
        assert PackGroup(rows, target) == [[]] + rest;
      }
    }
  }

  /** First fit: a station is closed only because the next row would push it over
      the target, and that row opens the next station. */
  lemma {:induction false} PackFromClosedByOverflow(rows: seq<Process>, target: real, open: seq<Process>, i: nat)
    ensures ClosedByOverflow(target, PackFrom(rows, target, open, i))
    decreases |rows| - i
  {
    if i < |rows| {
      if CalculateStationTime(open) + rows[i].expectedTimeInMin <= target {
        PackFromClosedByOverflow(rows, target, open + [rows[i]], i + 1);
      } else {
        var rest := PackFrom(rows, target, [rows[i]], i + 1);
        PackFromClosedByOverflow(rows, target, [rows[i]], i + 1);
        PackFromOpen(rows, target, [rows[i]], i + 1);
        ClosedByOverflowCons(target, open, rest);
      }
    }
  }

  lemma ClosedByOverflowCons(target: real, open: seq<Process>, rest: seq<seq<Process>>)
    requires ClosedByOverflow(target, rest)
    requires rest != [] && rest[0] != []
    requires CalculateStationTime(open) + rest[0][0].expectedTimeInMin > target
    ensures ClosedByOverflow(target, [open] + rest)
  {
    var p: seq<seq<Process>> := [open] + rest;
    forall s: int | 0 < s < |p|
      ensures p[s] != [] && CalculateStationTime(p[s - 1]) + p[s][0].expectedTimeInMin > target
    {
      assert p[s] == rest[s - 1];
      if s > 1 {
        assert p[s - 1] == rest[s - 2];
      }
    }
  }

  /** Consecutive stations of one group: the later one opened with the row that did
      not fit into the earlier one. */
  lemma PackGroupClosedByOverflow(rows: seq<Process>, target: real)
    ensures ClosedByOverflow(target, PackGroup(rows, target))
  {
    PackFromClosedByOverflow(rows, target, [], 0);
  }

  /** A member of a station is a member of the concatenation. */
  lemma {:induction false} InFlatten(groups: seq<seq<Process>>, s: nat, x: Process)
    requires s < |groups| && x in groups[s]
    ensures x in Flatten(groups)
  {
    if s > 0 {
      InFlatten(groups[1..], s - 1, x);
    }
  }

  /** The rows of a group are the rows of the table with that machine type. */
  lemma {:induction false} MachineGroupMembers(table: seq<Process>, k: string)
    ensures forall x :: x in MachineGroup(table, k) <==> x in table && x.machineType == k
  {
    if table != [] {
      var init := table[..|table| - 1];
      MachineGroupMembers(init, k);
      assert table == init + [table[|table| - 1]];
    }
  }

  /** Every station packed from group `k` holds machine type `k` only, and keeps within
      the target unless it is a single process. */
  lemma PackGroupShape(table: seq<Process>, target: real, k: string)
    ensures forall s :: 0 <= s < |PackGroup(MachineGroup(table, k), target)| ==>
              GroupedShape(target, PackGroup(MachineGroup(table, k), target)[s])
  {
    var rows := MachineGroup(table, k);
    var p := PackGroup(rows, target);
    PackGroupPartition(rows, target);
    MachineGroupMembers(table, k);
    PackFromBudget(rows, target, [], 0);
    forall s | 0 <= s < |p| ensures GroupedShape(target, p[s]) {
      forall a | 0 <= a < |p[s]| ensures p[s][a].machineType == k {
        InFlatten(p, s, p[s][a]);
      }
    }
  }

  // ---------------------------------------------------------------------------
  // All groups

  lemma ShapesAppend(target: real, a: seq<seq<Process>>, b: seq<seq<Process>>)
    requires forall s :: 0 <= s < |a| ==> GroupedShape(target, a[s])
    requires forall s :: 0 <= s < |b| ==> GroupedShape(target, b[s])
    ensures forall s :: 0 <= s < |a + b| ==> GroupedShape(target, (a + b)[s])
  {
    forall s | 0 <= s < |a + b| ensures GroupedShape(target, (a + b)[s]) {
      if s >= |a| {
        assert (a + b)[s] == b[s - |a|];
      }
    }
  }

  /** Every station of the groups for `keys` has one machine type and keeps within the
      target unless it is a single process. */
  lemma {:induction false} PackAllShape(table: seq<Process>, target: real, keys: seq<string>)
    ensures forall s :: 0 <= s < |PackAll(table, target, keys)| ==>
              GroupedShape(target, PackAll(table, target, keys)[s])
  {
    if keys != [] {
      var init := keys[..|keys| - 1];
      var k := keys[|keys| - 1];
      PackAllShape(table, target, init);
      PackGroupShape(table, target, k);
      ShapesAppend(target, PackAll(table, target, init), PackGroup(MachineGroup(table, k), target));
    }
  }

  /** The stations of the groups for `keys`, concatenated, are those groups' rows. */
  lemma {:induction false} PackAllFlatten(table: seq<Process>, target: real, keys: seq<string>)
    ensures Flatten(PackAll(table, target, keys)) == Flatten(GroupsOf(table, keys))
  {
    if keys != [] {
      var init := keys[..|keys| - 1];
      var k := keys[|keys| - 1];
      var rows := MachineGroup(table, k);
      PackAllFlatten(table, target, init);
      FlattenAppend(PackAll(table, target, init), PackGroup(rows, target));
      PackGroupPartition(rows, target);
      GroupsOfLastKey(table, keys);
      FlattenSnoc(GroupsOf(table, init), rows);
    }
  }

  lemma GroupsOfLastKey(table: seq<Process>, keys: seq<string>)
    requires keys != []
    ensures GroupsOf(table, keys)
            == GroupsOf(table, keys[..|keys| - 1]) + [MachineGroup(table, keys[|keys| - 1])]
  {
  }

  /** Adding a row to the table adds it to the grouped rows once when its machine
      type is one of the (distinct) keys, and not at all otherwise. */
  lemma {:induction false} GroupsOfSnoc(table: seq<Process>, p: Process, keys: seq<string>)
    requires DistinctKeys(keys)
    ensures multiset(Flatten(GroupsOf(table + [p], keys)))
            == multiset(Flatten(GroupsOf(table, keys)))
               + (if p.machineType in keys then multiset{p} else multiset{})
  {
    if keys != [] {
      var k := keys[0];
      var t' := table + [p];
      var g, g' := MachineGroup(table, k), MachineGroup(t', k);
      var rest, rest' := GroupsOf(table, keys[1..]), GroupsOf(t', keys[1..]);
      MachineGroupSnoc(table, p, k);
      GroupsOfFirstKey(table, keys);
      GroupsOfFirstKey(t', keys);
      FlattenCons(GroupsOf(t', keys), g', rest');
      FlattenCons(GroupsOf(table, keys), g, rest);
      assert DistinctKeys(keys[1..]);
      GroupsOfSnoc(table, p, keys[1..]);
      var here: multiset<Process> := if p.machineType == k then multiset{p} else multiset{};
      var later: multiset<Process> := if p.machineType in keys[1..] then multiset{p} else multiset{};
      MultisetConcat(g, g', Flatten(rest), Flatten(rest'), here, later);
      var added: multiset<Process> := if p.machineType in keys then multiset{p} else multiset{};
      if p.machineType == k {
        assert p.machineType !in keys[1..];
        assert here + later == added;
      } else {
        assert p.machineType in keys <==> p.machineType in keys[1..];
        assert here + later == added;
      }
      MultisetRegroup(multiset(Flatten(GroupsOf(table, keys))), multiset(Flatten(GroupsOf(t', keys))),
                      here, later, added);
    }
  }

  lemma MultisetRegroup(m: multiset<Process>, m': multiset<Process>,
                        x: multiset<Process>, y: multiset<Process>, z: multiset<Process>)
    requires m' == m + x + y && x + y == z
    ensures m' == m + z
  {
  }

  lemma GroupsOfFirstKey(table: seq<Process>, keys: seq<string>)
    requires keys != []
    ensures GroupsOf(table, keys) == [MachineGroup(table, keys[0])] + GroupsOf(table, keys[1..])
  {
  }

  /** A row added to the table joins the end of its own machine type's group. */
  lemma MachineGroupSnoc(table: seq<Process>, p: Process, k: string)
    ensures MachineGroup(table + [p], k) == MachineGroup(table, k) + (if p.machineType == k then [p] else [])
  {
    assert (table + [p])[..|table + [p]| - 1] == table;
  }

  lemma MultisetConcat(a: seq<Process>, a': seq<Process>, b: seq<Process>, b': seq<Process>,
                       x: multiset<Process>, y: multiset<Process>)
    requires multiset(a') == multiset(a) + x && multiset(b') == multiset(b) + y
    ensures multiset(a' + b') == multiset(a + b) + x + y
  {
  }

  /** Grouping by a list of distinct keys covering every machine type of the table
      rearranges the table without losing or repeating a row. */
  lemma {:induction false} GroupsOfPermutation(table: seq<Process>, keys: seq<string>)
    requires DistinctKeys(keys)
    requires forall i :: 0 <= i < |table| ==> table[i].machineType in keys
    ensures multiset(Flatten(GroupsOf(table, keys))) == multiset(table)
  {
    if table == [] {
      EmptyGroups(keys);
    } else {
      var init := table[..|table| - 1];
      var p := table[|table| - 1];
      assert table == init + [p];
      GroupsOfPermutation(init, keys);
      GroupsOfSnoc(init, p, keys);
    }
  }

  lemma {:induction false} EmptyGroups(keys: seq<string>)
    ensures Flatten(GroupsOf([], keys)) == []
  {
    if keys != [] {
      FlattenCons(GroupsOf([], keys), [], GroupsOf([], keys[1..]));
      EmptyGroups(keys[1..]);
    }
  }

  /** The machine types, as grouping visits them, are distinct and cover the table. */
  lemma KeysCoverTable(table: seq<Process>)
    ensures DistinctKeys(MachineTypeKeys(table))
    ensures forall i :: 0 <= i < |table| ==> table[i].machineType in MachineTypeKeys(table)
  {
    var keys := MachineTypeKeys(table);
    forall a, b | 0 <= a < b < |keys| ensures keys[a] != keys[b] {
      StrLessIrreflexive(keys[a]);
    }
    forall i | 0 <= i < |table| ensures table[i].machineType in keys {
      assert IsMachineTypeOf(table, table[i].machineType);
    }
  }

  // ---------------------------------------------------------------------------
  // The properties of a grouped run

  /** The stations of a grouped run, concatenated, are all processes ordered by machine
      type (ascending) and then by table order: a rearrangement of the table that
      drops and repeats nothing. */
  lemma GroupedPartition(table: seq<Process>, target: real)
    ensures Flatten(GroupedGroups(table, target)) == GroupedOrder(table)
    ensures multiset(Flatten(GroupedGroups(table, target))) == multiset(table)
  {
    PackAllFlatten(table, target, MachineTypeKeys(table));
    KeysCoverTable(table);
    GroupsOfPermutation(table, MachineTypeKeys(table));
  }

  /** Every station of a grouped run holds a single machine type and keeps within the
      target unless it holds at most one process; with a non-negative target a station
      over the target holds exactly one process. */
  lemma GroupedStationsShape(table: seq<Process>, target: real)
    ensures forall s :: 0 <= s < |GroupedGroups(table, target)| ==>
              GroupedShape(target, GroupedGroups(table, target)[s])
    ensures forall s :: 0 <= s < |GroupedGroups(table, target)| ==>
              target >= 0.0 && CalculateStationTime(GroupedGroups(table, target)[s]) > target
              ==> |GroupedGroups(table, target)[s]| == 1
  {
    PackAllShape(table, target, MachineTypeKeys(table));
  }

  /** An empty station's record: no time, all of the target wasted, `ceil(0) = 0`
      machines. */
  lemma EmptyStationRecord(table: seq<Process>, target: real, s: nat)
    requires s < |GroupedGroups(table, target)| && GroupedGroups(table, target)[s] == []
    ensures GroupedStations(table, target)[s].processes == []
    ensures GroupedStations(table, target)[s].totalExpectedTime == 0.0
    ensures GroupedStations(table, target)[s].wasteTime == target
    ensures GroupedStations(table, target)[s].machinesRequired == 0
  {
  }

  /** The stations of a grouped run together take the time of the whole table. */
  lemma GroupedWorkTime(table: seq<Process>, target: real)
    ensures TotalWorkTime(GroupedGroups(table, target)) == CalculateStationTime(table)
  {
    var groups := GroupedGroups(table, target);
    TotalWorkTimeFlatten(groups);
    GroupedPartition(table, target);
    StationTimePermutation(Flatten(groups), table);
  }

  /** The summary of a grouped run: the total waste is the stations' combined budget
      less the time of every process of the table, and the machine total is the sum of
      the stations' ceilings, between the total time and the total time plus one per
      station. */
  lemma GroupedSummary(table: seq<Process>, target: real)
    ensures var groups := GroupedGroups(table, target);
            var totals := Summarize(GroupedStations(table, target));
            && totals.totalStations == |groups|
            && totals.totalWasteTime == Budget(|groups|, target) - CalculateStationTime(table)
            && totals.totalMachinesRequired == TotalCeilings(groups)
            && CalculateStationTime(table) <= totals.totalMachinesRequired as real
            && (groups == [] || (totals.totalMachinesRequired as real) < CalculateStationTime(table) + |groups| as real)
  {
    GroupedWorkTime(table, target);
    SummaryOfCeilStations(GroupedStations(table, target), GroupedGroups(table, target), target,
                          CalculateStationTime(table));
  }

  /** The summary of stations numbered from 1 that need the ceiling of their time in
      machines, given the total time `work` of their members. */
  lemma SummaryOfCeilStations(stations: seq<Station>, groups: seq<seq<Process>>, target: real, work: real)
    requires stations == Render(groups, 1, target, CeilOfTotal)
    requires TotalWorkTime(groups) == work
    ensures var totals := Summarize(stations);
            && totals.totalStations == |groups|
            && totals.totalWasteTime == Budget(|groups|, target) - work
            && totals.totalMachinesRequired == TotalCeilings(groups)
            && work <= totals.totalMachinesRequired as real
            && (groups == [] || (totals.totalMachinesRequired as real) < work + |groups| as real)
  {
    TotalWasteOfRender(groups, 1, target, CeilOfTotal);
    TotalMachinesCeil(groups, 1, target);
  }
}
