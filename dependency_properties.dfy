/** What a dependency-respecting run guarantees: every station is a proper station,
    no process is allocated twice, every process comes after its dependencies, the
    run stops only when no further station can be seeded, and every process is
    allocated exactly when the dependency graph is acyclic. */
module DependencyProperties {
  import opened Processes
  import opened Stations
  import opened DependencyMode
  import opened DependencyValidation
  import opened Summary

  /** A station of dependency mode: at least its seed, one machine type throughout,
      within the target as soon as anything joined the seed. */
  predicate StationShape(target: real, g: seq<Process>)
  {
    && g != []
    && SameMachineType(g)
    && (|g| >= 2 ==> CalculateStationTime(g) <= target)
  }

  /** `run` lists rows in the order they were allocated on top of the already
      allocated ids `base`: rows of the table, no id twice and none from `base`,
      every dependency allocated before the row that needs it. */
  predicate AllocationOrder(table: seq<Process>, base: set<string>, run: seq<Process>)
  {
    && (forall k :: 0 <= k < |run| ==> run[k] in table)
    && UniqueIds(run)
    && (forall k :: 0 <= k < |run| ==> run[k].id !in base)
    && (forall k :: 0 <= k < |run| ==> DependenciesMet(run[k], base + IdsOf(run[..k])))
  }

  /** No row can seed a station: each row is allocated or waits on a dependency. */
  predicate Stuck(table: seq<Process>, allocatedIds: set<string>)
  {
    forall i :: 0 <= i < |table| ==> table[i].id in allocatedIds || !DependenciesMet(table[i], allocatedIds)
  }

  /** The state of a sweep: the open station is a proper station of machine type
      `machineType`, allocated in order on top of `base`, and the allocated set is
      `base` plus its members. */
  predicate OpenValid(table: seq<Process>, target: real, machineType: string, base: set<string>, st: OpenStation)
  {
    && StationShape(target, st.members)
    && st.members[0].machineType == machineType
    && AllocationOrder(table, base, st.members)
    && st.allocatedIds == base + IdsOf(st.members)
  }

  // ---------------------------------------------------------------------------
  // One station

  lemma SeedValid(table: seq<Process>, target: real, allocatedIds: set<string>, i: nat)
    requires i < |table| && CanSeed(table, allocatedIds, i)
    ensures OpenValid(table, target, table[i].machineType, allocatedIds,
                      OpenStation([table[i]], allocatedIds + {table[i].id}))
  {
    var m := [table[i]];
    assert m[..0] == [];
    assert IdsOf(m) == {table[i].id};
  }

  lemma JoinValid(table: seq<Process>, target: real, machineType: string, base: set<string>,
                  st: OpenStation, j: nat)
    requires j < |table|
    requires OpenValid(table, target, machineType, base, st)
    requires CanJoin(table, target, machineType, st, j)
    ensures OpenValid(table, target, machineType, base,
                      OpenStation(st.members + [table[j]], st.allocatedIds + {table[j].id}))
  {
    var m := st.members;
    var p := table[j];
    StationTimeSnoc(m, p);
    IdsOfAppend(m, [p]);
    SingleRowOrder(table, base + IdsOf(m), j);
    AllocationOrderAppend(table, base, m, [p]);
  }

  /** A single row whose id is new and whose dependencies are allocated is a run in
      allocation order. */
  lemma SingleRowOrder(table: seq<Process>, base: set<string>, j: nat)
    requires j < |table| && table[j].id !in base && DependenciesMet(table[j], base)
    ensures AllocationOrder(table, base, [table[j]])
    ensures IdsOf([table[j]]) == {table[j].id}
  {
    assert [table[j]][..0] == [];
    assert IdsOf([]) == {};
  }

  /** The sweep keeps the open station valid. */
  lemma {:induction false} FillValid(table: seq<Process>, target: real, machineType: string,
                                     base: set<string>, st: OpenStation, j: nat)
    requires OpenValid(table, target, machineType, base, st)
    ensures OpenValid(table, target, machineType, base, Fill(table, target, machineType, st, j))
    decreases |table| - j
  {
    if j < |table| {
      if CanJoin(table, target, machineType, st, j) {
        JoinValid(table, target, machineType, base, st, j);
        FillValid(table, target, machineType, base,
                  OpenStation(st.members + [table[j]], st.allocatedIds + {table[j].id}), j + 1);
      } else {
        FillValid(table, target, machineType, base, st, j + 1);
      }
    }
  }

  /** A seeded station is a proper station, allocated in order on top of what was
      allocated before, and afterwards exactly its members have joined the set. */
  lemma SeedStationValid(table: seq<Process>, target: real, allocatedIds: set<string>, i: nat)
    requires i < |table| && CanSeed(table, allocatedIds, i)
    ensures OpenValid(table, target, table[i].machineType, allocatedIds,
                      SeedStation(table, target, allocatedIds, i))
  {
    SeedValid(table, target, allocatedIds, i);
    FillValid(table, target, table[i].machineType, allocatedIds,
              OpenStation([table[i]], allocatedIds + {table[i].id}), 0);
  }

  // ---------------------------------------------------------------------------
  // The whole run

  lemma AllocationOrderAppend(table: seq<Process>, base: set<string>, g: seq<Process>, rest: seq<Process>)
    requires AllocationOrder(table, base, g)
    requires AllocationOrder(table, base + IdsOf(g), rest)
    ensures AllocationOrder(table, base, g + rest)
  {
    var run := g + rest;
    forall a, b | 0 <= a < b < |run| ensures run[a].id != run[b].id {
      if a < |g| && b >= |g| {
        assert run[a].id in IdsOf(g);
        assert run[b] == rest[b - |g|];
      }
    }
    forall k | 0 <= k < |run| ensures DependenciesMet(run[k], base + IdsOf(run[..k])) {
      if k < |g| {
        assert run[..k] == g[..k];
      } else {
        assert run[..k] == g + rest[..k - |g|];
        IdsOfAppend(g, rest[..k - |g|]);
        assert run[k] == rest[k - |g|];
      }
    }
  }

  /** A pass that finds no seed, or starts with every id allocated, ends the run in a
      stuck state. */
  lemma LastPass(table: seq<Process>, target: real, allocatedIds: set<string>)
    requires allocatedIds <= IdsOf(table)
    requires |allocatedIds| >= |table| || FirstSeed(table, allocatedIds, 0).None?
    ensures Passes(table, target, allocatedIds) == []
    ensures Stuck(table, allocatedIds + IdsOf(Flatten(Passes(table, target, allocatedIds))))
  {
    assert Passes(table, target, allocatedIds) == [];
    assert IdsOf([]) == {};
    assert allocatedIds + IdsOf(Flatten(Passes(table, target, allocatedIds))) == allocatedIds;
    if |allocatedIds| >= |table| {
      FullSubsetOfIds(table, allocatedIds);
      forall i | 0 <= i < |table| ensures table[i].id in allocatedIds {
        assert table[i] in table;
      }
    } else {
      FirstSeedIsFirst(table, allocatedIds, 0);
      forall i | 0 <= i < |table|
        ensures table[i].id in allocatedIds || !DependenciesMet(table[i], allocatedIds)
      {
        assert !CanSeed(table, allocatedIds, i);
      }
    }
  }

  /** A productive pass emits a valid station and allocates at least its seed. */
  lemma ProductivePass(table: seq<Process>, target: real, allocatedIds: set<string>)
    requires allocatedIds <= IdsOf(table)
    requires |allocatedIds| < |table| && FirstSeed(table, allocatedIds, 0).Some?
    ensures FirstSeed(table, allocatedIds, 0).value < |table|
    ensures var i := FirstSeed(table, allocatedIds, 0).value;
            var st := SeedStation(table, target, allocatedIds, i);
            && OpenValid(table, target, table[i].machineType, allocatedIds, st)
            && st.allocatedIds <= IdsOf(table)
            && |st.allocatedIds| > |allocatedIds|
            && Passes(table, target, allocatedIds) == [st.members] + Passes(table, target, st.allocatedIds)
  {
    FirstSeedIsFirst(table, allocatedIds, 0);
    var i := FirstSeed(table, allocatedIds, 0).value;
    PassesSeeded(table, target, allocatedIds, i);
    SeedStationValid(table, target, allocatedIds, i);
    assert table[i] in table;
    FillGrows(table, target, table[i].machineType,
              OpenStation([table[i]], allocatedIds + {table[i].id}), 0);
    SubsetCardinality(allocatedIds + {table[i].id}, SeedStation(table, target, allocatedIds, i).allocatedIds);
  }

  /** Every station the outer loop emits from any allocated set on is a proper
      station, and there is at most one per row not yet allocated. */
  lemma {:induction false} PassesShapes(table: seq<Process>, target: real, allocatedIds: set<string>)
    requires allocatedIds <= IdsOf(table)
    ensures forall s :: 0 <= s < |Passes(table, target, allocatedIds)| ==>
              StationShape(target, Passes(table, target, allocatedIds)[s])
    ensures |Passes(table, target, allocatedIds)| <= |table| - |allocatedIds|
    decreases |table| - |allocatedIds|
  {
    if |allocatedIds| >= |table| || FirstSeed(table, allocatedIds, 0).None? {
      LastPass(table, target, allocatedIds);
      SubsetCardinality(allocatedIds, IdsOf(table));
      IdsOfCardinality(table);
    } else {
      ProductivePass(table, target, allocatedIds);
      var st := SeedStation(table, target, allocatedIds, FirstSeed(table, allocatedIds, 0).value);
      PassesShapes(table, target, st.allocatedIds);
      ShapesCons(target, Passes(table, target, allocatedIds), st.members, Passes(table, target, st.allocatedIds));
    }
  }

  /** The rows the outer loop allocates from any allocated set on, station after
      station, are in allocation order on top of that set. */
  lemma {:induction false} PassesOrder(table: seq<Process>, target: real, allocatedIds: set<string>)
    requires allocatedIds <= IdsOf(table)
    ensures AllocationOrder(table, allocatedIds, Flatten(Passes(table, target, allocatedIds)))
    decreases |table| - |allocatedIds|
  {
    if |allocatedIds| >= |table| || FirstSeed(table, allocatedIds, 0).None? {
      LastPass(table, target, allocatedIds);
    } else {
      ProductivePass(table, target, allocatedIds);
      var st := SeedStation(table, target, allocatedIds, FirstSeed(table, allocatedIds, 0).value);
      var rest := Passes(table, target, st.allocatedIds);
      PassesOrder(table, target, st.allocatedIds);
      FlattenCons(Passes(table, target, allocatedIds), st.members, rest);
      AllocationOrderAppend(table, allocatedIds, st.members, Flatten(rest));
    }
  }

  /** From any allocated set on, the outer loop ends in a stuck state. */
  lemma {:induction false} PassesStuck(table: seq<Process>, target: real, allocatedIds: set<string>)
    requires allocatedIds <= IdsOf(table)
    ensures Stuck(table, allocatedIds + IdsOf(Flatten(Passes(table, target, allocatedIds))))
    decreases |table| - |allocatedIds|
  {
    if |allocatedIds| >= |table| || FirstSeed(table, allocatedIds, 0).None? {
      LastPass(table, target, allocatedIds);
    } else {
      ProductivePass(table, target, allocatedIds);
      var st := SeedStation(table, target, allocatedIds, FirstSeed(table, allocatedIds, 0).value);
      var rest := Passes(table, target, st.allocatedIds);
      PassesStuck(table, target, st.allocatedIds);
      FlattenCons(Passes(table, target, allocatedIds), st.members, rest);
      IdsOfAppend(st.members, Flatten(rest));
      UnionShift(allocatedIds, IdsOf(st.members), IdsOf(Flatten(rest)),
                 st.allocatedIds, IdsOf(Flatten(Passes(table, target, allocatedIds))));
    }
  }

  lemma UnionShift(base: set<string>, first: set<string>, rest: set<string>, after: set<string>, all: set<string>)
    requires after == base + first && all == first + rest
    ensures after + rest == base + all
  {
  }

  lemma ShapesCons(target: real, groups: seq<seq<Process>>, g: seq<Process>, rest: seq<seq<Process>>)
    requires groups == [g] + rest
    requires StationShape(target, g)
    requires forall s :: 0 <= s < |rest| ==> StationShape(target, rest[s])
    ensures forall s :: 0 <= s < |groups| ==> StationShape(target, groups[s])
  {
    forall s | 0 <= s < |groups| ensures StationShape(target, groups[s]) {
      if s > 0 {
        assert groups[s] == rest[s - 1];
      }
    }
  }

  // ---------------------------------------------------------------------------
  // The properties of a dependency-respecting run

  /** The run from an empty allocated set, with the empty base dropped. */
  lemma RunFacts(table: seq<Process>, target: real)
    ensures var run := Flatten(DependencyGroups(table, target));
            && (forall k :: 0 <= k < |run| ==> run[k] in table)
            && UniqueIds(run)
            && (forall k :: 0 <= k < |run| ==> DependenciesMet(run[k], IdsOf(run[..k])))
            && Stuck(table, IdsOf(run))
  {
    var run := Flatten(DependencyGroups(table, target));
    PassesOrder(table, target, {});
    PassesStuck(table, target, {});
    assert {} + IdsOf(run) == IdsOf(run);
    forall k | 0 <= k < |run| ensures DependenciesMet(run[k], IdsOf(run[..k])) {
      assert {} + IdsOf(run[..k]) == IdsOf(run[..k]);
    }
  }

  /** Every station holds at least its seed and one machine type, and stays within the
      target unless it is the seed alone; every member is a row of the table. */
  lemma DependencyStationsShape(table: seq<Process>, target: real)
    ensures forall s :: 0 <= s < |DependencyGroups(table, target)| ==>
              StationShape(target, DependencyGroups(table, target)[s])
    ensures forall k :: 0 <= k < |Flatten(DependencyGroups(table, target))| ==>
              Flatten(DependencyGroups(table, target))[k] in table
  {
    PassesShapes(table, target, {});
    RunFacts(table, target);
  }

  /** No process id is allocated twice, neither within a station nor across stations,
      so no id appears twice among the emitted member summaries. */
  lemma NoProcessTwice(table: seq<Process>, target: real)
    ensures UniqueIds(Flatten(DependencyGroups(table, target)))
    ensures UniqueRefIds(FlatRefs(DependencyStations(table, target)))
  {
    RunFacts(table, target);
    var groups := DependencyGroups(table, target);
    FlatRefsOfRender(groups, 1, target, OneMachine);
    RefsKeepUniqueIds(Flatten(groups));
  }

  /** In the order the stations list their members, every dependency of a process is
      listed before it, in an earlier station or earlier in the same one. */
  lemma DependenciesComeFirst(table: seq<Process>, target: real)
    ensures var run := Flatten(DependencyGroups(table, target));
            forall k :: 0 <= k < |run| ==> DependenciesMet(run[k], IdsOf(run[..k]))
  {
    RunFacts(table, target);
  }

  /** The run stops only when no row can seed another station: every row left out
      still waits on a dependency that was never allocated. */
  lemma StopsOnlyWhenStuck(table: seq<Process>, target: real)
    ensures Stuck(table, IdsOf(Flatten(DependencyGroups(table, target))))
  {
    RunFacts(table, target);
  }

  /** Each productive pass allocates at least its seed, so there are at most as many
      passes, and stations, as rows. */
  lemma AtMostOneStationPerRow(table: seq<Process>, target: real)
    ensures |DependencyGroups(table, target)| <= |table|
  {
    PassesShapes(table, target, {});
  }

  // ---------------------------------------------------------------------------
  // Completeness

  /** `rank` orders the ids so that every dependency comes strictly before the row
      that declares it. */
  predicate RankedBy(table: seq<Process>, rank: map<string, nat>)
  {
    forall i :: 0 <= i < |table| ==>
      && table[i].id in rank
      && forall d :: d in table[i].dependency ==> d in rank && rank[d] < rank[table[i].id]
  }

  /** The dependency graph has no cycle: some ranking puts every dependency first. */
  ghost predicate Acyclic(table: seq<Process>)
  {
    exists rank :: RankedBy(table, rank)
  }

  /** In a stuck state of an acyclic table whose dependencies all exist, every row is
      allocated: an unallocated row would wait on an unallocated row of lower rank. */
  lemma {:induction false} RankedRowAllocated(table: seq<Process>, allocatedIds: set<string>,
                                              rank: map<string, nat>, i: nat)
    requires DependenciesExist(table) && RankedBy(table, rank) && Stuck(table, allocatedIds)
    requires i < |table|
    ensures table[i].id in allocatedIds
    decreases rank[table[i].id]
  {
    if table[i].id !in allocatedIds {
      var d :| d in table[i].dependency && d !in allocatedIds;
      var k :| 0 <= k < |table[i].dependency| && table[i].dependency[k] == d;
      assert DependenciesKnown(table, table[i]);
      var j :| 0 <= j < |table| && IdColumn(table)[j] == d;
      RankedRowAllocated(table, allocatedIds, rank, j);
    }
  }

  /** The position of each id in a run without repeated ids. */
  function RunRank(run: seq<Process>): (rank: map<string, nat>)
    requires UniqueIds(run)
    ensures forall k :: 0 <= k < |run| ==> run[k].id in rank && rank[run[k].id] == k
  {
    map k | 0 <= k < |run| :: run[k].id := k
  }

  /** A row whose id was allocated is itself in the run, when ids are unique. */
  lemma RowPosition(table: seq<Process>, run: seq<Process>, i: nat) returns (k: nat)
    requires UniqueIds(table)
    requires forall k :: 0 <= k < |run| ==> run[k] in table
    requires i < |table| && table[i].id in IdsOf(run)
    ensures k < |run| && run[k] == table[i]
  {
    IdPosition(run, table[i].id);
    k :| 0 <= k < |run| && run[k].id == table[i].id;
    var a :| 0 <= a < |table| && table[a] == run[k];
  }

  /** A dependency met at position `k` is the id of an earlier member of the run. */
  lemma EarlierPosition(run: seq<Process>, k: nat, d: string) returns (k': nat)
    requires k < |run| && DependenciesMet(run[k], IdsOf(run[..k]))
    requires d in run[k].dependency
    ensures k' < k && run[k'].id == d
  {
    IdPosition(run[..k], d);
    k' :| 0 <= k' < k && run[..k][k'].id == d;
  }

  /** Row `i` is ranked after its dependencies by its position in the run. */
  lemma RowRankedByRun(table: seq<Process>, run: seq<Process>, i: nat)
    requires UniqueIds(table) && UniqueIds(run)
    requires forall k :: 0 <= k < |run| ==> run[k] in table
    requires forall k :: 0 <= k < |run| ==> DependenciesMet(run[k], IdsOf(run[..k]))
    requires i < |table| && table[i].id in IdsOf(run)
    ensures table[i].id in RunRank(run)
    ensures forall d :: d in table[i].dependency ==>
              d in RunRank(run) && RunRank(run)[d] < RunRank(run)[table[i].id]
  {
    var k := RowPosition(table, run, i);
    forall d | d in table[i].dependency ensures d in RunRank(run) && RunRank(run)[d] < k {
      var k' := EarlierPosition(run, k, d);
    }
  }

  /** A run in dependency order that allocates every row ranks the ids, so the graph
      is acyclic. */
  lemma OrderRanks(table: seq<Process>, run: seq<Process>)
    requires UniqueIds(table) && UniqueIds(run)
    requires forall k :: 0 <= k < |run| ==> run[k] in table
    requires forall k :: 0 <= k < |run| ==> DependenciesMet(run[k], IdsOf(run[..k]))
    requires IdsOf(table) <= IdsOf(run)
    ensures Acyclic(table)
  {
    forall i | 0 <= i < |table|
      ensures table[i].id in RunRank(run)
      ensures forall d :: d in table[i].dependency ==>
                d in RunRank(run) && RunRank(run)[d] < RunRank(run)[table[i].id]
    {
      assert table[i] in table;
      RowRankedByRun(table, run, i);
    }
    assert RankedBy(table, RunRank(run));
  }

  /** A run of rows of the table allocates only ids of the table. */
  lemma RunIdsInTable(table: seq<Process>, run: seq<Process>)
    requires forall k :: 0 <= k < |run| ==> run[k] in table
    ensures IdsOf(run) <= IdsOf(table)
  {
    forall x | x in IdsOf(run) ensures x in IdsOf(table) {
      IdPosition(run, x);
      var k :| 0 <= k < |run| && run[k].id == x;
    }
  }

  /** In an acyclic table whose dependencies all exist, a stuck allocated set holds
      every id. */
  lemma AcyclicStuckIsComplete(table: seq<Process>, allocatedIds: set<string>)
    requires DependenciesExist(table) && Acyclic(table) && Stuck(table, allocatedIds)
    ensures IdsOf(table) <= allocatedIds
  {
    var rank :| RankedBy(table, rank);
    forall x | x in IdsOf(table) ensures x in allocatedIds {
      IdPosition(table, x);
      var i :| 0 <= i < |table| && table[i].id == x;
      RankedRowAllocated(table, allocatedIds, rank, i);
    }
  }

  /** With unique ids and every dependency naming a row (as validation ensures), a
      dependency-respecting run allocates every process exactly when the dependency
      graph is acyclic; otherwise the processes on or behind a cycle are dropped. */
  lemma AllAllocatedIffAcyclic(table: seq<Process>, target: real)
    requires UniqueIds(table) && DependenciesExist(table)
    ensures IdsOf(Flatten(DependencyGroups(table, target))) == IdsOf(table) <==> Acyclic(table)
  {
    var run := Flatten(DependencyGroups(table, target));
    RunFacts(table, target);
    RunIdsInTable(table, run);
    if Acyclic(table) {
      AcyclicStuckIsComplete(table, IdsOf(run));
    }
    if IdsOf(run) == IdsOf(table) {
      OrderRanks(table, run);
    }
  }

  // ---------------------------------------------------------------------------
  // Summary totals

  /** The summary of stations numbered from 1 with one machine each. */
  lemma SummaryOfOneMachineStations(groups: seq<seq<Process>>, target: real)
    ensures Summarize(Render(groups, 1, target, OneMachine))
            == SummaryTotals(|groups|, Budget(|groups|, target) - TotalWorkTime(groups), |groups|)
  {
    TotalWasteOfRender(groups, 1, target, OneMachine);
    TotalMachinesOneEach(groups, 1, target);
  }

  /** The summary of a dependency-respecting run: one machine per station, and the
      total waste is the stations' combined budget less the time of every allocated
      process. */
  lemma DependencySummary(table: seq<Process>, target: real)
    ensures var groups := DependencyGroups(table, target);
            Summarize(DependencyStations(table, target))
            == SummaryTotals(|groups|, Budget(|groups|, target) - TotalWorkTime(groups), |groups|)
  {
    SummaryOfOneMachineStations(DependencyGroups(table, target), target);
  }
}
