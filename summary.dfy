/** The three totals of the summary report. */
module Summary {
  import opened Processes
  import opened Stations

  datatype SummaryTotals = SummaryTotals(
    totalStations: nat,
    totalWasteTime: real,
    totalMachinesRequired: int)

  /** Sum of the stations' `waste_time` fields. */
  function TotalWasteTime(stations: seq<Station>): real
  {
    if stations == [] then 0.0
    else TotalWasteTime(stations[..|stations| - 1]) + stations[|stations| - 1].wasteTime
  }

  /** Sum of the stations' `machines_required` fields. */
  function TotalMachinesRequired(stations: seq<Station>): int
  {
    if stations == [] then 0
    else TotalMachinesRequired(stations[..|stations| - 1]) + stations[|stations| - 1].machinesRequired
  }

  /** The totals of `generate_summary_report`; all zero for an empty allocation. */
  function Summarize(stations: seq<Station>): (r: SummaryTotals)
    ensures stations == [] ==> r == SummaryTotals(0, 0.0, 0)
  {
    SummaryTotals(|stations|, TotalWasteTime(stations), TotalMachinesRequired(stations))
  }

  /** The total station time of a list of stations' member lists. */
  function TotalWorkTime(groups: seq<seq<Process>>): real
  {
    if groups == [] then 0.0
    else TotalWorkTime(groups[..|groups| - 1]) + CalculateStationTime(groups[|groups| - 1])
  }

  /** Sum of the ceilings of the stations' times. */
  function TotalCeilings(groups: seq<seq<Process>>): int
  {
    if groups == [] then 0
    else TotalCeilings(groups[..|groups| - 1]) + Ceil(CalculateStationTime(groups[|groups| - 1]))
  }

  // ---------------------------------------------------------------------------
  // Lemmas

  /** The total station time is the time of all members, station after station. */
  lemma {:induction false} TotalWorkTimeFlatten(groups: seq<seq<Process>>)
    ensures TotalWorkTime(groups) == CalculateStationTime(Flatten(groups))
  {
    if groups != [] {
      var init := groups[..|groups| - 1];
      var last := groups[|groups| - 1];
      assert groups == init + [last];
      FlattenAppend(init, [last]);
      assert [last][1..] == [];
      assert Flatten([last]) == last;
      assert Flatten(groups) == Flatten(init) + last;
      StationTimeAppend(Flatten(init), last);
      TotalWorkTimeFlatten(init);
    }
  }

  /** The totals of two allocations placed one after the other add up. */
  lemma {:induction false} SummarizeAppend(a: seq<Station>, b: seq<Station>)
    ensures Summarize(a + b).totalStations == Summarize(a).totalStations + Summarize(b).totalStations
    ensures Summarize(a + b).totalWasteTime == Summarize(a).totalWasteTime + Summarize(b).totalWasteTime
    ensures Summarize(a + b).totalMachinesRequired
            == Summarize(a).totalMachinesRequired + Summarize(b).totalMachinesRequired
  {
    if b == [] {
      assert a + b == a;
    } else {
      var b' := b[..|b| - 1];
      assert (a + b)[..|a + b| - 1] == a + b';
      assert (a + b)[|a + b| - 1] == b[|b| - 1];
      SummarizeAppend(a, b');
    }
  }

  /** The target counted once per station: `n` times the target (`BudgetIsProduct`). */
  function Budget(n: nat, target: real): real
  {
    if n == 0 then 0.0 else Budget(n - 1, target) + target
  }

  lemma {:induction false} BudgetIsProduct(n: nat, target: real)
    ensures Budget(n, target) == (n as real) * target
  {
    if n > 0 {
      BudgetIsProduct(n - 1, target);
      assert (n as real) * target == ((n - 1) as real) * target + target;
    }
  }

  /** Waste is budget minus work: the total waste of rendered stations is the target
      once per station, less the time of all their members. */
  lemma {:induction false} TotalWasteOfRender(groups: seq<seq<Process>>, first: nat, target: real,
                                              policy: MachinePolicy)
    ensures TotalWasteTime(Render(groups, first, target, policy))
            == Budget(|groups|, target) - TotalWorkTime(groups)
  {
    if groups != [] {
      WasteOfLastStation(groups, first, target, policy);
      TotalWasteOfRender(groups[..|groups| - 1], first, target, policy);
    }
  }

  /** The last station adds its own waste, the target less its time, to the total. */
  lemma WasteOfLastStation(groups: seq<seq<Process>>, first: nat, target: real, policy: MachinePolicy)
    requires groups != []
    ensures TotalWasteTime(Render(groups, first, target, policy))
            == TotalWasteTime(Render(groups[..|groups| - 1], first, target, policy))
               + (target - CalculateStationTime(groups[|groups| - 1]))
  {
    var r := Render(groups, first, target, policy);
    assert r[..|r| - 1] == Render(groups[..|groups| - 1], first, target, policy);
  }

  /** In dependency mode every station needs one machine, so the machine total is the
      station count. */
  lemma {:induction false} TotalMachinesOneEach(groups: seq<seq<Process>>, first: nat, target: real)
    ensures TotalMachinesRequired(Render(groups, first, target, OneMachine)) == |groups|
  {
    if groups != [] {
      var init := groups[..|groups| - 1];
      var r := Render(groups, first, target, OneMachine);
      assert r[..|r| - 1] == Render(init, first, target, OneMachine);
      TotalMachinesOneEach(init, first, target);
    }
  }

  /** In grouped mode the machine total is the sum of the ceilings of the station times:
      at least the total work time, and less than it plus one per station. */
  lemma {:induction false} TotalMachinesCeil(groups: seq<seq<Process>>, first: nat, target: real)
    ensures TotalMachinesRequired(Render(groups, first, target, CeilOfTotal)) == TotalCeilings(groups)
    ensures TotalWorkTime(groups) <= TotalCeilings(groups) as real
    ensures (TotalCeilings(groups) as real) < TotalWorkTime(groups) + |groups| as real
            || groups == []
  {
    if groups != [] {
      var init := groups[..|groups| - 1];
      var r := Render(groups, first, target, CeilOfTotal);
      assert r[..|r| - 1] == Render(init, first, target, CeilOfTotal);
      TotalMachinesCeil(init, first, target);
    }
  }
}
