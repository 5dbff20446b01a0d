/** Station records: what the allocator emits for each closed station, in both modes. */
module Stations {
  import opened Processes
  import opened StationLabels

  /** The `{id, name}` summary of a member. */
  datatype ProcessRef = ProcessRef(id: string, name: string)

  datatype Station = Station(
    stationId: string,
    processes: seq<ProcessRef>,
    totalExpectedTime: real,
    wasteTime: real,
    machinesRequired: int)

  /** How a mode counts machines: one per station (dependency mode) or the ceiling
      of the station's time (grouped mode). */
  datatype MachinePolicy = OneMachine | CeilOfTotal

  /** `math.ceil` on a real: the least integer not below `x`. */
  function Ceil(x: real): (r: int)
    ensures r as real - 1.0 < x <= r as real
  {
    var f := x.Floor;
    if f as real == x then f else f + 1
  }

  function Ref(p: Process): ProcessRef
  {
    ProcessRef(p.id, p.name)
  }

  function Refs(ps: seq<Process>): seq<ProcessRef>
  {
    seq(|ps|, k requires 0 <= k < |ps| => Ref(ps[k]))
  }

  function MachinesRequired(policy: MachinePolicy, total: real): int
  {
    match policy
    case OneMachine => 1
    case CeilOfTotal => Ceil(total)
  }

  /** The record of the station numbered `number` holding `members`. */
  function MakeStation(number: nat, members: seq<Process>, target: real, policy: MachinePolicy): Station
  {
    var total := CalculateStationTime(members);
    Station(Label(number), Refs(members), total, target - total, MachinesRequired(policy, total))
  }

  /** The records of consecutive stations numbered from `first`. */
  function Render(groups: seq<seq<Process>>, first: nat, target: real, policy: MachinePolicy): seq<Station>
  {
    seq(|groups|, s requires 0 <= s < |groups| => MakeStation(first + s, groups[s], target, policy))
  }

  /** All members of a station share one machine type. */
  predicate SameMachineType(g: seq<Process>)
  {
    forall k :: 0 <= k < |g| ==> g[k].machineType == g[0].machineType
  }

  /** The member summaries of all stations, station after station. */
  function FlatRefs(stations: seq<Station>): seq<ProcessRef>
  {
    if stations == [] then [] else stations[0].processes + FlatRefs(stations[1..])
  }

  /** No two member summaries carry the same id. */
  predicate UniqueRefIds(refs: seq<ProcessRef>)
  {
    forall a, b :: 0 <= a < b < |refs| ==> refs[a].id != refs[b].id
  }

  // ---------------------------------------------------------------------------
  // Lemmas

  lemma RefsAppend(a: seq<Process>, b: seq<Process>)
    ensures Refs(a + b) == Refs(a) + Refs(b)
  {
  }

  /** Rendering numbers station after station: the stations of `a + b` are those of `a`
      followed by those of `b`, whose numbering continues where `a`'s stopped. */
  lemma RenderAppend(a: seq<seq<Process>>, b: seq<seq<Process>>, first: nat, target: real, policy: MachinePolicy)
    ensures Render(a + b, first, target, policy)
            == Render(a, first, target, policy) + Render(b, first + |a|, target, policy)
  {
  }

  /** The member summaries of the rendered stations are the summaries of the
      flattened member lists, in the same order. */
  lemma {:induction false} FlatRefsOfRender(groups: seq<seq<Process>>, first: nat, target: real, policy: MachinePolicy)
    ensures FlatRefs(Render(groups, first, target, policy)) == Refs(Flatten(groups))
  {
    if groups != [] {
      var r := Render(groups, first, target, policy);
      assert r[1..] == Render(groups[1..], first + 1, target, policy);
      FlatRefsOfRender(groups[1..], first + 1, target, policy);
      RefsAppend(groups[0], Flatten(groups[1..]));
    }
  }

  /** Summaries keep ids, so distinct ids among members mean distinct ids among the
      emitted summaries. */
  lemma RefsKeepUniqueIds(ps: seq<Process>)
    requires UniqueIds(ps)
    ensures UniqueRefIds(Refs(ps))
  {
  }

  /** Every station of a rendering gets its own label, `S<first>`, `S<first+1>`, ... */
  lemma StationIdsDistinct(groups: seq<seq<Process>>, first: nat, target: real, policy: MachinePolicy)
    ensures forall s :: 0 <= s < |groups| ==>
              Render(groups, first, target, policy)[s].stationId == Label(first + s)
    ensures forall s, t :: 0 <= s < t < |groups| ==>
              Render(groups, first, target, policy)[s].stationId
              != Render(groups, first, target, policy)[t].stationId
  {
    forall s, t | 0 <= s < t < |groups|
      ensures Render(groups, first, target, policy)[s].stationId
              != Render(groups, first, target, policy)[t].stationId
    {
      LabelInjective(first + s, first + t);
    }
  }

  /** The record of station `s`: its label continues the numbering, its members are
      summarised in order, its waste is the target less its total, and its machine count
      follows the mode's policy. */
  lemma StationRecord(groups: seq<seq<Process>>, first: nat, target: real, policy: MachinePolicy, s: nat)
    requires s < |groups|
    ensures |Render(groups, first, target, policy)| == |groups|
    ensures var st := Render(groups, first, target, policy)[s];
            && st.stationId == Label(first + s)
            && |st.processes| == |groups[s]|
            && (forall k :: 0 <= k < |groups[s]| ==>
                  st.processes[k].id == groups[s][k].id && st.processes[k].name == groups[s][k].name)
            && st.totalExpectedTime == CalculateStationTime(groups[s])
            && st.wasteTime == target - st.totalExpectedTime
            && (policy == OneMachine ==> st.machinesRequired == 1)
            && (policy == CeilOfTotal ==>
                  st.machinesRequired as real - 1.0 < st.totalExpectedTime <= st.machinesRequired as real)
  {
  }
}
