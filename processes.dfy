/** The process table: the rows the allocator reads, and the pure helpers over them
    (`calculate_station_time`, `check_dependencies_met`). */
module Processes {

  datatype Option<T> = None | Some(value: T)

  /** One row of the process table. */
  datatype Process = Process(
    id: string,
    name: string,
    expectedTimeInMin: real,
    machineType: string,
    dependency: seq<string>)

  /** The `id` column, in table order. */
  function IdColumn(table: seq<Process>): seq<string>
  {
    seq(|table|, i requires 0 <= i < |table| => table[i].id)
  }

  /** The set of ids carried by some row of `ps`. */
  function IdsOf(ps: seq<Process>): set<string>
  {
    set p | p in ps :: p.id
  }

  /** No two rows of `ps` share an id. */
  predicate UniqueIds(ps: seq<Process>)
  {
    forall a, b :: 0 <= a < b < |ps| ==> ps[a].id != ps[b].id
  }

  /** `calculate_station_time`: the sum of the members' durations, added up from the
      first member to the last as Python's `sum` does. */
  function CalculateStationTime(ps: seq<Process>): real
  {
    if ps == [] then 0.0
    else CalculateStationTime(ps[..|ps| - 1]) + ps[|ps| - 1].expectedTimeInMin
  }

  /** The dependency test written inline at each use in the allocator: every declared
      dependency id is already allocatedIds. */
  predicate DependenciesMet(p: Process, allocatedIds: set<string>)
  {
    forall d :: d in p.dependency ==> d in allocatedIds
  }

  /** The dependency lists keyed by process id (the `process_dependencies` argument). */
  function DependencyMap(table: seq<Process>): map<string, seq<string>>
    requires UniqueIds(table)
  {
    map i | 0 <= i < |table| :: table[i].id := table[i].dependency
  }

  /** `check_dependencies_met`: an id missing from the map has no dependencies. */
  function CheckDependenciesMet(processId: string, allocatedIds: set<string>,
                                processDependencies: map<string, seq<string>>): bool
  {
    var deps := if processId in processDependencies then processDependencies[processId] else [];
    forall d :: d in deps ==> d in allocatedIds
  }

  /** The concatenation of a sequence of member lists. */
  function Flatten(groups: seq<seq<Process>>): seq<Process>
  {
    if groups == [] then [] else groups[0] + Flatten(groups[1..])
  }

  // ---------------------------------------------------------------------------
  // Lemmas

  /** The station time of two consecutive runs of members is the sum of their times. */
  lemma {:induction false} StationTimeAppend(a: seq<Process>, b: seq<Process>)
    ensures CalculateStationTime(a + b) == CalculateStationTime(a) + CalculateStationTime(b)
  {
    if b == [] {
      assert a + b == a;
    } else {
      var b' := b[..|b| - 1];
      assert (a + b)[..|a + b| - 1] == a + b';
      assert (a + b)[|a + b| - 1] == b[|b| - 1];
      StationTimeAppend(a, b');
    }
  }

  /** Appending one member adds exactly its duration. */
  lemma StationTimeSnoc(ps: seq<Process>, p: Process)
    ensures CalculateStationTime(ps + [p]) == CalculateStationTime(ps) + p.expectedTimeInMin
  {
    assert (ps + [p])[..|ps + [p]| - 1] == ps;
  }

  /** The station time depends only on which members there are, not on their order. */
  lemma {:induction false} StationTimePermutation(a: seq<Process>, b: seq<Process>)
    requires multiset(a) == multiset(b)
    ensures CalculateStationTime(a) == CalculateStationTime(b)
    decreases |a|
  {
    if a != [] {
      var init := a[..|a| - 1];
      var x := a[|a| - 1];
      assert a == init + [x];
      assert multiset(a) == multiset(init) + multiset{x};
      assert x in multiset(b);
      var j :| 0 <= j < |b| && b[j] == x;
      var b' := RemoveAt(b, j);
      assert multiset(init) == multiset(a) - multiset{x};
      assert multiset(b') == multiset(b) - multiset{x};
      StationTimePermutation(init, b');
      StationTimeSnoc(init, x);
    }
  }

  /** `ps` without its member at `j`: the multiset loses that member and the station
      time its duration. */
  lemma RemoveAt(ps: seq<Process>, j: nat) returns (rest: seq<Process>)
    requires j < |ps|
    ensures multiset(ps) == multiset(rest) + multiset{ps[j]}
    ensures CalculateStationTime(ps) == CalculateStationTime(rest) + ps[j].expectedTimeInMin
  {
    rest := ps[..j] + ps[j + 1..];
    assert ps == ps[..j] + [ps[j]] + ps[j + 1..];
    StationTimeAppend(ps[..j] + [ps[j]], ps[j + 1..]);
    StationTimeSnoc(ps[..j], ps[j]);
    StationTimeAppend(ps[..j], ps[j + 1..]);
  }

  /** When the map is built from a table with unique ids, `check_dependencies_met` on a
      row's id is exactly the inline test the allocator performs on that row; an id that
      is not in the map is always satisfied. */
  lemma CheckDependenciesMetAgrees(table: seq<Process>, i: nat, allocatedIds: set<string>, other: string)
    requires UniqueIds(table)
    requires i < |table|
    requires other !in IdColumn(table)
    ensures CheckDependenciesMet(table[i].id, allocatedIds, DependencyMap(table))
            == DependenciesMet(table[i], allocatedIds)
    ensures CheckDependenciesMet(other, allocatedIds, DependencyMap(table))
  {
    var m := DependencyMap(table);
    assert table[i].id in m && m[table[i].id] == table[i].dependency;
    forall j | 0 <= j < |table| ensures table[j].id != other {
      assert IdColumn(table)[j] == table[j].id;
    }
    assert other !in m;
  }

  /** Ids of a concatenation. */
  lemma IdsOfAppend(a: seq<Process>, b: seq<Process>)
    ensures IdsOf(a + b) == IdsOf(a) + IdsOf(b)
  {
    forall x | x in IdsOf(a + b) ensures x in IdsOf(a) + IdsOf(b) {
      var p :| p in a + b && p.id == x;
      if p in a { assert x in IdsOf(a); } else { assert p in b; assert x in IdsOf(b); }
    }
    forall x | x in IdsOf(a) + IdsOf(b) ensures x in IdsOf(a + b) {
      if x in IdsOf(a) {
        var p :| p in a && p.id == x;
        assert p in a + b;
      } else {
        var p :| p in b && p.id == x;
        assert p in a + b;
      }
    }
  }

  /** A table has at most as many distinct ids as rows, and exactly as many when its
      ids are unique. */
  lemma {:induction false} IdsOfCardinality(ps: seq<Process>)
    ensures |IdsOf(ps)| <= |ps|
    ensures UniqueIds(ps) ==> |IdsOf(ps)| == |ps|
  {
    if ps != [] {
      var init := ps[..|ps| - 1];
      var last := ps[|ps| - 1];
      IdsOfSnoc(ps, init, last);
      IdsOfCardinality(init);
      if UniqueIds(ps) {
        assert UniqueIds(init);
        LastIdFresh(ps, init, last);
      }
    }
  }

  lemma IdsOfSnoc(ps: seq<Process>, init: seq<Process>, last: Process)
    requires ps == init + [last]
    ensures IdsOf(ps) == IdsOf(init) + {last.id}
  {
    IdsOfAppend(init, [last]);
    assert IdsOf([last]) == {last.id};
  }

  /** With unique ids, the last row's id is not among the earlier rows' ids. */
  lemma LastIdFresh(ps: seq<Process>, init: seq<Process>, last: Process)
    requires ps == init + [last] && UniqueIds(ps)
    ensures last.id !in IdsOf(init)
  {
    forall p | p in init ensures p.id != last.id {
      var a :| 0 <= a < |init| && init[a] == p;
      assert ps[a] == p && ps[|ps| - 1] == last;
    }
  }

  /** An id of `ps` is carried by some row of it. */
  lemma IdPosition(ps: seq<Process>, x: string)
    requires x in IdsOf(ps)
    ensures exists i :: 0 <= i < |ps| && ps[i].id == x
  {
    var p :| p in ps && p.id == x;
    var i :| 0 <= i < |ps| && ps[i] == p;
  }

  /** Flattening distributes over concatenation. */
  lemma {:induction false} FlattenAppend(a: seq<seq<Process>>, b: seq<seq<Process>>)
    ensures Flatten(a + b) == Flatten(a) + Flatten(b)
  {
    if a == [] {
      assert a + b == b;
    } else {
      assert (a + b)[1..] == a[1..] + b;
      FlattenAppend(a[1..], b);
    }
  }

  /** Flattening a station list that ends with `g`. */
  lemma FlattenSnoc(groups: seq<seq<Process>>, g: seq<Process>)
    ensures Flatten(groups + [g]) == Flatten(groups) + g
  {
    FlattenAppend(groups, [g]);
    assert [g][1..] == [];
  }

  /** Flattening a station list that starts with `g`. */
  lemma FlattenCons(groups: seq<seq<Process>>, g: seq<Process>, rest: seq<seq<Process>>)
    requires groups == [g] + rest
    ensures Flatten(groups) == g + Flatten(rest)
  {
    assert groups[1..] == rest;
  }

  /** A subset of the table's ids that is at least as large as the table is all of them. */
  lemma FullSubsetOfIds(table: seq<Process>, allocatedIds: set<string>)
    requires allocatedIds <= IdsOf(table)
    requires |allocatedIds| >= |table|
    ensures allocatedIds == IdsOf(table)
  {
    IdsOfCardinality(table);
    var ids := IdsOf(table);
    assert ids == allocatedIds + (ids - allocatedIds);
    assert |ids| == |allocatedIds| + |ids - allocatedIds|;
    assert |ids - allocatedIds| == 0;
  }

  /** A set grows strictly when it gains an element it lacked. */
  lemma SubsetCardinality(a: set<string>, b: set<string>)
    requires a <= b
    ensures |a| <= |b|
  {
    assert b == a + (b - a);
  }
}
