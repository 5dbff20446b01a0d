/** The order in which grouped mode visits machine types: the distinct values of the
    `machineType` column in ascending string order, as a sorted `groupby` yields them.
    Python compares strings by code point, lexicographically, a proper prefix first. */
module MachineKeys {
  import opened Processes

  /** Python's `a < b` on strings. */
  predicate StrLess(a: string, b: string)
    decreases |a|
  {
    if |a| == 0 then |b| > 0
    else if |b| == 0 then false
    else if a[0] != b[0] then a[0] < b[0]
    else StrLess(a[1..], b[1..])
  }

  predicate StrictlyAscending(keys: seq<string>)
  {
    forall i, j :: 0 <= i < j < |keys| ==> StrLess(keys[i], keys[j])
  }

  /** Each machine type occurring in the table. */
  predicate IsMachineTypeOf(table: seq<Process>, k: string)
  {
    exists i :: 0 <= i < |table| && table[i].machineType == k
  }

  // ---------------------------------------------------------------------------
  // The string order is a strict total order

  lemma {:induction false} StrLessIrreflexive(a: string)
    ensures !StrLess(a, a)
    decreases |a|
  {
    if |a| > 0 {
      StrLessIrreflexive(a[1..]);
    }
  }

  lemma {:induction false} StrLessTransitive(a: string, b: string, c: string)
    requires StrLess(a, b) && StrLess(b, c)
    ensures StrLess(a, c)
    decreases |a|
  {
    if |a| > 0 && |b| > 0 && |c| > 0 && a[0] == b[0] && b[0] == c[0] {
      StrLessTransitive(a[1..], b[1..], c[1..]);
    }
  }

  lemma {:induction false} StrLessTotal(a: string, b: string)
    ensures a == b || StrLess(a, b) || StrLess(b, a)
    decreases |a|
  {
    if |a| > 0 && |b| > 0 && a[0] == b[0] {
      StrLessTotal(a[1..], b[1..]);
      if a[1..] == b[1..] {
        assert a == [a[0]] + a[1..] && b == [b[0]] + b[1..];
      }
    }
  }

  // ---------------------------------------------------------------------------
  // Building the key list

  /** Insert `k` into an ascending key list, keeping it ascending and duplicate-free. */
  function InsertKey(keys: seq<string>, k: string): (r: seq<string>)
    requires StrictlyAscending(keys)
    ensures StrictlyAscending(r)
    ensures forall x :: x in r <==> x in keys || x == k
  {
    if keys == [] then [k]
    else if k == keys[0] then keys
    else if StrLess(k, keys[0]) then
      InsertBeforeAll(keys, k)
    else
      var rest := InsertKey(keys[1..], k);
      AscendingTail(keys);
      StrLessTotal(k, keys[0]);
      AscendingCons(keys[0], rest, keys);
      [keys[0]] + rest
  }

  /** The machine types of the table, each once, in ascending order. */
  function MachineTypeKeys(table: seq<Process>): (r: seq<string>)
    ensures StrictlyAscending(r)
    ensures forall k :: k in r <==> IsMachineTypeOf(table, k)
  {
    if table == [] then []
    else
      var init := table[..|table| - 1];
      var keys := MachineTypeKeys(init);
      AppendedMachineTypes(init, table);
      InsertKey(keys, table[|table| - 1].machineType)
  }

  // ---------------------------------------------------------------------------
  // Helper lemmas

  lemma AscendingTail(keys: seq<string>)
    requires StrictlyAscending(keys) && keys != []
    ensures StrictlyAscending(keys[1..])
  {
  }

  lemma InsertBeforeAllAscending(keys: seq<string>, k: string)
    requires StrictlyAscending(keys) && keys != [] && StrLess(k, keys[0])
    ensures StrictlyAscending([k] + keys)
  {
    var r := [k] + keys;
    forall i, j | 0 <= i < j < |r| ensures StrLess(r[i], r[j]) {
      if i == 0 && j > 1 {
        StrLessTransitive(k, keys[0], keys[j - 1]);
      }
    }
  }

  function InsertBeforeAll(keys: seq<string>, k: string): (r: seq<string>)
    requires StrictlyAscending(keys) && keys != [] && StrLess(k, keys[0])
    ensures StrictlyAscending(r)
    ensures r == [k] + keys
  {
    InsertBeforeAllAscending(keys, k);
    [k] + keys
  }

  /** Putting `h` in front of an ascending list all of whose elements come from the
      ascending list `keys` after its head `h` (or are above `h`) keeps it ascending. */
  lemma AscendingCons(h: string, rest: seq<string>, keys: seq<string>)
    requires StrictlyAscending(rest) && StrictlyAscending(keys)
    requires keys != [] && keys[0] == h
    requires forall x :: x in rest ==> x in keys[1..] || StrLess(h, x)
    ensures StrictlyAscending([h] + rest)
  {
    var r := [h] + rest;
    forall i, j | 0 <= i < j < |r| ensures StrLess(r[i], r[j]) {
      if i == 0 {
        assert r[j] in rest;
        if r[j] in keys[1..] {
          var m :| 0 <= m < |keys[1..]| && keys[1..][m] == r[j];
          assert keys[m + 1] == r[j];
        }
      }
    }
  }

  lemma AppendedMachineTypes(init: seq<Process>, table: seq<Process>)
    requires table != [] && init == table[..|table| - 1]
    ensures forall k :: IsMachineTypeOf(table, k)
              <==> IsMachineTypeOf(init, k) || k == table[|table| - 1].machineType
  {
    forall k | IsMachineTypeOf(table, k)
      ensures IsMachineTypeOf(init, k) || k == table[|table| - 1].machineType
    {
      var i :| 0 <= i < |table| && table[i].machineType == k;
      if i < |init| {
        assert init[i] == table[i];
      }
    }
    forall k | IsMachineTypeOf(init, k) ensures IsMachineTypeOf(table, k) {
      var i :| 0 <= i < |init| && init[i].machineType == k;
      assert table[i] == init[i];
    }
  }

  /** There is only one ascending duplicate-free list of given keys, so the list above is
      the one a sorted grouping produces. */
  lemma {:induction false} AscendingKeysUnique(a: seq<string>, b: seq<string>)
    requires StrictlyAscending(a) && StrictlyAscending(b)
    requires forall x :: x in a <==> x in b
    ensures a == b
    decreases |a|
  {
    if a != [] { assert a[0] in b; }
    if b != [] { assert b[0] in a; }
    if a != [] && b != [] {
      // The heads are the least elements, so they coincide.
      if a[0] != b[0] {
        StrLessTotal(a[0], b[0]);
        assert a[0] in b;
        assert b[0] in a;
        var i :| 0 <= i < |b| && b[i] == a[0];
        var j :| 0 <= j < |a| && a[j] == b[0];
        assert i > 0 && j > 0;
        assert StrLess(b[0], a[0]) && StrLess(a[0], b[0]);
        StrLessTransitive(a[0], b[0], a[0]);
        StrLessIrreflexive(a[0]);
      }
      forall x ensures x in a[1..] <==> x in b[1..] {
        if x in a[1..] {
          var m :| 0 <= m < |a[1..]| && a[1..][m] == x;
          assert StrLess(a[0], x) by { assert a[m + 1] == x; }
          if x == a[0] { StrLessIrreflexive(x); }
          assert x in b;
          var n :| 0 <= n < |b| && b[n] == x;
          assert n > 0;
          assert b[1..][n - 1] == x;
        }
        if x in b[1..] {
          var m :| 0 <= m < |b[1..]| && b[1..][m] == x;
          assert StrLess(b[0], x) by { assert b[m + 1] == x; }
          if x == b[0] { StrLessIrreflexive(x); }
          assert x in a;
          var n :| 0 <= n < |a| && a[n] == x;
          assert n > 0;
          assert a[1..][n - 1] == x;
        }
      }
      AscendingTail(a);
      AscendingTail(b);
      AscendingKeysUnique(a[1..], b[1..]);
      assert a == [a[0]] + a[1..] && b == [b[0]] + b[1..];
    }
  }
}
