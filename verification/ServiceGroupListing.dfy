/** The list of service groups: two walked columns joined on their index. */
module ServiceGroupListing {
  import opened Basics
  import opened OidIndex
  import opened Positions

  datatype Row = Row(key: Key, ds: int, us: int)

  /** A walked row: the OID and the column value, if it can be read as an integer. */
  datatype Walked = Walked(oid: seq<Part>, value: Option<int>)

  type Column = seq<(Key, int)>

  // ---- collecting a column --------------------------------------------------------------------------

  /** The readable rows of a walk, or nothing when a key raises. */
  function Collected(base: nat, walk: seq<Walked>): Option<Column> {
    if walk == [] then Some([])
    else
      var front := Collected(base, walk[..|walk| - 1]);
      var last := walk[|walk| - 1];
      if front.None? then None
      else
        match ParseKey(base, last.oid)
        case Raised => None
        case Nothing => front
        case Found(key) => if last.value.None? then front else Some(front.value + [(key, last.value.value)])
  }

  /** Some row's index makes the parser raise. */
  ghost predicate SomeRaises(base: nat, walk: seq<Walked>) {
    exists i :: 0 <= i < |walk| && NameIsNoBytes(base, walk[i].oid)
  }

  /** Collecting fails exactly when some row's name is no bytes, whatever its value. */
  lemma {:induction false} CollectedFails(base: nat, walk: seq<Walked>)
    ensures Collected(base, walk).None? <==> SomeRaises(base, walk)
  {
    if walk != [] {
      var front, last := walk[..|walk| - 1], walk[|walk| - 1];
      CollectedFails(base, front);
      KeyParserRaises(base, last.oid);
      if SomeRaises(base, front) {
        var i :| 0 <= i < |front| && NameIsNoBytes(base, front[i].oid);
        assert NameIsNoBytes(base, walk[i].oid);
      }
      if SomeRaises(base, walk) && !NameIsNoBytes(base, last.oid) {
        var i :| 0 <= i < |walk| && NameIsNoBytes(base, walk[i].oid);
        assert NameIsNoBytes(base, front[i].oid);
      }
    }
  }

  /** A walked row counts when its index has a key's encoding, and a name or something behind it, and its value can be
      read. */
  ghost predicate Counts(base: nat, row: Walked, key: Key, value: int) {
    && base <= |row.oid| && Encode(key) <= row.oid[base..]
    && (key.name != [] || Encode(key) != row.oid[base..])
    && row.value == Some(value)
  }

  ghost predicate Readable(base: nat, row: Walked) {
    exists key, value :: Counts(base, row, key, value)
  }

  ghost function IsReadable(base: nat): Walked -> bool {
    row => Readable(base, row)
  }

  /** The column has the readable rows of the walk, in order, each with its key and value. */
  ghost predicate IsColumn(column: Column, base: nat, walk: seq<Walked>) {
    exists at :: Picks(at, walk, IsReadable(base)) && |column| == |at| &&
      forall k :: 0 <= k < |at| ==> Counts(base, walk[at[k]], column[k].0, column[k].1)
  }

  lemma ReadableIsParsed(base: nat, row: Walked)
    ensures Readable(base, row) <==> ParseKey(base, row.oid).Found? && row.value.Some?
    ensures Readable(base, row) ==> Counts(base, row, ParseKey(base, row.oid).key, row.value.value)
  {
    if Readable(base, row) {
      var key, value :| Counts(base, row, key, value);
      KeyParserFinds(base, row.oid, key);
    }
    if ParseKey(base, row.oid).Found? && row.value.Some? {
      KeyParserFinds(base, row.oid, ParseKey(base, row.oid).key);
      assert Counts(base, row, ParseKey(base, row.oid).key, row.value.value);
    }
  }

  lemma {:induction false} CollectedWhere(base: nat, walk: seq<Walked>)
    requires Collected(base, walk).Some?
    ensures var column, at := Collected(base, walk).value, Where(walk, IsReadable(base));
            && |column| == |at|
            && forall k :: 0 <= k < |at| ==> Counts(base, walk[at[k]], column[k].0, column[k].1)
  {
    if walk != [] {
      var n := |walk| - 1;
      CollectedWhere(base, walk[..n]);
      ReadableIsParsed(base, walk[n]);
    }
  }

  /** What is collected are the readable rows. */
  lemma CollectedExactly(base: nat, walk: seq<Walked>)
    ensures Collected(base, walk).Some? ==> IsColumn(Collected(base, walk).value, base, walk)
  {
    if Collected(base, walk).Some? {
      CollectedWhere(base, walk);
      WherePicks(walk, IsReadable(base));
    }
  }

  lemma {:induction false} CollectedOfPrefix(base: nat, walk: seq<Walked>, i: nat)
    requires i <= |walk| && Collected(base, walk[..i]).None?
    ensures Collected(base, walk).None?
    decreases |walk|
  {
    if i == |walk| {
      assert walk[..i] == walk;
    } else {
      assert walk[..|walk| - 1][..i] == walk[..i];
      CollectedOfPrefix(base, walk[..|walk| - 1], i);
    }
  }

  method Collect(base: nat, walk: seq<Walked>) returns (rows: Option<Column>)
    ensures rows == Collected(base, walk)
    ensures rows.None? <==> SomeRaises(base, walk)
    ensures rows.Some? ==> IsColumn(rows.value, base, walk)
  {
    CollectedFails(base, walk);
    CollectedExactly(base, walk);
    var results: Column := [];
    for i := 0 to |walk|
      invariant Collected(base, walk[..i]) == Some(results)
    {
      assert walk[..i + 1][..i] == walk[..i];
      match ParseKey(base, walk[i].oid) {
        case Raised =>
          CollectedOfPrefix(base, walk, i + 1);
          return None;
        case Nothing =>
        case Found(key) =>
          if walk[i].value.Some? {
            results := results + [(key, walk[i].value.value)];
          }
      }
    }
    assert walk[..|walk|] == walk;
    return Some(results);
  }

  /** What an agent answers with for a column: each key encoded behind the base. */
  function Answer(base: seq<Part>, column: Column): seq<Walked> {
    seq(|column|, i requires 0 <= i < |column| => Walked(base + Encode(column[i].0), Some(column[i].1)))
  }

  function Named(column: Column): Column {
    if column == [] then []
    else
      var rest := Named(column[..|column| - 1]);
      if column[|column| - 1].0.name != [] then rest + [column[|column| - 1]] else rest
  }

  /** Of an agent's answer exactly the rows with a node name come back, as they were. */
  lemma {:induction false} AnswerIsCollected(base: seq<Part>, column: Column)
    ensures Collected(|base|, Answer(base, column)) == Some(Named(column))
  {
    if column != [] {
      var n := |column| - 1;
      AnswerIsCollected(base, column[..n]);
      assert Answer(base, column)[..n] == Answer(base, column[..n]);
      RoundTrip(base, column[n].0);
    }
  }

  // ---- the order of the list --------------------------------------------------------------------------

  predicate NameLess(a: seq<Byte>, b: seq<Byte>) {
    if a == [] then b != []
    else if b == [] then false
    else a[0] < b[0] || (a[0] == b[0] && NameLess(a[1..], b[1..]))
  }

  predicate KeyLess(a: Key, b: Key) {
    a.ifIndex < b.ifIndex ||
    (a.ifIndex == b.ifIndex && (NameLess(a.name, b.name) || (a.name == b.name && a.sgId < b.sgId)))
  }

  lemma {:induction false} NameLessIsTotal(a: seq<Byte>, b: seq<Byte>)
    ensures NameLess(a, b) || NameLess(b, a) || a == b
    ensures !(NameLess(a, b) && NameLess(b, a))
    ensures !NameLess(a, a)
    decreases |a|
  {
    if a != [] {
      NameLessIsTotal(a[1..], a[1..]);
      if b != [] && a[0] == b[0] {
        NameLessIsTotal(a[1..], b[1..]);
        assert a == [a[0]] + a[1..] && b == [b[0]] + b[1..];
      }
    }
  }

  lemma {:induction false} NameLessIsTransitive(a: seq<Byte>, b: seq<Byte>, c: seq<Byte>)
    requires NameLess(a, b) && NameLess(b, c)
    ensures NameLess(a, c)
    decreases |a|
  {
    if a != [] && a[0] == b[0] == c[0] {
      NameLessIsTransitive(a[1..], b[1..], c[1..]);
    }
  }

  /** At the first place where the names differ `a` has the smaller byte, or it is a proper prefix of `b`. */
  ghost predicate Precedes(a: seq<Byte>, b: seq<Byte>) {
    exists i :: 0 <= i <= |a| && i < |b| && a[..i] == b[..i] && (i == |a| || a[i] < b[i])
  }

  lemma {:induction false} NameLessIsPrecedes(a: seq<Byte>, b: seq<Byte>)
    ensures NameLess(a, b) <==> Precedes(a, b)
    decreases |a|
  {
    if a == [] {
      assert b != [] ==> a[..0] == b[..0];
    } else if b != [] {
      NameLessIsPrecedes(a[1..], b[1..]);
      assert a[..0] == b[..0];
      if a[0] == b[0] {
        if i :| 0 <= i <= |a[1..]| && i < |b[1..]| && a[1..][..i] == b[1..][..i]
                && (i == |a[1..]| || a[1..][i] < b[1..][i]) {
          assert a[..i + 1] == [a[0]] + a[1..][..i] && b[..i + 1] == [b[0]] + b[1..][..i];
        }
        if i :| 0 <= i <= |a| && i < |b| && a[..i] == b[..i] && (i == |a| || a[i] < b[i]) {
          assert i > 0;
          assert a[1..][..i - 1] == a[..i][1..] && b[1..][..i - 1] == b[..i][1..];
        }
      } else {
        forall i | 0 < i <= |a| && i < |b| ensures a[..i] != b[..i] {
          assert a[..i][0] == a[0] && b[..i][0] == b[0];
        }
      }
    }
  }

  /** The order of the list: by interface, then name, byte by byte, then service group. */
  lemma KeyOrder(a: Key, b: Key)
    ensures KeyLess(a, b) <==>
            || a.ifIndex < b.ifIndex
            || (a.ifIndex == b.ifIndex && Precedes(a.name, b.name))
            || (a.ifIndex == b.ifIndex && a.name == b.name && a.sgId < b.sgId)
  {
    NameLessIsPrecedes(a.name, b.name);
  }

  lemma KeyLessIsTotal(a: Key, b: Key)
    ensures KeyLess(a, b) || KeyLess(b, a) || a == b
    ensures !(KeyLess(a, b) && KeyLess(b, a)) && !KeyLess(a, a)
  {
    NameLessIsTotal(a.name, b.name);
  }

  lemma KeyLessIsTransitive(a: Key, b: Key, c: Key)
    requires KeyLess(a, b) && KeyLess(b, c)
    ensures KeyLess(a, c)
  {
    if a.ifIndex == b.ifIndex == c.ifIndex && NameLess(a.name, b.name) && NameLess(b.name, c.name) {
      NameLessIsTransitive(a.name, b.name, c.name);
    }
  }

  ghost predicate Increasing(keys: seq<Key>) {
    forall i, j :: 0 <= i < j < |keys| ==> KeyLess(keys[i], keys[j])
  }

  function Insert(key: Key, keys: seq<Key>): seq<Key> {
    if keys == [] || KeyLess(key, keys[0]) then [key] + keys else [keys[0]] + Insert(key, keys[1..])
  }

  function SortKeys(keys: seq<Key>): seq<Key> {
    if keys == [] then [] else Insert(keys[0], SortKeys(keys[1..]))
  }

  lemma {:induction false} InsertMembers(key: Key, keys: seq<Key>, k: Key)
    ensures k in Insert(key, keys) <==> k == key || k in keys
  {
    if !(keys == [] || KeyLess(key, keys[0])) {
      InsertMembers(key, keys[1..], k);
      assert keys == [keys[0]] + keys[1..];
    }
  }

  lemma {:induction false} InsertIncreasing(key: Key, keys: seq<Key>)
    requires Increasing(keys) && key !in keys
    ensures Increasing(Insert(key, keys))
  {
    if keys == [] {
    } else if KeyLess(key, keys[0]) {
      forall i | 0 < i < |keys| ensures KeyLess(key, keys[i]) {
        KeyLessIsTransitive(key, keys[0], keys[i]);
      }
    } else {
      InsertIncreasing(key, keys[1..]);
      var rest := Insert(key, keys[1..]);
      KeyLessIsTotal(key, keys[0]);
      forall i | 0 <= i < |rest| ensures KeyLess(keys[0], rest[i]) {
        InsertMembers(key, keys[1..], rest[i]);
      }
    }
  }

  ghost predicate AllDifferent(keys: seq<Key>) {
    forall i, j :: 0 <= i < j < |keys| ==> keys[i] != keys[j]
  }

  lemma {:induction false} SortMembers(keys: seq<Key>, k: Key)
    ensures k in SortKeys(keys) <==> k in keys
  {
    if keys != [] {
      SortMembers(keys[1..], k);
      InsertMembers(keys[0], SortKeys(keys[1..]), k);
      assert keys == [keys[0]] + keys[1..];
    }
  }

  lemma {:induction false} SortIncreasing(keys: seq<Key>)
    requires AllDifferent(keys)
    ensures Increasing(SortKeys(keys))
  {
    if keys != [] {
      SortIncreasing(keys[1..]);
      SortMembers(keys[1..], keys[0]);
      InsertIncreasing(keys[0], SortKeys(keys[1..]));
    }
  }

  // ---- the join -----------------------------------------------------------------------------------------

  /** The value last walked for a key. */
  function LastValue(column: Column, key: Key): Option<int> {
    if column == [] then None
    else if column[|column| - 1].0 == key then Some(column[|column| - 1].1)
    else LastValue(column[..|column| - 1], key)
  }

  function OrZero(value: Option<int>): int {
    if value.Some? then value.value else 0
  }

  ghost predicate Seen(ds: Column, us: Column, key: Key) {
    LastValue(ds, key).Some? || LastValue(us, key).Some?
  }

  function Joined(ds: Column, us: Column, key: Key): Row {
    Row(key, OrZero(LastValue(ds, key)), OrZero(LastValue(us, key)))
  }

  /** One row for each key seen in either column, each side with its last value or 0, in strictly increasing order. */
  ghost predicate FullOuterJoin(rows: seq<Row>, ds: Column, us: Column) {
    && Increasing(Keys(rows))
    && (forall key :: key in Keys(rows) <==> Seen(ds, us, key))
    && (forall i :: 0 <= i < |rows| ==> rows[i] == Joined(ds, us, rows[i].key))
  }

  function Keys(rows: seq<Row>): seq<Key> {
    seq(|rows|, i requires 0 <= i < |rows| => rows[i].key)
  }

  /** A dictionary in insertion order that holds the join. */
  ghost predicate Holds(merged: map<Key, Row>, order: seq<Key>, ds: Column, us: Column) {
    && AllDifferent(order)
    && (forall key :: key in merged <==> key in order)
    && (forall key :: key in merged <==> Seen(ds, us, key))
    && (forall key :: key in merged ==> merged[key] == Joined(ds, us, key))
  }

  lemma LastValueSnoc(column: Column, key: Key, value: int, k: Key)
    ensures LastValue(column + [(key, value)], k) == if k == key then Some(value) else LastValue(column, k)
  {
    assert (column + [(key, value)])[..|column|] == column;
  }

  lemma HoldsDs(merged: map<Key, Row>, order: seq<Key>, ds: Column, key: Key, value: int)
    requires Holds(merged, order, ds, [])
    ensures Holds(merged[key := Row(key, value, 0)], if key in order then order else order + [key],
                  ds + [(key, value)], [])
  {
    forall k ensures LastValue(ds + [(key, value)], k) == if k == key then Some(value) else LastValue(ds, k) {
      LastValueSnoc(ds, key, value, k);
    }
  }

  lemma HoldsUs(merged: map<Key, Row>, order: seq<Key>, ds: Column, us: Column, key: Key, value: int)
    requires Holds(merged, order, ds, us)
    ensures var row := if key in merged then merged[key].(us := value) else Row(key, 0, value);
            Holds(merged[key := row], if key in order then order else order + [key], ds, us + [(key, value)])
  {
    forall k ensures LastValue(us + [(key, value)], k) == if k == key then Some(value) else LastValue(us, k) {
      LastValueSnoc(us, key, value, k);
    }
  }

  /** The first loop: the downstream column makes the rows. */
  method PutDownstream(ds: Column) returns (merged: map<Key, Row>, order: seq<Key>)
    ensures Holds(merged, order, ds, [])
  {
    merged, order := map[], [];
    for i := 0 to |ds|
      invariant Holds(merged, order, ds[..i], [])
    {
      var (key, value) := ds[i];
      HoldsDs(merged, order, ds[..i], key, value);
      assert ds[..i + 1] == ds[..i] + [(key, value)];
      merged := merged[key := Row(key, value, 0)];
      order := if key in order then order else order + [key];
    }
    assert ds[..|ds|] == ds;
  }

  /** The second loop: the upstream column fills rows in and adds those that are missing. */
  method PutUpstream(before: map<Key, Row>, orderBefore: seq<Key>, ghost ds: Column, us: Column)
    returns (merged: map<Key, Row>, order: seq<Key>)
    requires Holds(before, orderBefore, ds, [])
    ensures Holds(merged, order, ds, us)
  {
    merged, order := before, orderBefore;
    for i := 0 to |us|
      invariant Holds(merged, order, ds, us[..i])
    {
      var (key, value) := us[i];
      HoldsUs(merged, order, ds, us[..i], key, value);
      assert us[..i + 1] == us[..i] + [(key, value)];
      if key !in merged {
        merged := merged[key := Row(key, 0, value)];
        order := order + [key];
      } else {
        merged := merged[key := merged[key].(us := value)];
      }
    }
    assert us[..|us|] == us;
  }

  method Join(ds: Column, us: Column) returns (rows: seq<Row>)
    ensures FullOuterJoin(rows, ds, us)
  {
    var merged, order := PutDownstream(ds);
    merged, order := PutUpstream(merged, order, ds, us);
    rows := Listed(merged, order);
    ListedJoins(merged, order, ds, us);
  }

  function Listed(merged: map<Key, Row>, order: seq<Key>): seq<Row> {
    var sorted := SortKeys(order);
    seq(|sorted|, i requires 0 <= i < |sorted| =>
      if sorted[i] in merged then merged[sorted[i]] else Row(sorted[i], 0, 0))
  }

  lemma ListedJoins(merged: map<Key, Row>, order: seq<Key>, ds: Column, us: Column)
    requires Holds(merged, order, ds, us)
    ensures FullOuterJoin(Listed(merged, order), ds, us)
  {
    var sorted, rows := SortKeys(order), Listed(merged, order);
    SortIncreasing(order);
    forall key ensures key in sorted <==> key in order {
      SortMembers(order, key);
    }
    forall i | 0 <= i < |rows| ensures rows[i] == Joined(ds, us, sorted[i]) {
      assert sorted[i] in sorted;
    }
    assert Keys(rows) == sorted;
  }

  ghost predicate InColumn(column: Column, key: Key) {
    exists i :: 0 <= i < |column| && column[i].0 == key
  }

  ghost predicate InRows(rows: seq<Row>, key: Key) {
    exists i :: 0 <= i < |rows| && rows[i].key == key
  }

  /** The last entry for the key has the value; or there is no entry for it, and the value is 0. */
  ghost predicate LastOrZero(column: Column, key: Key, value: int) {
    || (exists i :: 0 <= i < |column| && column[i] == (key, value) &&
          forall j :: i < j < |column| ==> column[j].0 != key)
    || (value == 0 && forall i :: 0 <= i < |column| ==> column[i].0 != key)
  }

  lemma {:induction false} LastValueIsLast(column: Column, key: Key)
    ensures LastOrZero(column, key, OrZero(LastValue(column, key)))
    ensures LastValue(column, key).Some? <==> InColumn(column, key)
  {
    if column != [] {
      var n := |column| - 1;
      var value := OrZero(LastValue(column, key));
      LastValueIsLast(column[..n], key);
      if column[n].0 == key {
        assert column[n] == (key, value);
      } else {
        assert LastOrZero(column[..n], key, value);
        if i :| 0 <= i < n && column[..n][i] == (key, value) && forall j :: i < j < n ==> column[..n][j].0 != key {
          assert column[i] == (key, value);
          assert forall j :: i < j < n ==> column[j] == column[..n][j];
        }
        assert forall j :: 0 <= j < n ==> column[j] == column[..n][j];
      }
    }
  }

  /** What the join says row by row: a row for each key that is in either column and for no other, each side with the
      last value the column has for the key, or 0 when it has none, in the order of the keys. */
  lemma JoinExactly(rows: seq<Row>, ds: Column, us: Column)
    requires FullOuterJoin(rows, ds, us)
    ensures forall key :: InRows(rows, key) <==> InColumn(ds, key) || InColumn(us, key)
    ensures forall i :: 0 <= i < |rows| ==>
              LastOrZero(ds, rows[i].key, rows[i].ds) && LastOrZero(us, rows[i].key, rows[i].us)
    ensures forall i, j :: 0 <= i < j < |rows| ==> KeyLess(rows[i].key, rows[j].key)
  {
    forall key ensures InRows(rows, key) <==> InColumn(ds, key) || InColumn(us, key) {
      LastValueIsLast(ds, key);
      LastValueIsLast(us, key);
      assert key in Keys(rows) <==> Seen(ds, us, key);
      assert forall i :: 0 <= i < |rows| ==> Keys(rows)[i] == rows[i].key;
    }
    forall i | 0 <= i < |rows|
      ensures LastOrZero(ds, rows[i].key, rows[i].ds) && LastOrZero(us, rows[i].key, rows[i].us)
    {
      LastValueIsLast(ds, rows[i].key);
      LastValueIsLast(us, rows[i].key);
    }
    forall i, j | 0 <= i < j < |rows| ensures KeyLess(rows[i].key, rows[j].key) {
      assert Keys(rows)[i] == rows[i].key && Keys(rows)[j] == rows[j].key;
    }
  }

  /** The join leaves no choice. */
  lemma JoinIsUnique(a: seq<Row>, b: seq<Row>, ds: Column, us: Column)
    requires FullOuterJoin(a, ds, us) && FullOuterJoin(b, ds, us)
    ensures a == b
  {
    assert forall key :: key in Keys(a) <==> key in Keys(b);
    SameKeys(Keys(a), Keys(b));
    assert |a| == |Keys(a)| == |Keys(b)| == |b|;
    forall i | 0 <= i < |a| ensures a[i] == b[i] {
      assert Keys(a)[i] == Keys(b)[i];
    }
  }

  lemma {:induction false} SameKeys(a: seq<Key>, b: seq<Key>)
    requires Increasing(a) && Increasing(b) && (forall key :: key in a <==> key in b)
    ensures a == b
  {
    assert b != [] ==> b[0] in a;
    if a != [] {
      assert a[0] in b;
      LeastFirst(a, b);
      LeastFirst(b, a);
      KeyLessIsTotal(a[0], b[0]);
      forall key ensures key in a[1..] <==> key in b[1..] {
        RestOf(a, key);
        RestOf(b, key);
      }
      SameKeys(a[1..], b[1..]);
    }
  }

  lemma LeastFirst(a: seq<Key>, b: seq<Key>)
    requires Increasing(a) && a != [] && b != [] && b[0] in a
    ensures a[0] == b[0] || KeyLess(a[0], b[0])
  {
  }

  lemma RestOf(a: seq<Key>, key: Key)
    requires Increasing(a) && a != []
    ensures key in a[1..] <==> key in a && key != a[0]
  {
    KeyLessIsTotal(key, key);
    assert a == [a[0]] + a[1..];
    if key in a[1..] {
      var i :| 0 <= i < |a[1..]| && a[1..][i] == key;
      assert KeyLess(a[0], a[i + 1]);
    }
  }

  /** The listing: both columns collected, then joined; an index that raises ends it. */
  method ListServiceGroups(dsBase: nat, usBase: nat, dsWalk: seq<Walked>, usWalk: seq<Walked>)
    returns (rows: Option<seq<Row>>)
    ensures rows.None? <==> SomeRaises(dsBase, dsWalk) || SomeRaises(usBase, usWalk)
    ensures rows.Some? ==> Collected(dsBase, dsWalk).Some? && Collected(usBase, usWalk).Some?
    ensures rows.Some? ==> FullOuterJoin(rows.value, Collected(dsBase, dsWalk).value, Collected(usBase, usWalk).value)
  {
    var ds := Collect(dsBase, dsWalk);
    if ds.None? {
      return None;
    }
    var us := Collect(usBase, usWalk);
    if us.None? {
      return None;
    }
    var joined := Join(ds.value, us.value);
    return Some(joined);
  }
}
