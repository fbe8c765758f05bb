/**
 * What both apps' database layers take from D1 (SQLite): tables as sequences of rows in insertion
 * order, `WHERE` filters, `ORDER BY` on an integer column, `ORDER BY created_at DESC` on rows
 * stamped at insertion, the 0/1 encoding of booleans, `x || null` on optional strings, and the
 * row-id supply.
 */
module Table {
  import opened Wrappers
  import Decimal

  // ---- WHERE ----

  /** The rows satisfying `p`, in table order. */
  function Where<T(!new)>(rows: seq<T>, p: T -> bool): (r: seq<T>)
    ensures |r| <= |rows|
    ensures forall x :: x in r <==> x in rows && p(x)
    decreases |rows|
  {
    if rows == [] then []
    else if p(rows[|rows| - 1]) then Where(rows[..|rows| - 1], p) + [rows[|rows| - 1]]
    else Where(rows[..|rows| - 1], p)
  }

  lemma {:induction false} WhereAppend<T(!new)>(a: seq<T>, b: seq<T>, p: T -> bool)
    ensures Where(a + b, p) == Where(a, p) + Where(b, p)
    decreases |b|
  {
    if b == [] {
      assert a + b == a;
    } else {
      var b' := b[..|b| - 1];
      assert (a + b)[..|a + b| - 1] == a + b';
      assert (a + b)[|a + b| - 1] == b[|b| - 1];
      WhereAppend(a, b', p);
    }
  }

  lemma {:induction false} WhereNone<T(!new)>(rows: seq<T>, p: T -> bool)
    requires forall x :: x in rows ==> !p(x)
    ensures Where(rows, p) == []
    decreases |rows|
  {
    if rows != [] {
      assert rows[|rows| - 1] in rows;
      assert forall x :: x in rows[..|rows| - 1] ==> x in rows;
      WhereNone(rows[..|rows| - 1], p);
    }
  }

  lemma {:induction false} WhereAll<T(!new)>(rows: seq<T>, p: T -> bool)
    requires forall x :: x in rows ==> p(x)
    ensures Where(rows, p) == rows
    decreases |rows|
  {
    if rows != [] {
      assert rows[|rows| - 1] in rows;
      assert forall x :: x in rows[..|rows| - 1] ==> x in rows;
      WhereAll(rows[..|rows| - 1], p);
      assert rows[..|rows| - 1] + [rows[|rows| - 1]] == rows;
    }
  }

  /** Filtering twice is filtering by both conditions. */
  lemma {:induction false} WhereWhere<T(!new)>(rows: seq<T>, p: T -> bool, q: T -> bool, pq: T -> bool)
    requires forall x :: pq(x) == (p(x) && q(x))
    ensures Where(Where(rows, p), q) == Where(rows, pq)
    decreases |rows|
  {
    if rows != [] {
      var init := rows[..|rows| - 1];
      var last := rows[|rows| - 1];
      WhereWhere(init, p, q, pq);
      if p(last) {
        WhereAppend(Where(init, p), [last], q);
        assert Where([last], q) == if q(last) then [last] else [] by {
          assert [last][..0] == [];
        }
      }
    }
  }

  /** The first row satisfying `p` (`.first()` of a `WHERE` query), if any. */
  function FirstWhere<T(!new)>(rows: seq<T>, p: T -> bool): (r: Option<T>)
    ensures r.None? <==> forall x :: x in rows ==> !p(x)
    ensures r.Some? ==> r.value in rows && p(r.value)
    decreases |rows|
  {
    if rows == [] then None
    else if p(rows[0]) then Some(rows[0])
    else
      var r := FirstWhere(rows[1..], p);
      assert forall x :: x in rows ==> x == rows[0] || x in rows[1..];
      r
  }

  // ---- ORDER BY ----

  predicate SortedBy<T(!new)>(rows: seq<T>, key: T -> int) {
    forall i, j :: 0 <= i < j < |rows| ==> key(rows[i]) <= key(rows[j])
  }

  /** Places `x` after every row whose key is at most its own. */
  function InsertByKey<T(!new)>(sorted: seq<T>, x: T, key: T -> int): (r: seq<T>)
    ensures multiset(r) == multiset(sorted) + multiset{x}
    decreases |sorted|
  {
    if sorted == [] then [x]
    else if key(sorted[|sorted| - 1]) <= key(x) then sorted + [x]
    else
      assert sorted == sorted[..|sorted| - 1] + [sorted[|sorted| - 1]];
      InsertByKey(sorted[..|sorted| - 1], x, key) + [sorted[|sorted| - 1]]
  }

  /** Every key in `rows` is at most `k`. */
  predicate KeysAtMost<T>(rows: seq<T>, key: T -> int, k: int) {
    forall i :: 0 <= i < |rows| ==> key(rows[i]) <= k
  }

  lemma {:induction false} InsertByKeyBound<T(!new)>(sorted: seq<T>, x: T, key: T -> int, k: int)
    requires KeysAtMost(sorted, key, k) && key(x) <= k
    ensures KeysAtMost(InsertByKey(sorted, x, key), key, k)
    decreases |sorted|
  {
    if sorted != [] && key(sorted[|sorted| - 1]) > key(x) {
      InsertByKeyBound(sorted[..|sorted| - 1], x, key, k);
    }
  }

  /** Inserting into an ordered sequence keeps it ordered. */
  lemma {:induction false} InsertByKeySorted<T(!new)>(sorted: seq<T>, x: T, key: T -> int)
    requires SortedBy(sorted, key)
    ensures SortedBy(InsertByKey(sorted, x, key), key)
    decreases |sorted|
  {
    if sorted != [] && key(sorted[|sorted| - 1]) > key(x) {
      var init := sorted[..|sorted| - 1];
      var last := sorted[|sorted| - 1];
      InsertByKeySorted(init, x, key);
      InsertByKeyBound(init, x, key, key(last));
      var r := InsertByKey(init, x, key);
      assert InsertByKey(sorted, x, key) == r + [last];
    }
  }

  /**
   * `ORDER BY key`, as a stable sort: rows with equal keys keep their table order. SQLite leaves
   * the order of ties unspecified; this is one of the orders it may return.
   */
  function SortBy<T(!new)>(rows: seq<T>, key: T -> int): (r: seq<T>)
    decreases |rows|
  {
    if rows == [] then [] else InsertByKey(SortBy(rows[..|rows| - 1], key), rows[|rows| - 1], key)
  }

  /** The result of `ORDER BY` is ordered by the key and holds exactly the rows it was given. */
  lemma {:induction false} SortByOrders<T(!new)>(rows: seq<T>, key: T -> int)
    ensures SortedBy(SortBy(rows, key), key)
    ensures multiset(SortBy(rows, key)) == multiset(rows)
    decreases |rows|
  {
    if rows != [] {
      SortByOrders(rows[..|rows| - 1], key);
      InsertByKeySorted(SortBy(rows[..|rows| - 1], key), rows[|rows| - 1], key);
      assert rows == rows[..|rows| - 1] + [rows[|rows| - 1]];
    }
  }

  /** Rows already in key order come back in table order. */
  lemma {:induction false} SortBySorted<T(!new)>(rows: seq<T>, key: T -> int)
    requires SortedBy(rows, key)
    ensures SortBy(rows, key) == rows
    decreases |rows|
  {
    if rows != [] {
      var init := rows[..|rows| - 1];
      assert SortedBy(init, key);
      SortBySorted(init, key);
      if |init| > 0 {
        assert key(init[|init| - 1]) <= key(rows[|rows| - 1]);
      }
      assert init + [rows[|rows| - 1]] == rows;
    }
  }

  /**
   * `ORDER BY created_at DESC` where `created_at` is stamped at insertion: newest row first.
   * Rows inserted within one timestamp tick tie; this is one of the orders SQLite may return.
   */
  function NewestFirst<T(!new)>(rows: seq<T>): (r: seq<T>)
    ensures |r| == |rows|
    ensures forall i :: 0 <= i < |rows| ==> r[i] == rows[|rows| - 1 - i]
    decreases |rows|
  {
    if rows == [] then [] else [rows[|rows| - 1]] + NewestFirst(rows[..|rows| - 1])
  }

  // ---- Decoding rows that may throw ----

  /** Decodes every row, in order; the first failure is the one reported. */
  function DecodeEach<A, B, E>(rows: seq<A>, f: A -> Result<B, E>): (r: Result<seq<B>, E>)
    ensures r.Ok? <==> forall i :: 0 <= i < |rows| ==> f(rows[i]).Ok?
    ensures r.Ok? ==> |r.value| == |rows| && forall i :: 0 <= i < |rows| ==> f(rows[i]) == Ok(r.value[i])
    decreases |rows|
  {
    if rows == [] then Ok([])
    else
      match DecodeEach(rows[..|rows| - 1], f)
      case Err(e) => Err(e)
      case Ok(init) =>
        match f(rows[|rows| - 1])
        case Err(e) => Err(e)
        case Ok(last) => Ok(init + [last])
  }

  /** Decoding one more row after a prefix that decoded. */
  lemma DecodeEachNext<A, B, E>(rows: seq<A>, i: nat, f: A -> Result<B, E>)
    requires i < |rows| && DecodeEach(rows[..i], f).Ok? && f(rows[i]).Ok?
    ensures DecodeEach(rows[..i + 1], f) == Ok(DecodeEach(rows[..i], f).value + [f(rows[i]).value])
  {
    assert rows[..i + 1][..i] == rows[..i];
  }

  /** The first row that fails to decode decides the error. */
  lemma {:induction false} DecodeEachFirstError<A, B, E>(rows: seq<A>, i: nat, f: A -> Result<B, E>)
    requires i < |rows| && DecodeEach(rows[..i], f).Ok? && f(rows[i]).Err?
    ensures DecodeEach(rows, f) == Err(f(rows[i]).error)
    decreases |rows|
  {
    var init := rows[..|rows| - 1];
    if i == |rows| - 1 {
      assert init == rows[..i];
    } else {
      assert init[..i] == rows[..i] && init[i] == rows[i];
      DecodeEachFirstError(init, i, f);
    }
  }

  /** Decoding a row appended to a prefix that decoded. */
  lemma DecodeEachSnoc<A, B, E>(rows: seq<A>, x: A, f: A -> Result<B, E>)
    requires DecodeEach(rows, f).Ok? && f(x).Ok?
    ensures DecodeEach(rows + [x], f) == Ok(DecodeEach(rows, f).value + [f(x).value])
  {
    assert (rows + [x])[..|rows|] == rows;
  }

  /** Rows that each decode to the matching value decode to all the values. */
  lemma DecodeEachAll<A, B, E>(rows: seq<A>, f: A -> Result<B, E>, values: seq<B>)
    requires |rows| == |values| && forall i :: 0 <= i < |rows| ==> f(rows[i]) == Ok(values[i])
    ensures DecodeEach(rows, f) == Ok(values)
  {
    var r := DecodeEach(rows, f);
    assert r.Ok?;
    assert r.value == values;
  }

  /** A decoder that keeps the sort key: decoding commutes with inserting into sorted order. */
  lemma {:induction false} DecodeEachInsert<A(!new), B(!new), E>(sorted: seq<A>, x: A, f: A -> Result<B, E>,
                                                     ka: A -> int, kb: B -> int)
    requires forall a :: f(a).Ok? ==> kb(f(a).value) == ka(a)
    requires DecodeEach(sorted, f).Ok? && f(x).Ok?
    ensures DecodeEach(InsertByKey(sorted, x, ka), f)
         == Ok(InsertByKey(DecodeEach(sorted, f).value, f(x).value, kb))
    decreases |sorted|
  {
    var values := DecodeEach(sorted, f).value;
    var y := f(x).value;
    if sorted == [] {
      assert values == [];
      assert [x][..0] == [];
      assert DecodeEach([x], f) == Ok([] + [y]);
      assert [] + [y] == [y];
    } else {
      var init := sorted[..|sorted| - 1];
      var last := sorted[|sorted| - 1];
      var v := f(last).value;
      assert sorted == init + [last];
      DecodeEachSnoc(init, last, f);
      var vinit := DecodeEach(init, f).value;
      assert values == vinit + [v];
      assert values[..|values| - 1] == vinit && values[|values| - 1] == v;
      if ka(last) <= ka(x) {
        DecodeEachSnoc(sorted, x, f);
      } else {
        DecodeEachInsert(init, x, f, ka, kb);
        DecodeEachSnoc(InsertByKey(init, x, ka), last, f);
      }
    }
  }

  /** Decoding the rows in key order gives the decoded values in key order. */
  lemma {:induction false} DecodeEachSortBy<A(!new), B(!new), E>(rows: seq<A>, f: A -> Result<B, E>, ka: A -> int, kb: B -> int)
    requires forall a :: f(a).Ok? ==> kb(f(a).value) == ka(a)
    requires DecodeEach(rows, f).Ok?
    ensures DecodeEach(SortBy(rows, ka), f) == Ok(SortBy(DecodeEach(rows, f).value, kb))
    decreases |rows|
  {
    if rows != [] {
      var init := rows[..|rows| - 1];
      var last := rows[|rows| - 1];
      assert rows == init + [last];
      DecodeEachSnoc(init, last, f);
      DecodeEachSortBy(init, f, ka, kb);
      var values := DecodeEach(rows, f).value;
      assert values[..|values| - 1] == DecodeEach(init, f).value;
      DecodeEachInsert(SortBy(init, ka), last, f, ka, kb);
    }
  }

  /** Rows whose key is their position come back from `ORDER BY` as they are. */
  lemma SortByIndexed<T(!new)>(rows: seq<T>, key: T -> int)
    requires forall i :: 0 <= i < |rows| ==> key(rows[i]) == i
    ensures SortBy(rows, key) == rows
  {
    SortBySorted(rows, key);
  }

  /** Appending rows that all match after rows that do not: the selection is the appended rows. */
  lemma WhereFresh<T(!new)>(a: seq<T>, b: seq<T>, p: T -> bool)
    requires forall x :: x in a ==> !p(x)
    requires forall x :: x in b ==> p(x)
    ensures Where(a + b, p) == b
  {
    WhereAppend(a, b, p);
    WhereNone(a, p);
    WhereAll(b, p);
  }

  /** Rows that do not match do not change which row `.first()` finds. */
  lemma {:induction false} FirstWhereAfter<T(!new)>(a: seq<T>, b: seq<T>, p: T -> bool)
    requires forall x :: x in a ==> !p(x)
    ensures FirstWhere(a + b, p) == FirstWhere(b, p)
    decreases |a|
  {
    if a != [] {
      assert (a + b)[0] == a[0] && (a + b)[1..] == a[1..] + b;
      assert forall x :: x in a[1..] ==> x in a;
      FirstWhereAfter(a[1..], b, p);
    } else {
      assert a + b == b;
    }
  }

  /** Appending rows none of which match leaves the selection as it was. */
  lemma WhereAppendNone<T(!new)>(a: seq<T>, b: seq<T>, p: T -> bool)
    requires forall x :: x in b ==> !p(x)
    ensures Where(a + b, p) == Where(a, p)
  {
    WhereAppend(a, b, p);
    WhereNone(b, p);
    assert Where(a, p) + [] == Where(a, p);
  }

  /** Rows appended after the ones searched, none of which match, do not change the first match. */
  lemma {:induction false} FirstWhereBefore<T(!new)>(a: seq<T>, b: seq<T>, p: T -> bool)
    requires forall x :: x in b ==> !p(x)
    ensures FirstWhere(a + b, p) == FirstWhere(a, p)
    decreases |a|
  {
    if a != [] {
      assert (a + b)[0] == a[0] && (a + b)[1..] == a[1..] + b;
      FirstWhereBefore(a[1..], b, p);
    } else {
      assert a + b == b;
    }
  }

  /** Filtering first by a condition every match already meets does not change the first match. */
  lemma {:induction false} FirstWhereWhere<T(!new)>(rows: seq<T>, p: T -> bool, q: T -> bool)
    requires forall x :: q(x) ==> p(x)
    ensures FirstWhere(Where(rows, p), q) == FirstWhere(rows, q)
    decreases |rows|
  {
    if rows != [] {
      var h := rows[0];
      var rest := rows[1..];
      assert rows == [h] + rest;
      WhereAppend([h], rest, p);
      assert [h][..0] == [];
      FirstWhereWhere(rest, p, q);
      if p(h) {
        assert Where([h], p) == [h];
        assert (Where([h], p) + Where(rest, p))[1..] == Where(rest, p);
      } else {
        assert Where([h], p) == [];
        assert Where([h], p) + Where(rest, p) == Where(rest, p);
      }
    }
  }

  /** Two decoders that agree on every row decode the rows alike. */
  lemma {:induction false} DecodeEachSame<A, B, E>(rows: seq<A>, f: A -> Result<B, E>, g: A -> Result<B, E>)
    requires forall i :: 0 <= i < |rows| ==> f(rows[i]) == g(rows[i])
    ensures DecodeEach(rows, f) == DecodeEach(rows, g)
    decreases |rows|
  {
    if rows != [] {
      DecodeEachSame(rows[..|rows| - 1], f, g);
    }
  }

  // ---- Column conventions ----

  /** `value || null` on an optional string: absent and empty both become NULL. */
  function NullIfEmpty(v: Option<string>): (r: Option<string>)
    ensures r.None? <==> v.None? || v.value == ""
    ensures r.Some? ==> r == v
  {
    if v.None? || v.value == "" then None else v
  }

  /** `flag ? 1 : 0`. */
  function FlagColumn(b: bool): (c: int)
    ensures c == 0 || c == 1
  {
    if b then 1 else 0
  }

  /** `column === 1`. */
  function IsOne(c: int): bool {
    c == 1
  }

  /** SQL `NOT c` on a non-NULL integer: 1 for 0, 0 for anything else. */
  function SqlNot(c: int): (r: int)
    ensures r == 0 || r == 1
    ensures (r == 1) <==> c == 0
  {
    if c == 0 then 1 else 0
  }

  /** A boolean written as 0/1 reads back as itself. */
  lemma FlagRoundTrip(b: bool)
    ensures IsOne(FlagColumn(b)) == b
  {
  }

  /** On a 0/1 column, `NOT` flips what `=== 1` reads. */
  lemma SqlNotFlips(c: int)
    requires c == 0 || c == 1
    ensures IsOne(SqlNot(c)) == !IsOne(c)
  {
  }

  // ---- Row ids ----

  /**
   * The id handed out n-th: stands in for `crypto.randomUUID()`, whose only property used here is
   * that it differs from every id handed out before.
   */
  function IdText(n: nat): string {
    Decimal.NatToString(n)
  }

  /** `id` is one of the first `next` ids handed out. */
  predicate Issued(id: string, next: nat) {
    |id| > 0 && Decimal.AllDigits(id) && Decimal.DigitsValue(id) < next
  }

  /** The n-th id was issued before n+1 ids had been handed out, and not before n had. */
  lemma IdTextIssued(n: nat, next: nat)
    ensures Issued(IdText(n), next) <==> n < next
  {
    Decimal.NatToStringRoundTrip(n);
  }

  /** Distinct counters give distinct ids. */
  lemma IdTextInjective(a: nat, b: nat)
    requires a != b
    ensures IdText(a) != IdText(b)
  {
    Decimal.NatToStringRoundTrip(a);
    Decimal.NatToStringRoundTrip(b);
  }
}
