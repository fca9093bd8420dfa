/**
 * `SELECT ... WHERE <filter> ORDER BY <key> DESC` over one table held as a
 * map from primary key to row. Rows with equal sort keys may come out in
 * any order, as in SQL.
 */
module Query {

  /** The rows are in non-increasing order of `key`. */
  predicate SortedDesc<T>(rows: seq<T>, key: T -> int) {
    forall i, j :: 0 <= i < j < |rows| ==> key(rows[i]) >= key(rows[j])
  }

  /** No primary key occurs twice. */
  predicate NoDuplicates(ids: seq<int>) {
    forall i, j :: 0 <= i < j < |ids| ==> ids[i] != ids[j]
  }

  /**
   * `rows` answers the query, `ids` being their primary keys: every row of
   * `table` that passes `keep` occurs exactly once, nothing else occurs, and
   * the rows are ordered by `key` from largest to smallest.
   */
  ghost predicate Answers<T>(rows: seq<T>, ids: seq<int>, table: map<int, T>, keep: T -> bool, key: T -> int) {
    && |ids| == |rows|
    && (forall i :: 0 <= i < |ids| ==> ids[i] in table && table[ids[i]] == rows[i])
    && (forall k :: k in ids <==> k in table && keep(table[k]))
    && NoDuplicates(ids)
    && SortedDesc(rows, key)
  }

  /** `rows` is the result of the query. */
  ghost predicate Selected<T>(rows: seq<T>, table: map<int, T>, keep: T -> bool, key: T -> int) {
    exists ids :: Answers(rows, ids, table, keep, key)
  }

  /** The first row of a non-empty answer is a stored row that passes the filter. */
  lemma FirstAnswerKept<T>(rows: seq<T>, ids: seq<int>, table: map<int, T>, keep: T -> bool, key: T -> int)
    requires Answers(rows, ids, table, keep, key) && rows != []
    ensures ids[0] in table && table[ids[0]] == rows[0] && keep(rows[0])
  {
    var k := ids[0];
    assert k in ids;
    assert table[k] == rows[0];
  }

  /** Every stored row that passes the filter is in the answer, so the answer is not empty. */
  lemma KeptIsAnswered<T>(rows: seq<T>, ids: seq<int>, table: map<int, T>, keep: T -> bool, key: T -> int, k: int)
    requires Answers(rows, ids, table, keep, key) && k in table && keep(table[k])
    ensures k in ids && rows != []
  {
    assert |ids| == |rows|;
  }

  /** Where a row with sort key `k` goes in a sorted result: after every larger key. */
  function InsertionPoint<T>(k: int, rows: seq<T>, key: T -> int): (p: nat)
    requires SortedDesc(rows, key)
    ensures p <= |rows|
    ensures forall i :: 0 <= i < p ==> key(rows[i]) > k
    ensures forall i :: p <= i < |rows| ==> key(rows[i]) <= k
  {
    if rows == [] || key(rows[0]) <= k then 0 else 1 + InsertionPoint(k, rows[1..], key)
  }

  /** Inserting at the insertion point keeps the result sorted. */
  lemma InsertSorted<T>(x: T, rows: seq<T>, key: T -> int)
    requires SortedDesc(rows, key)
    ensures SortedDesc(rows[..InsertionPoint(key(x), rows, key)] + [x] + rows[InsertionPoint(key(x), rows, key)..], key)
  {
    var p := InsertionPoint(key(x), rows, key);
    var r := rows[..p] + [x] + rows[p..];
    forall i, j | 0 <= i < j < |r|
      ensures key(r[i]) >= key(r[j])
    {
      if j < p {
        assert r[i] == rows[i] && r[j] == rows[j];
      } else if j == p {
        assert r[i] == rows[i];
      } else if i < p {
        assert r[i] == rows[i] && r[j] == rows[j - 1];
      } else if i == p {
        assert r[j] == rows[j - 1];
      } else {
        assert r[i] == rows[i - 1] && r[j] == rows[j - 1];
      }
    }
  }

  /**
   * `rows` answers the query over the keys in `seen` so far: the loop
   * invariant of `Select`.
   */
  ghost predicate Partial<T>(rows: seq<T>, ids: seq<int>, table: map<int, T>, keep: T -> bool, key: T -> int, seen: set<int>) {
    && |ids| == |rows|
    && (forall i :: 0 <= i < |ids| ==> ids[i] in table && table[ids[i]] == rows[i])
    && (forall k :: k in ids <==> k in seen && k in table && keep(table[k]))
    && NoDuplicates(ids)
    && SortedDesc(rows, key)
  }

  /** A row that fails the filter leaves the partial answer as it is. */
  lemma PartialSkip<T>(rows: seq<T>, ids: seq<int>, table: map<int, T>, keep: T -> bool, key: T -> int, seen: set<int>, k: int)
    requires Partial(rows, ids, table, keep, key, seen) && k in table && !keep(table[k])
    ensures Partial(rows, ids, table, keep, key, seen + {k})
  {
    forall j
      ensures j in ids <==> j in seen + {k} && j in table && keep(table[j])
    {
      if j == k {
        assert j !in ids;
      }
    }
  }

  /** A new row that passes the filter goes in at its insertion point. */
  lemma PartialInsert<T>(rows: seq<T>, ids: seq<int>, table: map<int, T>, keep: T -> bool, key: T -> int, seen: set<int>, k: int)
    requires Partial(rows, ids, table, keep, key, seen) && k in table && k !in seen && keep(table[k])
    ensures var p := InsertionPoint(key(table[k]), rows, key);
      Partial(rows[..p] + [table[k]] + rows[p..], ids[..p] + [k] + ids[p..], table, keep, key, seen + {k})
  {
    var p := InsertionPoint(key(table[k]), rows, key);
    InsertSorted(table[k], rows, key);
    InsertKey(k, ids, p);
    InsertPair(k, ids, rows, p, table);
  }

  /** Runs the query: one pass over the table, keeping the answer sorted. */
  method Select<T>(table: map<int, T>, keep: T -> bool, key: T -> int) returns (rows: seq<T>)
    ensures Selected(rows, table, keep, key)
  {
    rows := [];
    var ids: seq<int> := [];
    var todo := table.Keys;
    ghost var seen: set<int> := {};
    while todo != {}
      invariant todo + seen == table.Keys && todo !! seen
      invariant Partial(rows, ids, table, keep, key, seen)
      decreases todo
    {
      var k := Pick(todo);
      if keep(table[k]) {
        var p := InsertionPoint(key(table[k]), rows, key);
        PartialInsert(rows, ids, table, keep, key, seen, k);
        rows := rows[..p] + [table[k]] + rows[p..];
        ids := ids[..p] + [k] + ids[p..];
      } else {
        PartialSkip(rows, ids, table, keep, key, seen, k);
      }
      todo := todo - {k};
      seen := seen + {k};
    }
    PartialComplete(rows, ids, table, keep, key, seen);
  }

  /** Once every key has been seen, the partial answer is the answer. */
  lemma PartialComplete<T>(rows: seq<T>, ids: seq<int>, table: map<int, T>, keep: T -> bool, key: T -> int, seen: set<int>)
    requires Partial(rows, ids, table, keep, key, seen) && seen == table.Keys
    ensures Answers(rows, ids, table, keep, key)
  {
  }

  /** Inserting a key that is not yet present keeps the keys distinct. */
  lemma InsertKey(k: int, ids: seq<int>, p: nat)
    requires p <= |ids| && k !in ids && NoDuplicates(ids)
    ensures NoDuplicates(ids[..p] + [k] + ids[p..])
    ensures forall j :: j in ids[..p] + [k] + ids[p..] <==> j in ids || j == k
  {
    var r := ids[..p] + [k] + ids[p..];
    assert ids == ids[..p] + ids[p..];
    forall i, j | 0 <= i < j < |r|
      ensures r[i] != r[j]
    {
      if j < p {
        assert r[i] == ids[i] && r[j] == ids[j];
      } else if j == p {
        assert r[i] == ids[i];
      } else if i < p {
        assert r[i] == ids[i] && r[j] == ids[j - 1];
      } else if i == p {
        assert r[j] == ids[j - 1];
      } else {
        assert r[i] == ids[i - 1] && r[j] == ids[j - 1];
      }
    }
  }

  /** Inserting a key and its row at the same place keeps keys and rows paired. */
  lemma InsertPair<T>(k: int, ids: seq<int>, rows: seq<T>, p: nat, table: map<int, T>)
    requires p <= |ids| == |rows| && k in table
    requires forall i :: 0 <= i < |ids| ==> ids[i] in table && table[ids[i]] == rows[i]
    ensures var ids', rows' := ids[..p] + [k] + ids[p..], rows[..p] + [table[k]] + rows[p..];
      |ids'| == |rows'| && forall i :: 0 <= i < |ids'| ==> ids'[i] in table && table[ids'[i]] == rows'[i]
  {
    var ids', rows' := ids[..p] + [k] + ids[p..], rows[..p] + [table[k]] + rows[p..];
    forall i | 0 <= i < |ids'|
      ensures ids'[i] in table && table[ids'[i]] == rows'[i]
    {
      if i < p {
        assert ids'[i] == ids[i] && rows'[i] == rows[i];
      } else if i > p {
        assert ids'[i] == ids[i - 1] && rows'[i] == rows[i - 1];
      }
    }
  }

  /** Some element of a non-empty set of keys. */
  method Pick(s: set<int>) returns (k: int)
    requires s != {}
    ensures k in s
  {
    assert (forall j :: j !in s) ==> s == {};
    k :| k in s;
  }
}
