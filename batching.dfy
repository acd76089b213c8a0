/** The batch accumulator: rows appended to per-key column lists, flushed in batches of 100. */
module Batching {
  import opened Values

  /** The rows between two flushes. */
  const FlushInterval: nat := 100

  /** `data_table`: column name to the values appended so far. */
  type Table = map<string, seq<Value>>

  function Column(t: Table, k: string): seq<Value>
  {
    if k in t then t[k] else []
  }

  /** `for k, v in row.items(): data_table.setdefault(k, []).append(v)`. */
  function Appended(t: Table, row: Dict): Table
  {
    if row == [] then t
    else
      var n := |row| - 1;
      var acc := Appended(t, row[..n]);
      acc[row[n].0 := Column(acc, row[n].0) + [row[n].1]]
  }

  /** The columns of a run of rows: each row appended in turn to an empty table. */
  function Columns(rows: seq<Dict>): Table
  {
    if rows == [] then map[] else Appended(Columns(rows[..|rows| - 1]), rows[|rows| - 1])
  }

  /** The values of key `k`, in row order, of the rows that have it; rows without it
      contribute nothing (no null padding). */
  function Present(rows: seq<Dict>, k: string): seq<Value>
  {
    if rows == [] then []
    else
      var n := |rows| - 1;
      Present(rows[..n], k) + (if k in Keys(rows[n]) then [Get(rows[n], k)] else [])
  }

  /** How many of the rows have key `k`. */
  function CountWith(rows: seq<Dict>, k: string): nat
  {
    if rows == [] then 0 else CountWith(rows[..|rows| - 1], k) + (if k in Keys(rows[|rows| - 1]) then 1 else 0)
  }

  /** Appending a row adds its keys as columns and one value to each of their columns. */
  lemma {:induction false} AppendedSpec(t: Table, row: Dict)
    requires Distinct(row)
    ensures Appended(t, row).Keys == t.Keys + Keys(row)
    ensures forall k :: Column(Appended(t, row), k)
                        == Column(t, k) + (if k in Keys(row) then [Get(row, k)] else [])
  {
    if row != [] {
      var n := |row| - 1;
      assert Distinct(row[..n]);
      AppendedSpec(t, row[..n]);
      KeysAt(row[..n], row[n].0);
    }
  }

  /** Appending a row adds its keys as columns, whatever its shape. */
  lemma {:induction false} AppendedKeys(t: Table, row: Dict)
    ensures Appended(t, row).Keys == t.Keys + Keys(row)
  {
    if row != [] {
      AppendedKeys(t, row[..|row| - 1]);
    }
  }

  /** Rows whose last one has a key make a table with at least one column. */
  lemma ColumnsNonEmpty(rows: seq<Dict>, k: string)
    requires rows != [] && k in Keys(rows[|rows| - 1])
    ensures |Columns(rows)| > 0
  {
    var n := |rows| - 1;
    AppendedKeys(Columns(rows[..n]), rows[n]);
    assert k in Columns(rows);
  }

  /** Every column of a run of rows lists exactly the present values of its key, in row order. */
  lemma {:induction false} ColumnsSpec(rows: seq<Dict>)
    requires forall i :: 0 <= i < |rows| ==> Distinct(rows[i])
    ensures forall k :: k in Columns(rows) <==> CountWith(rows, k) > 0
    ensures forall k :: Column(Columns(rows), k) == Present(rows, k)
  {
    if rows != [] {
      var n := |rows| - 1;
      ColumnsSpec(rows[..n]);
      AppendedSpec(Columns(rows[..n]), rows[n]);
    }
  }

  /** A column is as long as the number of rows that have its key. */
  lemma {:induction false} PresentLength(rows: seq<Dict>, k: string)
    ensures |Present(rows, k)| == CountWith(rows, k)
    ensures (forall i :: 0 <= i < |rows| ==> k in Keys(rows[i])) ==> CountWith(rows, k) == |rows|
  {
    if rows != [] {
      PresentLength(rows[..|rows| - 1], k);
    }
  }

  /** The loop body of the batch accumulator that files one row into the table. */
  method AppendRow(t: Table, row: Dict) returns (out: Table)
    ensures out == Appended(t, row)
  {
    out := t;
    for i := 0 to |row|
      invariant out == Appended(t, row[..i])
    {
      var (k, v) := row[i];
      assert row[..i + 1][..i] == row[..i];
      if k !in out {
        out := out[k := []];
      }
      out := out[k := out[k] + [v]];
    }
    assert row[..|row|] == row;
  }

  /** The batches a run of rows is written in: full batches of FlushInterval rows and,
      when the count is not a multiple of it, one final shorter batch. */
  function Chunks<T>(rows: seq<T>): seq<seq<T>>
    decreases |rows|
  {
    if |rows| <= FlushInterval then (if rows == [] then [] else [rows])
    else [rows[..FlushInterval]] + Chunks(rows[FlushInterval..])
  }

  function Joined<T>(chunks: seq<seq<T>>): seq<T>
  {
    if chunks == [] then [] else chunks[0] + Joined(chunks[1..])
  }

  /** ceil(R / 100) batches, every one but the last holding exactly 100 rows, the last one
      holding the remainder (100 when R is a multiple of 100), and together exactly the rows
      in order. */
  lemma {:induction false} ChunksShape<T>(rows: seq<T>)
    ensures |Chunks(rows)| == (|rows| + FlushInterval - 1) / FlushInterval
    ensures forall i :: 0 <= i < |Chunks(rows)| - 1 ==> |Chunks(rows)[i]| == FlushInterval
    ensures rows != [] ==> |Chunks(rows)[|Chunks(rows)| - 1]|
                           == (if |rows| % FlushInterval == 0 then FlushInterval else |rows| % FlushInterval)
    ensures Joined(Chunks(rows)) == rows
    decreases |rows|
  {
    if |rows| > FlushInterval {
      var rest := rows[FlushInterval..];
      ShiftByInterval(|rows|);
      ChunksShape(rest);
      assert Chunks(rows) == [rows[..FlushInterval]] + Chunks(rest);
      assert Chunks(rows)[1..] == Chunks(rest);
      assert rows == rows[..FlushInterval] + rest;
    } else if rows != [] {
      assert Chunks(rows) == [rows];
      assert Joined(Chunks(rows)) == rows + Joined([]);
    }
  }

  /** Removing one batch's worth of rows removes one batch and keeps the remainder. */
  lemma ShiftByInterval(n: nat)
    requires n >= FlushInterval
    ensures (n - FlushInterval + FlushInterval - 1) / FlushInterval + 1 == (n + FlushInterval - 1) / FlushInterval
    ensures (n - FlushInterval) % FlushInterval == n % FlushInterval
  {
  }

  /** Splitting after a multiple of FlushInterval rows splits the batches there. */
  lemma {:induction false} ChunksAppend<T>(a: seq<T>, b: seq<T>)
    requires |a| % FlushInterval == 0
    ensures Chunks(a + b) == Chunks(a) + Chunks(b)
    decreases |a|
  {
    if a != [] {
      assert |a| >= FlushInterval;
      var c := a + b;
      if |a| == FlushInterval {
        if b == [] {
          assert c == a;
        } else {
          assert c[..FlushInterval] == a && c[FlushInterval..] == b;
        }
      } else {
        ChunksAppend(a[FlushInterval..], b);
        assert c[..FlushInterval] == a[..FlushInterval];
        assert c[FlushInterval..] == a[FlushInterval..] + b;
      }
    } else {
      assert a + b == b;
    }
  }

  /** After a multiple of FlushInterval rows, a run of at most FlushInterval more rows is
      one more batch. */
  lemma ChunksStep<T>(a: seq<T>, b: seq<T>)
    requires |a| % FlushInterval == 0 && 0 < |b| <= FlushInterval
    ensures Chunks(a + b) == Chunks(a) + [b]
  {
    ChunksAppend(a, b);
  }

  /** The rows after the last multiple of FlushInterval: those the final flush writes. */
  function Leftover<T>(rows: seq<T>): (r: seq<T>)
    ensures |r| == |rows| % FlushInterval
    ensures rows == rows[..|rows| - |r|] + r
  {
    rows[|rows| - |rows| % FlushInterval..]
  }

  /** The leftover rows are the last batch when the count is not a multiple of
      FlushInterval, and there are none otherwise. */
  lemma LeftoverIsLastBatch<T>(rows: seq<T>)
    ensures |rows| % FlushInterval == 0 <==> Leftover(rows) == []
    ensures |rows| % FlushInterval != 0 ==> Leftover(rows) == Chunks(rows)[|Chunks(rows)| - 1]
  {
    var l := Leftover(rows);
    if l != [] {
      var n := |rows| - |l|;
      assert n == FlushInterval * (|rows| / FlushInterval);
      assert (FlushInterval * (|rows| / FlushInterval)) % FlushInterval == 0;
      ChunksStep(rows[..n], l);
    }
  }

  /** After a multiple of FlushInterval rows, fewer than FlushInterval more rows are the
      leftover. */
  lemma LeftoverAfter<T>(a: seq<T>, b: seq<T>)
    requires |a| % FlushInterval == 0 && |b| < FlushInterval
    ensures Leftover(a + b) == b
  {
    var k := |a| / FlushInterval;
    assert |a| == FlushInterval * k;
    assert |a + b| == FlushInterval * k + |b|;
    assert |a + b| % FlushInterval == |b|;
    assert (a + b)[|a|..] == b;
  }
}
