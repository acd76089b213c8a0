/** The conversion driver: the scene walk, the sample chains, the global metrics counters
    and the batched writes to the destination dataset. */
module Converter {
  import opened Values
  import opened Metrics
  import opened Flatten
  import opened Batching
  import opened Schema

  /** One `lance.write_dataset(table, lance_root, mode="append")`: the batch's columns and the
      schema they are converted with. */
  datatype Write = Write(schema: seq<Field>, columns: Table)

  function Writes(schema: seq<Field>, chunks: seq<seq<Dict>>): seq<Write>
  {
    seq(|chunks|, i requires 0 <= i < |chunks| => Write(schema, Columns(chunks[i])))
  }

  // ---------------------------------------------------------------------------
  // The sample chains of the scenes.

  ghost predicate WfTokens(db: Db, root: string, files: Files, chain: seq<string>)
  {
    forall j :: 0 <= j < |chain| ==> WfSample(db, root, files, chain[j])
  }

  ghost predicate WfChains(db: Db, root: string, files: Files, chains: seq<seq<string>>)
  {
    forall i :: 0 <= i < |chains| ==> WfTokens(db, root, files, chains[i])
  }

  /** `chain` is the whole sample chain starting at `first`: followed through each sample's
      `next` token, it ends at the empty token. A cyclic chain has no such list. */
  ghost predicate ValidChain(db: Db, root: string, files: Files, first: string, chain: seq<string>)
    decreases |chain|
  {
    if chain == [] then first == ""
    else
      && first == chain[0] && first != "" && WfSample(db, root, files, first)
      && ValidChain(db, root, files, NextToken(db, root, files, first), chain[1..])
  }

  /** Every sample of a valid chain is well formed. */
  lemma {:induction false} ValidChainTokens(db: Db, root: string, files: Files, first: string, chain: seq<string>)
    requires ValidChain(db, root, files, first, chain)
    ensures WfTokens(db, root, files, chain)
    decreases |chain|
  {
    if chain != [] {
      ValidChainTokens(db, root, files, NextToken(db, root, files, first), chain[1..]);
      forall j | 0 <= j < |chain| ensures WfSample(db, root, files, chain[j]) {
        if j > 0 {
          assert chain[j] == chain[1..][j - 1];
        }
      }
    }
  }

  /** The link from a non-empty token at position `j` of a valid chain to the next one. */
  lemma ChainLink(db: Db, root: string, files: Files, token: string, chain: seq<string>, j: nat)
    requires j <= |chain| && ValidChain(db, root, files, token, chain[j..]) && token != ""
    ensures j < |chain| && token == chain[j] && WfSample(db, root, files, token)
    ensures ValidChain(db, root, files, NextToken(db, root, files, token), chain[j + 1..])
  {
    assert chain[j..][1..] == chain[j + 1..];
  }

  function FirstToken(scene: Dict): string
    requires StrField(scene, "first_sample_token")
  {
    TokenOf(scene, "first_sample_token")
  }

  /** `chains[i]` is the sample chain of `scenes[i]`. */
  ghost predicate ValidScenes(db: Db, root: string, files: Files, scenes: seq<Dict>, chains: seq<seq<string>>)
  {
    && |chains| == |scenes|
    && forall i :: 0 <= i < |scenes| ==>
         StrField(scenes[i], "first_sample_token") && ValidChain(db, root, files, FirstToken(scenes[i]), chains[i])
  }

  lemma ValidScenesWf(db: Db, root: string, files: Files, scenes: seq<Dict>, chains: seq<seq<string>>)
    requires ValidScenes(db, root, files, scenes, chains)
    ensures WfChains(db, root, files, chains)
  {
    forall i | 0 <= i < |chains| ensures WfTokens(db, root, files, chains[i]) {
      ValidChainTokens(db, root, files, FirstToken(scenes[i]), chains[i]);
    }
  }

  /** The rows of one chain, in chain order. */
  ghost function ChainRows(db: Db, root: string, files: Files, chain: seq<string>): seq<Dict>
    requires WfTokens(db, root, files, chain)
  {
    if chain == [] then []
    else ChainRows(db, root, files, chain[..|chain| - 1]) + [SampleRow(db, root, files, chain[|chain| - 1])]
  }

  /** The rows of the whole run: scene order, then chain order. */
  ghost function AllRows(db: Db, root: string, files: Files, chains: seq<seq<string>>): seq<Dict>
    requires WfChains(db, root, files, chains)
  {
    if chains == [] then []
    else AllRows(db, root, files, chains[..|chains| - 1]) + ChainRows(db, root, files, chains[|chains| - 1])
  }

  /** The counters after walking one chain: per sample, "sample" then the file counters. */
  ghost function ChainMetrics(m: Counters, db: Db, root: string, files: Files, chain: seq<string>): Counters
    requires WfTokens(db, root, files, chain)
  {
    if chain == [] then m
    else
      var n := |chain| - 1;
      SampleFileMetrics(Bump(ChainMetrics(m, db, root, files, chain[..n]), "sample", 1), db, root, files, chain[n])
  }

  /** The counters after walking the scenes: per scene, "scene" then its chain. */
  ghost function ScenesMetrics(m: Counters, db: Db, root: string, files: Files, chains: seq<seq<string>>): Counters
    requires WfChains(db, root, files, chains)
  {
    if chains == [] then m
    else
      var n := |chains| - 1;
      ChainMetrics(Bump(ScenesMetrics(m, db, root, files, chains[..n]), "scene", 1), db, root, files, chains[n])
  }

  function TotalSamples(chains: seq<seq<string>>): nat
  {
    if chains == [] then 0 else TotalSamples(chains[..|chains| - 1]) + |chains[|chains| - 1]|
  }

  /** The number of sensor files the samples of a chain read. */
  ghost function ChainSensors(db: Db, root: string, files: Files, chain: seq<string>): nat
    requires WfTokens(db, root, files, chain)
  {
    if chain == [] then 0
    else ChainSensors(db, root, files, chain[..|chain| - 1]) + |SensorsOf(db, root, files, chain[|chain| - 1])|
  }

  ghost function TotalSensors(db: Db, root: string, files: Files, chains: seq<seq<string>>): nat
    requires WfChains(db, root, files, chains)
  {
    if chains == [] then 0
    else TotalSensors(db, root, files, chains[..|chains| - 1]) + ChainSensors(db, root, files, chains[|chains| - 1])
  }

  /** The total byte length of the sensor files the samples of a chain read. */
  ghost function ChainBytes(db: Db, root: string, files: Files, chain: seq<string>): nat
    requires WfTokens(db, root, files, chain)
  {
    if chain == [] then 0
    else
      var n := |chain| - 1;
      ChainBytes(db, root, files, chain[..n]) + SensorBytes(db, root, files, SensorsOf(db, root, files, chain[n]))
  }

  ghost function TotalBytes(db: Db, root: string, files: Files, chains: seq<seq<string>>): nat
    requires WfChains(db, root, files, chains)
  {
    if chains == [] then 0
    else TotalBytes(db, root, files, chains[..|chains| - 1]) + ChainBytes(db, root, files, chains[|chains| - 1])
  }

  /** What the sensor files of a chain's samples add to counter `key`. */
  ghost function ChainFiles(db: Db, root: string, files: Files, chain: seq<string>, key: string): nat
    requires WfTokens(db, root, files, chain)
  {
    if chain == [] then 0
    else
      var n := |chain| - 1;
      ChainFiles(db, root, files, chain[..n], key) + SensorsDelta(db, root, files, SensorsOf(db, root, files, chain[n]), key)
  }

  ghost function TotalFiles(db: Db, root: string, files: Files, chains: seq<seq<string>>, key: string): nat
    requires WfChains(db, root, files, chains)
  {
    if chains == [] then 0
    else TotalFiles(db, root, files, chains[..|chains| - 1], key) + ChainFiles(db, root, files, chains[|chains| - 1], key)
  }

  /** The schema `compute_schema` returns for the first sample of the first scene. */
  ghost function RunSchema(db: Db, root: string, files: Files, first: string, algo: string, level: string): seq<Field>
    requires WfSample(db, root, files, first)
  {
    TagFields(InferSchema(SampleRow(db, root, files, first)), algo, level)
  }

  // ---------------------------------------------------------------------------
  // Properties of the walk.

  /** One pass of the sample loop in terms of the chain: the counters and rows after sample
      `j` are those of the chain's first `j + 1` samples. */
  lemma WalkStep(m0: Counters, db: Db, root: string, files: Files, chain: seq<string>, j: nat,
                 rows0: seq<Dict>, mBefore: Counters, mAfter: Counters, before: seq<Dict>, after: seq<Dict>)
    requires WfTokens(db, root, files, chain) && j < |chain| && WfTokens(db, root, files, chain[..j])
    requires mBefore == ChainMetrics(m0, db, root, files, chain[..j])
    requires before == rows0 + ChainRows(db, root, files, chain[..j])
    requires mAfter == SampleFileMetrics(Bump(mBefore, "sample", 1), db, root, files, chain[j])
    requires after == before + [SampleRow(db, root, files, chain[j])]
    ensures WfTokens(db, root, files, chain[..j + 1])
    ensures mAfter == ChainMetrics(m0, db, root, files, chain[..j + 1])
    ensures after == rows0 + ChainRows(db, root, files, chain[..j + 1])
  {
    ChainStep(m0, db, root, files, chain, j);
    assert (rows0 + ChainRows(db, root, files, chain[..j])) + [SampleRow(db, root, files, chain[j])]
           == rows0 + (ChainRows(db, root, files, chain[..j]) + [SampleRow(db, root, files, chain[j])]);
  }

  /** One more sample of a chain: its counter updates and its row on top of the earlier ones. */
  lemma ChainStep(m: Counters, db: Db, root: string, files: Files, chain: seq<string>, j: nat)
    requires WfTokens(db, root, files, chain) && j < |chain|
    ensures WfTokens(db, root, files, chain[..j]) && WfTokens(db, root, files, chain[..j + 1])
    ensures WfSample(db, root, files, chain[j])
    ensures ChainMetrics(m, db, root, files, chain[..j + 1])
            == SampleFileMetrics(Bump(ChainMetrics(m, db, root, files, chain[..j]), "sample", 1), db, root, files, chain[j])
    ensures ChainRows(db, root, files, chain[..j + 1])
            == ChainRows(db, root, files, chain[..j]) + [SampleRow(db, root, files, chain[j])]
  {
    assert chain[..j + 1][..j] == chain[..j];
  }

  /** One more scene: its counter update and its chain on top of the earlier scenes. */
  lemma ScenesStep(m: Counters, db: Db, root: string, files: Files, chains: seq<seq<string>>, s: nat)
    requires WfChains(db, root, files, chains) && s < |chains|
    ensures WfChains(db, root, files, chains[..s]) && WfChains(db, root, files, chains[..s + 1])
    ensures WfTokens(db, root, files, chains[s])
    ensures ScenesMetrics(m, db, root, files, chains[..s + 1])
            == ChainMetrics(Bump(ScenesMetrics(m, db, root, files, chains[..s]), "scene", 1), db, root, files, chains[s])
    ensures AllRows(db, root, files, chains[..s + 1])
            == AllRows(db, root, files, chains[..s]) + ChainRows(db, root, files, chains[s])
  {
    assert chains[..s + 1][..s] == chains[..s];
  }

  /** Walking a chain counts each of its samples once and each of their sensor files once,
      and does not touch the scene counter. */
  lemma {:induction false} ChainMetricsCounts(m: Counters, db: Db, root: string, files: Files, chain: seq<string>)
    requires WfTokens(db, root, files, chain)
    ensures var r := ChainMetrics(m, db, root, files, chain);
      && Count(r, "sample") == Count(m, "sample") + |chain|
      && Count(r, "scene") == Count(m, "scene")
      && Count(r, "filecount") == Count(m, "filecount") + ChainSensors(db, root, files, chain)
      && Count(r, "filesize") == Count(m, "filesize") + ChainBytes(db, root, files, chain)
  {
    if chain != [] {
      var n := |chain| - 1;
      TokensPrefix(db, root, files, chain, n);
      ChainMetricsCounts(m, db, root, files, chain[..n]);
      WalkCountersApart();
    }
  }

  /** After the walk, "scene" grew by the number of scenes, "sample" by the total length of the
      chains and "filecount" by the number of sensor files of all their samples. */
  lemma {:induction false} ScenesMetricsCounts(m: Counters, db: Db, root: string, files: Files, chains: seq<seq<string>>)
    requires WfChains(db, root, files, chains)
    ensures var r := ScenesMetrics(m, db, root, files, chains);
      && Count(r, "scene") == Count(m, "scene") + |chains|
      && Count(r, "sample") == Count(m, "sample") + TotalSamples(chains)
      && Count(r, "filecount") == Count(m, "filecount") + TotalSensors(db, root, files, chains)
      && Count(r, "filesize") == Count(m, "filesize") + TotalBytes(db, root, files, chains)
  {
    if chains != [] {
      var n := |chains| - 1;
      ScenesMetricsCounts(m, db, root, files, chains[..n]);
      ChainMetricsCounts(Bump(ScenesMetrics(m, db, root, files, chains[..n]), "scene", 1), db, root, files, chains[n]);
    }
  }

  /** A chain has one row per sample, and every row has distinct keys and carries the
      `sample_annotations` column. */
  lemma {:induction false} ChainRowsShape(db: Db, root: string, files: Files, chain: seq<string>)
    requires WfTokens(db, root, files, chain)
    ensures |ChainRows(db, root, files, chain)| == |chain|
    ensures forall j :: 0 <= j < |chain| ==>
              Distinct(ChainRows(db, root, files, chain)[j])
              && "sample_annotations" in Keys(ChainRows(db, root, files, chain)[j])
  {
    if chain != [] {
      var n := |chain| - 1;
      TokensPrefix(db, root, files, chain, n);
      ChainRowsShape(db, root, files, chain[..n]);
      var prev := ChainRows(db, root, files, chain[..n]);
      var last := SampleRow(db, root, files, chain[n]);
      SampleRowShape(db, root, files, chain[n]);
      assert ChainRows(db, root, files, chain) == prev + [last];
      forall j | 0 <= j < |chain|
        ensures Distinct((prev + [last])[j]) && "sample_annotations" in Keys((prev + [last])[j])
      {
        if j < n {
          assert (prev + [last])[j] == prev[j];
        } else {
          assert j == n;
        }
      }
    }
  }

  lemma TokensPrefix(db: Db, root: string, files: Files, chain: seq<string>, n: nat)
    requires WfTokens(db, root, files, chain) && n <= |chain|
    ensures WfTokens(db, root, files, chain[..n])
  {
    forall j | 0 <= j < n ensures WfSample(db, root, files, chain[..n][j]) {
      assert chain[..n][j] == chain[j];
    }
  }

  /** Every row has distinct keys and carries the `sample_annotations` column. */
  ghost predicate Annotated(rows: seq<Dict>)
  {
    forall i :: 0 <= i < |rows| ==> Distinct(rows[i]) && "sample_annotations" in Keys(rows[i])
  }

  lemma AnnotatedConcat(a: seq<Dict>, b: seq<Dict>)
    requires Annotated(a) && Annotated(b)
    ensures Annotated(a + b)
  {
    forall i | 0 <= i < |a + b| ensures Distinct((a + b)[i]) && "sample_annotations" in Keys((a + b)[i]) {
      if i < |a| {
        assert (a + b)[i] == a[i];
      } else {
        assert (a + b)[i] == b[i - |a|];
      }
    }
  }

  /** Every row of the run has distinct keys and carries the `sample_annotations` column. */
  lemma {:induction false} RowsHaveAnnotations(db: Db, root: string, files: Files, chains: seq<seq<string>>)
    requires WfChains(db, root, files, chains)
    ensures forall i :: 0 <= i < |AllRows(db, root, files, chains)| ==>
              Distinct(AllRows(db, root, files, chains)[i])
              && "sample_annotations" in Keys(AllRows(db, root, files, chains)[i])
  {
    if chains != [] {
      var n := |chains| - 1;
      RowsHaveAnnotations(db, root, files, chains[..n]);
      var prev := AllRows(db, root, files, chains[..n]);
      var last := ChainRows(db, root, files, chains[n]);
      ChainRowsShape(db, root, files, chains[n]);
      assert Annotated(prev) && Annotated(last);
      AnnotatedConcat(prev, last);
      assert AllRows(db, root, files, chains) == prev + last;
    }
  }

  /** One row per sample of every chain. */
  lemma {:induction false} AllRowsLength(db: Db, root: string, files: Files, chains: seq<seq<string>>)
    requires WfChains(db, root, files, chains)
    ensures |AllRows(db, root, files, chains)| == TotalSamples(chains)
  {
    if chains != [] {
      AllRowsLength(db, root, files, chains[..|chains| - 1]);
      ChainRowsShape(db, root, files, chains[|chains| - 1]);
    }
  }

  /** Each write holds one column per key of its rows, and its `sample_annotations` column
      has one entry per row of the batch. */
  lemma BatchRowCounts(schema: seq<Field>, rows: seq<Dict>)
    requires forall i :: 0 <= i < |rows| ==> Distinct(rows[i]) && "sample_annotations" in Keys(rows[i])
    ensures var w := Writes(schema, Chunks(rows));
      |w| == |Chunks(rows)| &&
      forall i :: 0 <= i < |w| ==>
        w[i].schema == schema && |Column(w[i].columns, "sample_annotations")| == |Chunks(rows)[i]|
  {
    ChunksShape(rows);
    var chunks := Chunks(rows);
    forall i | 0 <= i < |chunks|
      ensures |Column(Columns(chunks[i]), "sample_annotations")| == |chunks[i]|
    {
      ChunkMembers(rows, i);
      forall j | 0 <= j < |chunks[i]| ensures Distinct(chunks[i][j]) && "sample_annotations" in Keys(chunks[i][j]) {
        assert chunks[i][j] in rows;
      }
      ColumnsSpec(chunks[i]);
      PresentLength(chunks[i], "sample_annotations");
    }
  }

  /** Rows that all carry `sample_annotations`, written in batches: every batch but the last
      has a `sample_annotations` column of FlushInterval entries, the last one the remainder. */
  lemma BatchSizes(schema: seq<Field>, rows: seq<Dict>)
    requires forall i :: 0 <= i < |rows| ==> Distinct(rows[i]) && "sample_annotations" in Keys(rows[i])
    ensures var w := Writes(schema, Chunks(rows));
      && |w| == (|rows| + FlushInterval - 1) / FlushInterval
      && (forall i :: 0 <= i < |w| ==> w[i].schema == schema)
      && (forall i :: 0 <= i < |w| - 1 ==> |Column(w[i].columns, "sample_annotations")| == FlushInterval)
      && (rows != [] ==> |Column(w[|w| - 1].columns, "sample_annotations")|
                         == if |rows| % FlushInterval == 0 then FlushInterval else |rows| % FlushInterval)
  {
    ChunksShape(rows);
    BatchRowCounts(schema, rows);
  }

  /** Every row of a batch is one of the rows. */
  lemma {:induction false} ChunkMembers<T>(rows: seq<T>, i: nat)
    requires i < |Chunks(rows)|
    ensures forall x :: x in Chunks(rows)[i] ==> x in rows
    decreases |rows|
  {
    if |rows| > FlushInterval && i > 0 {
      ChunkMembers(rows[FlushInterval..], i - 1);
    }
  }

  /** The batching state: the rows `flushed` have been appended after `written` in full
      batches of FlushInterval rows, and the rows `buffer` since the last flush, fewer than
      FlushInterval, are held as the columns `table`. */
  ghost predicate Batched(written: seq<Write>, schema: seq<Field>, flushed: seq<Dict>, buffer: seq<Dict>,
                          table: Table, dataset: seq<Write>)
  {
    && |flushed| % FlushInterval == 0 && |buffer| < FlushInterval
    && table == Columns(buffer)
    && dataset == written + Writes(schema, Chunks(flushed))
  }

  lemma WritesAppend(schema: seq<Field>, chunks: seq<seq<Dict>>, c: seq<Dict>)
    ensures Writes(schema, chunks + [c]) == Writes(schema, chunks) + [Write(schema, Columns(c))]
  {
    assert |Writes(schema, chunks + [c])| == |chunks| + 1;
  }

  /** One more row that does not complete a batch: it joins the buffer. */
  lemma BatchKeep(written: seq<Write>, schema: seq<Field>, flushed: seq<Dict>, buffer: seq<Dict>,
                  table: Table, dataset: seq<Write>, row: Dict)
    requires Batched(written, schema, flushed, buffer, table, dataset)
    requires (|flushed| + |buffer| + 1) % FlushInterval != 0
    ensures Batched(written, schema, flushed, buffer + [row], Appended(table, row), dataset)
  {
    var buffer' := buffer + [row];
    assert buffer'[..|buffer'| - 1] == buffer;
  }

  /** One more row that brings the row count to a multiple of FlushInterval: the buffer
      with it is written as one batch and emptied. */
  lemma BatchFlush(written: seq<Write>, schema: seq<Field>, flushed: seq<Dict>, buffer: seq<Dict>,
                   table: Table, dataset: seq<Write>, row: Dict)
    requires Batched(written, schema, flushed, buffer, table, dataset)
    requires (|flushed| + |buffer| + 1) % FlushInterval == 0
    ensures Batched(written, schema, flushed + (buffer + [row]), [], map[],
                    dataset + [Write(schema, Appended(table, row))])
  {
    var buffer' := buffer + [row];
    assert buffer'[..|buffer'| - 1] == buffer;
    assert |buffer'| == FlushInterval;
    ChunksStep(flushed, buffer');
    WritesAppend(schema, Chunks(flushed), buffer');
  }

  /** Nothing converted, nothing written. */
  lemma BatchedStart(written: seq<Write>, schema: seq<Field>)
    ensures Batched(written, schema, [], [], map[], written)
  {
    assert Writes(schema, Chunks([])) == [];
  }

  /** The final flush: a non-empty buffer is written as the last, shorter batch, an empty one
      leaves the batches as they are; the table holds the rows after the last multiple of
      FlushInterval. */
  lemma FinalFlush(written: seq<Write>, schema: seq<Field>, flushed: seq<Dict>, buffer: seq<Dict>,
                   table: Table, dataset: seq<Write>)
    requires Batched(written, schema, flushed, buffer, table, dataset)
    ensures buffer != [] ==> dataset + [Write(schema, table)] == written + Writes(schema, Chunks(flushed + buffer))
    ensures buffer == [] ==> dataset == written + Writes(schema, Chunks(flushed + buffer)) && table == map[]
    ensures table == Columns(Leftover(flushed + buffer))
  {
    var rows := flushed + buffer;
    LeftoverAfter(flushed, buffer);
    if buffer != [] {
      ChunksStep(flushed, buffer);
      WritesAppend(schema, Chunks(flushed), buffer);
    } else {
      assert rows == flushed;
    }
  }

  /** The counters of a whole run: the first sample's files are counted once by the schema
      pass and once more by the walk; "scene" and "sample" count only the walk. */
  lemma RunMetricsCounts(m: Counters, db: Db, root: string, files: Files, first: string,
                         chains: seq<seq<string>>)
    requires WfSample(db, root, files, first) && WfChains(db, root, files, chains)
    ensures var r := ScenesMetrics(SampleFileMetrics(m, db, root, files, first), db, root, files, chains);
      && Count(r, "scene") == Count(m, "scene") + |chains|
      && Count(r, "sample") == Count(m, "sample") + TotalSamples(chains)
      && Count(r, "filecount") == Count(m, "filecount") + |SensorsOf(db, root, files, first)|
                                  + TotalSensors(db, root, files, chains)
      && Count(r, "filesize") == Count(m, "filesize") + SensorBytes(db, root, files, SensorsOf(db, root, files, first))
                                 + TotalBytes(db, root, files, chains)
  {
    WalkCountersApart();
    ScenesMetricsCounts(SampleFileMetrics(m, db, root, files, first), db, root, files, chains);
  }

  /** Walking a chain adds to each file counter what the files of its samples add to it. */
  lemma {:induction false} ChainFileCounts(m: Counters, db: Db, root: string, files: Files, chain: seq<string>, key: string)
    requires WfTokens(db, root, files, chain) && key in FileCounters
    ensures Count(ChainMetrics(m, db, root, files, chain), key) == Count(m, key) + ChainFiles(db, root, files, chain, key)
  {
    if chain != [] {
      var n := |chain| - 1;
      TokensPrefix(db, root, files, chain, n);
      ChainFileCounts(m, db, root, files, chain[..n], key);
      WalkCountersApart();
      var bumped := Bump(ChainMetrics(m, db, root, files, chain[..n]), "sample", 1);
      SampleDataDelta(bumped, db, root, files, SensorsOf(db, root, files, chain[n]), key);
    }
  }

  /** Walking the scenes adds to each file counter what the files of all their samples add. */
  lemma {:induction false} ScenesFileCounts(m: Counters, db: Db, root: string, files: Files,
                                            chains: seq<seq<string>>, key: string)
    requires WfChains(db, root, files, chains) && key in FileCounters
    ensures Count(ScenesMetrics(m, db, root, files, chains), key) == Count(m, key) + TotalFiles(db, root, files, chains, key)
  {
    if chains != [] {
      var n := |chains| - 1;
      ScenesFileCounts(m, db, root, files, chains[..n], key);
      WalkCountersApart();
      ChainFileCounts(Bump(ScenesMetrics(m, db, root, files, chains[..n]), "scene", 1), db, root, files, chains[n], key);
    }
  }

  /** Over a whole run every file counter, the point-cloud and image pairs included, counts the
      first sample's files twice (schema pass and walk) and every other walked file once. */
  lemma RunFileCounts(m: Counters, db: Db, root: string, files: Files, first: string,
                      chains: seq<seq<string>>, key: string)
    requires WfSample(db, root, files, first) && WfChains(db, root, files, chains) && key in FileCounters
    ensures Count(ScenesMetrics(SampleFileMetrics(m, db, root, files, first), db, root, files, chains), key)
            == Count(m, key) + SensorsDelta(db, root, files, SensorsOf(db, root, files, first), key)
               + TotalFiles(db, root, files, chains, key)
  {
    SampleDataDelta(m, db, root, files, SensorsOf(db, root, files, first), key);
    ScenesFileCounts(SampleFileMetrics(m, db, root, files, first), db, root, files, chains, key);
  }

  /** The batches of a run of R samples: ceil(R / 100) writes, all with the run's schema,
      every one but the last with a `sample_annotations` column of FlushInterval entries,
      the last one with the remainder (FlushInterval when R is a multiple of it). */
  lemma RunBatches(db: Db, root: string, files: Files, chains: seq<seq<string>>, schema: seq<Field>)
    requires WfChains(db, root, files, chains)
    ensures var w := Writes(schema, Chunks(AllRows(db, root, files, chains)));
      var total := TotalSamples(chains);
      && |w| == (total + FlushInterval - 1) / FlushInterval
      && (forall i :: 0 <= i < |w| ==> w[i].schema == schema)
      && (forall i :: 0 <= i < |w| - 1 ==> |Column(w[i].columns, "sample_annotations")| == FlushInterval)
      && (total > 0 ==> |Column(w[|w| - 1].columns, "sample_annotations")|
                        == if total % FlushInterval == 0 then FlushInterval else total % FlushInterval)
  {
    AllRowsLength(db, root, files, chains);
    RowsHaveAnnotations(db, root, files, chains);
    BatchSizes(schema, AllRows(db, root, files, chains));
  }

  /** The table left after the final flush is empty exactly when the run's sample count is a
      multiple of FlushInterval, so the final write happens exactly when it is not. */
  lemma RunRest(db: Db, root: string, files: Files, chains: seq<seq<string>>)
    requires WfChains(db, root, files, chains)
    ensures |Columns(Leftover(AllRows(db, root, files, chains)))| > 0
            <==> TotalSamples(chains) % FlushInterval != 0
  {
    var rows := AllRows(db, root, files, chains);
    var l := Leftover(rows);
    AllRowsLength(db, root, files, chains);
    if l != [] {
      RowsHaveAnnotations(db, root, files, chains);
      assert l[|l| - 1] == rows[|rows| - 1];
      ColumnsNonEmpty(l, "sample_annotations");
    }
  }

  // ---------------------------------------------------------------------------
  // The converter's state: the global counters and the destination dataset.

  class Converter {
    /** The global `metrics` dict. */
    var metrics: Counters
    /** The batches appended to the destination dataset so far. */
    ghost var dataset: seq<Write>

    /** Process start: no counter touched, nothing written. */
    constructor ()
      ensures metrics == map[] && dataset == []
    {
      metrics := map[];
      dataset := [];
    }

    /** `update_metric`. */
    method UpdateMetric(key: string, delta: int)
      modifies this`metrics
      ensures metrics == Bump(old(metrics), key, delta)
    {
      if key !in metrics {
        metrics := metrics[key := 0];
      }
      metrics := metrics[key := metrics[key] + delta];
    }

    /** `get_metric`: the counter's value; the key must have been touched. */
    method GetMetric(key: string) returns (v: int)
      requires key in metrics
      ensures v == metrics[key]
    {
      v := metrics[key];
    }

    /** `extend_file`: the file's bytes under `sensor-file`, and the file counters. */
    method ExtendFile(files: Files, path: string, sensor: string, row: Dict) returns (out: Dict)
      requires path in files
      modifies this`metrics
      ensures out == Put(row, sensor + "-file", Bytes(files[path]))
      ensures metrics == FileMetrics(old(metrics), path, |files[path]|)
    {
      var binaryData := files[path];
      out := Put(row, sensor + "-file", Bytes(binaryData));
      UpdateMetric("filecount", 1);
      UpdateMetric("filesize", |binaryData|);
      if EndsWith(path, ".pcd") {
        UpdateMetric("filecount-pcd", 1);
        UpdateMetric("filesize-pcd", |binaryData|);
      } else if EndsWith(path, ".jpg") {
        UpdateMetric("filecount-jpg", 1);
        UpdateMetric("filesize-jpg", |binaryData|);
      }
    }

    /** `extend_sample_data`: per sensor of the `data` dict, in order, its sample_data fields,
      ego pose, calibration and file. */
    method ExtendSampleData(db: Db, root: string, files: Files, data: Dict, row: Dict) returns (out: Dict)
      requires WfSensors(db, root, files, data)
      modifies this`metrics
      ensures out == SampleDataRow(db, root, files, data, row)
      ensures metrics == SampleDataMetrics(old(metrics), db, root, files, data)
    {
      out := row;
      for i := 0 to |data|
        invariant out == SampleDataRow(db, root, files, data[..i], row)
        invariant metrics == SampleDataMetrics(old(metrics), db, root, files, data[..i])
      {
        SampleDataStep(old(metrics), db, root, files, data, row, i);
        var (sensor, token) := data[i];
        out := ExtendSensor(db, root, files, sensor, token.s, out);
      }
      assert data[..|data|] == data;
    }

    /** One pass of the `extend_sample_data` loop: one sensor's fields, pose, calibration
      and file. */
    method ExtendSensor(db: Db, root: string, files: Files, sensor: string, token: string, row: Dict)
      returns (out: Dict)
      requires WfSampleData(db, root, files, token)
      modifies this`metrics
      ensures out == SensorRow(db, root, files, sensor, token, row)
      ensures metrics == FileMetrics(old(metrics), FilePath(db, root, files, token),
                                     |files[FilePath(db, root, files, token)]|)
    {
      var sensorData := db[("sample_data", token)];
      out := CopyInto(sensorData, sensor + "-", SampleDataExcluded, row);
      out := ExtendEgoPose(db, TokenOf(sensorData, "ego_pose_token"), sensor, out);
      out := ExtendCalibratedSensor(db, TokenOf(sensorData, "calibrated_sensor_token"), sensor, out);
      out := ExtendFile(files, root + "/" + TokenOf(sensorData, "filename"), sensor, out);
    }

    /** `extend_sample`: the sample's row and its `next` token. */
    method ExtendSample(db: Db, root: string, files: Files, token: string) returns (next: string, row: Dict)
      requires WfSample(db, root, files, token)
      modifies this`metrics
      ensures next == NextToken(db, root, files, token)
      ensures row == SampleRow(db, root, files, token)
      ensures metrics == SampleFileMetrics(old(metrics), db, root, files, token)
    {
      var sample := db[("sample", token)];
      row := [];
      row := ExtendSampleData(db, root, files, Get(sample, "data").fields, row);
      row := ExtendSampleAnns(db, Get(sample, "anns").items, row);
      next := TokenOf(sample, "next");
    }

    /** `compute_schema`: flattens the first sample of the first scene (reading its files and
      bumping the file counters once more) and tags the binary fields of the inferred schema. */
    method ComputeSchema(db: Db, root: string, files: Files, scenes: seq<Dict>, algo: string, level: string)
      returns (schema: seq<Field>)
      requires |scenes| > 0 && StrField(scenes[0], "first_sample_token")
      requires WfSample(db, root, files, FirstToken(scenes[0]))
      modifies this`metrics
      ensures schema == RunSchema(db, root, files, FirstToken(scenes[0]), algo, level)
      ensures metrics == SampleFileMetrics(old(metrics), db, root, files, FirstToken(scenes[0]))
    {
      var sampleToken := FirstToken(scenes[0]);
      var _, sampleDict := ExtendSample(db, root, files, sampleToken);
      schema := TagBinaryFields(InferSchema(sampleDict), algo, level);
    }

    /** One pass of the `while next_sample_token` loop: the sample is counted, flattened and
      buffered, and the buffer is written when the sample counter reaches a multiple of
      FlushInterval. */
    method ConvertSample(db: Db, root: string, files: Files, token: string,
                         schema: seq<Field>, ghost written: seq<Write>,
                         table: Table, ghost flushed: seq<Dict>, ghost buffer: seq<Dict>)
      returns (next: string, table': Table, ghost flushed': seq<Dict>, ghost buffer': seq<Dict>)
      requires WfSample(db, root, files, token)
      requires Count(metrics, "sample") == |flushed| + |buffer|
      requires Batched(written, schema, flushed, buffer, table, dataset)
      modifies this
      ensures next == NextToken(db, root, files, token)
      ensures metrics == SampleFileMetrics(Bump(old(metrics), "sample", 1), db, root, files, token)
      ensures flushed' + buffer' == flushed + buffer + [SampleRow(db, root, files, token)]
      ensures Count(metrics, "sample") == |flushed'| + |buffer'|
      ensures Batched(written, schema, flushed', buffer', table', dataset)
    {
      WalkCountersApart();
      UpdateMetric("sample", 1);
      var sampleDict;
      next, sampleDict := ExtendSample(db, root, files, token);
      table', flushed', buffer' := BufferRow(schema, written, sampleDict, table, flushed, buffer);
    }

    /** Lines 72-80 of the walk: the row's values are appended to their columns, and when the
      sample counter is a multiple of FlushInterval the table is written and emptied. */
    method BufferRow(schema: seq<Field>, ghost written: seq<Write>, row: Dict,
                     table: Table, ghost flushed: seq<Dict>, ghost buffer: seq<Dict>)
      returns (table': Table, ghost flushed': seq<Dict>, ghost buffer': seq<Dict>)
      requires Count(metrics, "sample") == |flushed| + |buffer| + 1
      requires Batched(written, schema, flushed, buffer, table, dataset)
      modifies this`dataset
      ensures flushed' + buffer' == flushed + buffer + [row]
      ensures Batched(written, schema, flushed', buffer', table', dataset)
    {
      table' := AppendRow(table, row);
      var sampleCount := GetMetric("sample");
      if sampleCount % FlushInterval == 0 {
        BatchFlush(written, schema, flushed, buffer, table, dataset, row);
        assert (flushed + buffer) + [row] == flushed + (buffer + [row]);
        assert flushed + (buffer + [row]) + [] == flushed + (buffer + [row]);
        dataset := dataset + [Write(schema, table')];
        table' := map[];
        flushed', buffer' := flushed + (buffer + [row]), [];
      } else {
        BatchKeep(written, schema, flushed, buffer, table, dataset, row);
        flushed', buffer' := flushed, buffer + [row];
      }
    }

    /** The `while next_sample_token` loop of one scene: the samples of its chain in order. */
    method WalkChain(db: Db, root: string, files: Files, first: string, ghost chain: seq<string>,
                     schema: seq<Field>, ghost written: seq<Write>,
                     table: Table, ghost flushed: seq<Dict>, ghost buffer: seq<Dict>)
      returns (table': Table, ghost flushed': seq<Dict>, ghost buffer': seq<Dict>)
      requires ValidChain(db, root, files, first, chain)
      requires Count(metrics, "sample") == |flushed| + |buffer|
      requires Batched(written, schema, flushed, buffer, table, dataset)
      modifies this
      ensures WfTokens(db, root, files, chain)
      ensures metrics == ChainMetrics(old(metrics), db, root, files, chain)
      ensures flushed' + buffer' == flushed + buffer + ChainRows(db, root, files, chain)
      ensures Count(metrics, "sample") == |flushed'| + |buffer'|
      ensures Batched(written, schema, flushed', buffer', table', dataset)
    {
      ValidChainTokens(db, root, files, first, chain);
      ghost var m0 := metrics;
      ghost var rows0 := flushed + buffer;
      table', flushed', buffer' := table, flushed, buffer;
      var nextSampleToken := first;
      ghost var j := 0;
      assert chain[j..] == chain;
      while nextSampleToken != ""
        invariant 0 <= j <= |chain| && WfTokens(db, root, files, chain[..j])
        invariant ValidChain(db, root, files, nextSampleToken, chain[j..])
        invariant metrics == ChainMetrics(m0, db, root, files, chain[..j])
        invariant Count(metrics, "sample") == |flushed'| + |buffer'|
        invariant flushed' + buffer' == rows0 + ChainRows(db, root, files, chain[..j])
        invariant Batched(written, schema, flushed', buffer', table', dataset)
        decreases |chain| - j
      {
        ChainLink(db, root, files, nextSampleToken, chain, j);
        ghost var mBefore, before := metrics, flushed' + buffer';
        ghost var token := nextSampleToken;
        nextSampleToken, table', flushed', buffer' :=
          ConvertSample(db, root, files, nextSampleToken, schema, written, table', flushed', buffer');
        WalkStep(m0, db, root, files, chain, j, rows0, mBefore, metrics, before, flushed' + buffer');
        j := j + 1;
      }
      assert chain[..j] == chain;
    }

    /** The `for scene in nusc.scene` loop: every scene counted and its chain walked, from an
      empty table. */
    method WalkScenes(db: Db, root: string, files: Files, scenes: seq<Dict>, ghost chains: seq<seq<string>>,
                      schema: seq<Field>)
      returns (table: Table, ghost flushed: seq<Dict>, ghost buffer: seq<Dict>)
      requires ValidScenes(db, root, files, scenes, chains)
      requires Count(metrics, "sample") == 0
      modifies this
      ensures WfChains(db, root, files, chains)
      ensures metrics == ScenesMetrics(old(metrics), db, root, files, chains)
      ensures flushed + buffer == AllRows(db, root, files, chains)
      ensures Batched(old(dataset), schema, flushed, buffer, table, dataset)
    {
      ValidScenesWf(db, root, files, scenes, chains);
      ghost var written := dataset;
      table, flushed, buffer := map[], [], [];
      BatchedStart(written, schema);
      for s := 0 to |scenes|
        invariant metrics == ScenesMetrics(old(metrics), db, root, files, chains[..s])
        invariant Count(metrics, "sample") == |flushed| + |buffer|
        invariant flushed + buffer == AllRows(db, root, files, chains[..s])
        invariant Batched(written, schema, flushed, buffer, table, dataset)
      {
        ScenesStep(old(metrics), db, root, files, chains, s);
        WalkCountersApart();
        UpdateMetric("scene", 1);
        assert StrField(scenes[s], "first_sample_token") && ValidChain(db, root, files, FirstToken(scenes[s]), chains[s]);
        table, flushed, buffer :=
          WalkChain(db, root, files, FirstToken(scenes[s]), chains[s], schema, written, table, flushed, buffer);
      }
      assert chains[..|scenes|] == chains;
    }

    /** `convert_nuscenes_to_lance`: computes the schema from the first sample, walks every
      scene's chain, buffering the rows as columns and writing a batch whenever the sample
      counter reaches a multiple of 100, writes a final batch for any rest, and returns the
      columns left in the buffer. */
    method Convert(db: Db, root: string, files: Files, scenes: seq<Dict>, ghost chains: seq<seq<string>>,
                   algo: string, level: string) returns (rest: Table)
      requires |scenes| > 0 && ValidScenes(db, root, files, scenes, chains)
      requires WfSample(db, root, files, FirstToken(scenes[0]))
      requires "sample" !in metrics
      modifies this
      ensures WfChains(db, root, files, chains)
      ensures metrics == ScenesMetrics(SampleFileMetrics(old(metrics), db, root, files, FirstToken(scenes[0])),
                                       db, root, files, chains)
      ensures dataset == old(dataset) + Writes(RunSchema(db, root, files, FirstToken(scenes[0]), algo, level),
                                               Chunks(AllRows(db, root, files, chains)))
      ensures rest == Columns(Leftover(AllRows(db, root, files, chains)))
    {
      var schema := ComputeSchema(db, root, files, scenes, algo, level);
      WalkCountersApart();
      ghost var flushed, buffer;
      var dataTable;
      dataTable, flushed, buffer := WalkScenes(db, root, files, scenes, chains, schema);
      FinalFlush(old(dataset), schema, flushed, buffer, dataTable, dataset);
      if buffer != [] {
        RowsHaveAnnotations(db, root, files, chains);
        assert buffer[|buffer| - 1] == (flushed + buffer)[|flushed| + |buffer| - 1];
        ColumnsNonEmpty(buffer, "sample_annotations");
      }
      if |dataTable| > 0 {
        dataset := dataset + [Write(schema, dataTable)];
      }
      rest := dataTable;
    }
  }
}
