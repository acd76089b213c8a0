# nuScenes to Lance converter, modelled in Dafny

`nuscenes_convert.py` converts a nuScenes dataset into a Lance columnar dataset. This model covers:

- **The row flattener.** This is the `extend_*` family. It resolves the records a sample references: sensor data, ego poses, calibrations, annotations, instances, categories and attributes, plus the sensor files. It turns them into one flat row of namespaced keys.
- **The global statistics counters.** These are `update_metric` and `get_metric`.
- **The schema pass.** `compute_schema` tags every binary field with the configured compression.
- **The conversion driver.** `convert_nuscenes_to_lance` walks every scene's sample chain and appends each row's values to per-key columns. It writes a batch each time the sample counter reaches a multiple of 100, and writes whatever is left at the end.

The files are:

- `values.dfy`: module `Values`. A field value, and Python's insertion-ordered dict as a sequence of (key, value) pairs. `Put` is `d[k] = v`: an existing key stays where it is, a new key goes at the end. Also Python's substring test `t in s` and `str.endswith`.
- `metrics.dfy`: module `Metrics`. The counter map, where a missing counter reads as 0. The updates of `update_metric`, and the file counters `extend_file` updates.
- `flatten.dfy`: module `Flatten`.
  - The record store is `Db`: `nusc.get(kind, token)` is `db[(kind, token)]`. The file system is `Files`, a map from path to bytes.
  - `Wf*` predicates say which lookups must hit. In the source a miss raises and ends the run, so these are preconditions.
  - Specification functions give the row each `extend_*` function builds, and methods with loops do the same work the source does.
- `batching.dfy`: module `Batching`.
  - `data_table` is a map from column to values. `Columns` and `Present` are a reference definition of it.
  - `Chunks` is the reference definition of writing rows in batches of 100.
- `schema.dfy`: module `Schema`. Field types as far as the converter distinguishes them, and the binary-field tagging loop.
- `converter.dfy`: module `Converter`.
  - The class `Converter` holds the global `metrics` dict and a ghost log `dataset` of the batches written with `lance.write_dataset`.
  - Its methods are the driver's loops. They are proved against the specification functions `ChainMetrics`, `ScenesMetrics`, `ChainRows`, `AllRows`, `Chunks` and `Writes`.

Most contracts are proved against an independent reference definition:

- **A sample's row.** `SampleRow` is built from `CopyFields` and `Put`. Its meaning is given field by field by the `...FieldCopied`, `AttributeDictExact`, `AnnotationShape` and `SampleRowShape` lemmas.
- **The column table.** `Appended` and `Columns` are specified by `Present`: a key's values in row order, with nothing for rows that lack the key.
- **The batches.** `Chunks` is specified by `ChunksShape`: the batch count, the batch sizes, and that the batches joined back together give the rows.
- **The run's counters.** `ScenesMetrics` is specified by `ScenesMetricsCounts`, `RunMetricsCounts` and `RunFileCounts`.

The walk over a scene's samples has no cycle detection. The caller supplies the chain up front as a ghost list `chains[i]`, and `ValidChain` says that following `next` from `first_sample_token` gives exactly that list and then the empty token. A cyclic chain has no such list, so a run that would loop forever is outside the precondition.

Behaviours that follow the code as written:

- **The first sample is flattened twice.** `compute_schema` flattens the first sample of the first scene to infer the schema, so that sample's file counters are bumped twice. It does not bump "sample" or "scene". `Convert`'s counters are `ScenesMetrics(SampleFileMetrics(old(metrics), first), chains)`, and `RunMetricsCounts` gives the totals.
  - Take one scene whose three samples each have a point-cloud file. `RunFileCounts` then gives `filecount-pcd` = 4, not 3, because the first sample's file is counted again.
- **Columns are not null-padded.** A key missing from some rows of a batch gives a shorter column (`Present`, `ColumnsSpec`).
- **The return value is only the leftover rows.** `convert_nuscenes_to_lance` returns the table built from `data_table` as it stands after the final write. That is the rows after the last multiple of 100, not the whole dataset. `Convert` returns those columns (`rest == Columns(Leftover(AllRows(...)))`).

## Model

| member | source | states |
|---|---|---|
| Values.Put | nuscenes_convert.py:104 | Dict assignment: the keys after are the keys before plus `k`. A new key is appended at the end. An existing key keeps its position, so the dict keeps its length. |
| Values.PutGet | nuscenes_convert.py:104 | After `d[k] = v`, `d[k]` is `v` and every other key keeps its value. |
| Values.PutDistinct | nuscenes_convert.py:104 | Assignment keeps the keys of a dict unique. |
| Values.PutKeepsOrder | nuscenes_convert.py:104 | Assignment never moves a key: every position holds the same key before and after. |
| Values.ContainsSubIff | nuscenes_convert.py:103 | The substring test `'token' in k` is true exactly when "token" occurs at some position of `k`. |
| Metrics.Bump | nuscenes_convert.py:197-201 | `update_metric` has five properties. (1) The key set grows by `key` and nothing disappears. (2) A missing key starts at 0. (3) The key's count grows by `delta`. (4) Every other counter is unchanged. (5) For `delta >= 0` no counter decreases. |
| Metrics.FileMetrics | nuscenes_convert.py:136-143 | `filecount` grows by 1 and `filesize` by the byte length. A `.pcd` path also bumps the pcd pair. Otherwise a `.jpg` path bumps the jpg pair. The jpg pair is untouched when the path ends in `.pcd`. Any other suffix bumps neither pair, and no other counter changes. |
| Metrics.BumpPair | nuscenes_convert.py:136-143 | One file bumps its count counter by 1 and its size counter by the byte length. Other counters are unchanged, and no counter disappears or decreases. |
| Converter.Converter.constructor | nuscenes_convert.py:22 | At process start no counter exists and nothing has been written. |
| Converter.Converter.UpdateMetric | nuscenes_convert.py:197-201 | The counter map becomes `Bump(old(metrics), key, delta)`. |
| Converter.Converter.GetMetric | nuscenes_convert.py:204-206 | The key must be present, since a missing key is a `KeyError`. Returns its value. |
| Converter.Converter.ExtendFile | nuscenes_convert.py:132-143 | Sets `sensor-file` to the file's bytes, and the counters become `FileMetrics` of the path and its byte length. |
| Flatten.CopyInto | nuscenes_convert.py:101-104 | The filtering copy loop of every `extend_*` function computes `CopyFields`. |
| Flatten.CopyFieldsKeys | nuscenes_convert.py:101-104 | Copying adds exactly the prefixed names of the kept keys, and no others. |
| Flatten.CopyFieldsValue | nuscenes_convert.py:101-104 | A kept field ends up under `prefix + k` with its value unchanged. |
| Flatten.CopyFieldsElsewhere | nuscenes_convert.py:101-104 | A key the copy does not write keeps its value. |
| Flatten.CopyFieldsDistinct | nuscenes_convert.py:101-104 | Copying keeps the row's keys unique. |
| Flatten.RenamedHas | nuscenes_convert.py:101-104 | `prefix + k` is among the written keys exactly when `k` is a kept key of the record. |
| Flatten.FieldCopied | nuscenes_convert.py:101-104 | The copy rule for any prefix and exclusion set. `prefix + k` is present afterwards iff it was present before or `k` is kept. A kept field keeps its value. No key other than a renamed kept field is added. |
| Flatten.SampleDataFieldCopied | nuscenes_convert.py:98-104 | This holds for a key the row did not already have. `sensor-k` is written, with the value unchanged, iff `k` is a field of the sample_data record, is not in {ego_pose_token, calibrated_sensor_token, filename, prev, next}, and does not contain "token". |
| Flatten.PoseFieldCopied | nuscenes_convert.py:116-128 | `sensor-ego_pose-k` and `sensor-calibrated_sensor-k` are written, with the value unchanged, iff `k` is a field of the record and does not contain "token". |
| Flatten.ExtendEgoPose | nuscenes_convert.py:116-121 | Adds exactly the ego pose's renamed token-free keys, with the copied values. |
| Flatten.ExtendCalibratedSensor | nuscenes_convert.py:124-129 | Adds exactly the calibration's renamed token-free keys, with the copied values. |
| Flatten.SampleDataMetrics | nuscenes_convert.py:98-113 | The sensors of a sample add one to `filecount` each, and their total byte length to `filesize`. Counters other than the file counters are unchanged. |
| Flatten.SampleFileMetrics | nuscenes_convert.py:90-95 | Flattening a sample adds its number of sensors to `filecount` and touches no counter other than the file counters. |
| Converter.Converter.ExtendSensor | nuscenes_convert.py:99-113 | One pass of the sensor loop. It builds the sensor's prefixed sample_data, ego pose, calibration and file columns, and applies that file's counter updates. |
| Converter.Converter.ExtendSampleData | nuscenes_convert.py:98-113 | The row and the counters after all sensors of the `data` dict, processed in dict order. |
| Flatten.ExtendAttributeToken | nuscenes_convert.py:188-194 | The attribute dict equals `AttributeDict`, and its keys are exactly the attribute record's token-free keys. |
| Flatten.AttributeDictExact | nuscenes_convert.py:188-194 | An attribute dict holds exactly the attribute record's fields without "token" in their name, each with its value. |
| Flatten.ExtendAttributeTokens | nuscenes_convert.py:181-185 | `attributes` is a list with one entry per token, in token order. Entry `i` is the resolved attribute of token `i`. Every other key is unchanged. |
| Flatten.ExtendInstance | nuscenes_convert.py:169-178 | Adds the instance's kept keys unprefixed and `category`. `category` holds the resolved category record, unfiltered. |
| Flatten.ExtendSampleAnn | nuscenes_convert.py:154-166 | The annotation dict's keys are the kept annotation keys under `ann-`, the kept instance keys, `category` and `attributes`. |
| Flatten.AnnotationShape | nuscenes_convert.py:154-178 | The key set is as in `ExtendSampleAnn`. `category` is the category record unfiltered, and `attributes` is the attribute list. |
| Flatten.AnnotationFieldCopied | nuscenes_convert.py:157-159 | A kept annotation field is stored under `ann-k` with its value, unless an instance field overrides it. |
| Flatten.PrefixedApart | nuscenes_convert.py:159 | A key prefixed with `ann-` can never be `category` or `attributes`. |
| Flatten.InstanceFieldCopied | nuscenes_convert.py:172-174 | A kept instance field is stored unprefixed with its value, unless it is named `category` or `attributes`. Those two are written after it. |
| Flatten.ExtendSampleAnns | nuscenes_convert.py:146-151 | `sample_annotations` is one entry per annotation token, in token order. Entry `i` is the annotation dict of token `i`. Every other key of the row is unchanged. |
| Flatten.AnnotationList | nuscenes_convert.py:146-151 | The annotation list is as long as the token list. |
| Flatten.AnnotationListAt | nuscenes_convert.py:146-151 | Entry `i` of the annotation list is the annotation of token `i`. |
| Flatten.SampleDataRowDistinct | nuscenes_convert.py:98-113 | The sensor columns of a row have unique keys. |
| Flatten.SampleRowShape | nuscenes_convert.py:90-95 | A sample's row has unique keys and always has `sample_annotations`, which holds the annotation list. |
| Converter.Converter.ExtendSample | nuscenes_convert.py:90-95 | Returns the sample's `next` token and its row, and applies the sample's file counter updates. |
| Schema.TagFields | nuscenes_convert.py:36-45 | Field count and order are kept, and every field keeps its name and type. A binary field's metadata is exactly {compression: algo, compression-level: level}. Any other field is unchanged. |
| Schema.TagBinaryFields | nuscenes_convert.py:36-45 | The `new_fields` loop computes `TagFields`. |
| Converter.Converter.ComputeSchema | nuscenes_convert.py:25-46 | The schema is the tagged schema inferred from the first sample of the first scene. The counters receive that sample's file updates, but not "sample" or "scene". |
| Batching.AppendRow | nuscenes_convert.py:72-75 | The column-append loop computes `Appended`. |
| Batching.AppendedSpec | nuscenes_convert.py:72-75 | Appending a row adds its keys as columns. Each of the row's columns gets exactly its value at the end, and every other column is unchanged. |
| Batching.ColumnsSpec | nuscenes_convert.py:72-75 | A key is a column iff some row has it. The column lists exactly the values of the rows that have it, in row order, with no null padding. |
| Batching.PresentLength | nuscenes_convert.py:72-75 | A column is as long as the number of rows that have its key. That is all the rows when every row has the key. |
| Batching.ChunksShape | nuscenes_convert.py:77-84 | There are ceil(R/100) batches. Each batch but the last has 100 rows. The last has R mod 100 rows, or 100 when R is a multiple of 100. The batches joined in order are exactly the rows. |
| Batching.ChunksAppend | nuscenes_convert.py:77-80 | Splitting after a multiple of 100 rows splits the batches there. |
| Batching.LeftoverIsLastBatch | nuscenes_convert.py:82-84 | The rows held at the end are empty iff R is a multiple of 100. Otherwise they are the last batch. |
| Batching.LeftoverAfter | nuscenes_convert.py:82-84 | Fewer than 100 rows after a multiple of 100 are exactly the rows held at the end. |
| Converter.BatchKeep | nuscenes_convert.py:72-77 | A row that does not complete a batch joins the buffer, and the batching invariant still holds. |
| Converter.BatchFlush | nuscenes_convert.py:77-80 | A row that brings the count to a multiple of 100 causes one write of exactly the buffered rows plus it. The buffer is then empty. |
| Converter.FinalFlush | nuscenes_convert.py:82-84 | A non-empty buffer is written as the last batch. An empty buffer means every row is already in full batches. The table always holds the rows after the last multiple of 100. |
| Converter.Converter.BufferRow | nuscenes_convert.py:72-80 | Appends the row's values to their columns. When the sample counter is a multiple of 100 it writes the table and empties it. The batching invariant is kept. |
| Converter.Converter.ConvertSample | nuscenes_convert.py:69-80 | One pass of the sample loop. "sample" grows by 1, then come the sample's file updates. The row is buffered or flushed, and the sample's `next` token is returned. |
| Converter.ValidChainTokens | nuscenes_convert.py:67-70 | Every sample of a chain followed through `next` to the empty token is well formed. |
| Converter.ChainLink | nuscenes_convert.py:68-70 | While the token is non-empty it is the chain's next sample, and that sample's `next` continues the chain. |
| Converter.WalkStep | nuscenes_convert.py:69-75 | After one pass of the sample loop, the counters and the rows are those of the chain's first `j + 1` samples. |
| Converter.Converter.WalkChain | nuscenes_convert.py:67-80 | The `while next_sample_token` loop ends, having processed the chain's samples in order. The counters become `ChainMetrics`, and the chain's rows are appended to the batched rows. |
| Converter.Converter.WalkScenes | nuscenes_convert.py:64-80 | Each scene is counted and its chain walked, in scene order, starting from an empty table. The counters become `ScenesMetrics`, and the rows are `AllRows`, batched. |
| Converter.Converter.Convert | nuscenes_convert.py:49-87 | The whole conversion. The log gains `Writes(schema, Chunks(AllRows))`: every full batch of 100, then the remainder. The counters are those of the schema pass and then the walk. The result is the columns of the leftover rows. |
| Converter.ChainMetricsCounts | nuscenes_convert.py:68-70 | A chain raises "sample" by its length, `filecount` by its number of sensor files and `filesize` by their total byte length (`ChainBytes`). It leaves "scene" unchanged. |
| Converter.ScenesMetricsCounts | nuscenes_convert.py:65-70 | The walk raises "scene" by the number of scenes, "sample" by the total chain length, `filecount` by the total sensor files and `filesize` by their total byte length (`TotalBytes`). |
| Converter.RunMetricsCounts | nuscenes_convert.py:28 | Over the whole run "scene" counts the scenes and "sample" the samples. `filecount` and `filesize` count the first sample's files twice: once in the schema pass and once in the walk. Every other file read counts once, with its byte length. |
| Metrics.FileMetricsDelta | nuscenes_convert.py:136-143 | Reading one file adds exactly `FileDelta` to each counter: 1 and the size to the total pair, the same to the `.pcd` pair for a `.pcd` path, else to the `.jpg` pair for a `.jpg` path, and 0 to every other counter. |
| Flatten.SampleDataDelta | nuscenes_convert.py:98-113 | A sample's sensors add to each counter the sum of what each of their files adds to it. |
| Converter.ChainFileCounts | nuscenes_convert.py:68-70 | Walking a chain adds to each of the six file counters the sum over the chain's files of what each file adds to it. |
| Converter.ScenesFileCounts | nuscenes_convert.py:65-70 | Walking the scenes adds to each file counter the sum over all walked files of what each file adds to it. |
| Converter.RunFileCounts | nuscenes_convert.py:28 | Over the whole run each file counter, the `.pcd` and `.jpg` pairs included, counts the first sample's files twice and every other walked file once. |
| Converter.ChainRowsShape | nuscenes_convert.py:68-75 | One row per sample of the chain. Every row has unique keys and a `sample_annotations` column. |
| Converter.RowsHaveAnnotations | nuscenes_convert.py:64-75 | Every row of the run has unique keys and a `sample_annotations` column. |
| Converter.AllRowsLength | nuscenes_convert.py:64-70 | The run has one row per sample of every chain. |
| Converter.BatchRowCounts | nuscenes_convert.py:72-84 | There is one write per batch, each with the run's schema. Each write's `sample_annotations` column has one entry per row of its batch. |
| Converter.BatchSizes | nuscenes_convert.py:72-84 | There are ceil(R/100) writes. Each write's `sample_annotations` column has 100 entries, except the last, which has the remainder. |
| Converter.RunBatches | nuscenes_convert.py:72-84 | The batch sizes of `BatchSizes`, for the run's rows, with R the total number of samples. |
| Converter.RunRest | nuscenes_convert.py:82-84 | The table left after the loop is non-empty, so the final write happens, exactly when the sample total is not a multiple of 100. |

## Left out

- The nuScenes loader (`NuScenes(...)`, line 61) is a foreign library. Its records are an immutable map from (kind, token) to record, and every lookup the source makes must hit: the `Wf*` predicates.
- Reading files (`open`/`read`, lines 133-134) is I/O. File contents come from a map from path to bytes.
- pyarrow (`pa.Table.from_pydict` and schema inference, lines 30-35, 78, 83, 87) is a foreign library. The type of a column is inferred from its one value's shape (`Schema.InferType`), and a write records the raw column map together with the schema. The one-row table of lines 30-33 is not built: the schema is inferred directly from the row.
- `lance.write_dataset` (lines 79 and 84) is storage I/O. It is modelled as appending to the ghost log `dataset`.
- Argument parsing and the `print` of the counters (lines 86 and 209-220) are plumbing.
- Floats, booleans and `None` in records are opaque scalars that are only copied, never computed on.
- Converter.Converter.Convert: requires "sample" to be absent from the counters when it starts, as it is at process start. A pre-set counter would shift where the batches fall, and that schedule is not modelled.
- Converter.Converter.WalkChain: a cyclic `next` chain, on which the loop never ends, is excluded by the `ValidChain` precondition instead of being modelled as a run that does not end. A dangling `next` token is a fatal `KeyError` at `nusc.get('sample', token)` (line 92); like the other lookup misses of the `Wf*` predicates, it is excluded by the precondition.
- Values.Get: works on the first pair with the key. Python dicts never have two, and the lemmas about copied values assume `Distinct` records for that reason.
- `extend_sample_data` looks the token up again as `sample_data[sensor]` (line 100). With unique keys that is the token of the same pair, so the model uses that token directly.
- `pa.Table.from_pydict(data_table, schema=schema)` (lines 78 and 83) looks up only the schema's fields in the table. The real run aborts at the first batch that lacks a schema column, has columns of unequal length, or holds a value not of the schema's type. An example of the last is a first sample without annotations, whose `sample_annotations` column is inferred as a list of nulls, followed by a batch that holds an annotation. Extra columns, such as a sensor the first sample lacked, are dropped from the write. The model checks none of this: every batch is recorded as a `Write` of the columns as built, extra columns included.
- Converter.Converter.ComputeSchema: requires at least one scene, so the `IndexError` of `nusc.scene[0]` (line 26) on an empty dataset is excluded rather than modelled. Converter.Converter.Convert requires it for the same reason.
- Converter.Converter.Convert: the returned table (line 87) is built without a schema, so its column order is the insertion order of `data_table`'s keys. The model's table is a map from column to values, so `rest` fixes the columns and their values but not their order. That call also raises when the leftover columns differ in length, i.e. when a key is missing from some of the last rows; `Convert` still returns `rest` in that case.
