/** The row flattener: walks one sample's record graph through the record store and
    writes namespaced keys into one flat row. */
module Flatten {
  import opened Values
  import opened Metrics

  /** The record store: `nusc.get(kind, token)` is `db[(kind, token)]`. */
  type Db = map<(string, string), Dict>

  /** The sensor files on disk: full path to content. */
  type Files = map<string, seq<byte>>

  const SampleDataExcluded: set<string> :=
    {"ego_pose_token", "calibrated_sensor_token", "filename", "prev", "next"}
  const AnnotationExcluded: set<string> := {"instance_token", "attribute_tokens", "prev", "next"}
  const InstanceExcluded: set<string> := {"category_token"}
  const NoExclusions: set<string> := {}

  /** The key filter of every `extend_*` loop: not excluded by name, and no "token" inside. */
  predicate Kept(k: string, excluded: set<string>)
  {
    k !in excluded && !ContainsSub(k, "token")
  }

  /** `for k, v in rec.items(): if <kept>: into[prefix + k] = v`, pair by pair in order. */
  function CopyFields(rec: Dict, prefix: string, excluded: set<string>, into: Dict): Dict
  {
    if rec == [] then into
    else
      var acc := CopyFields(rec[..|rec| - 1], prefix, excluded, into);
      var (k, v) := rec[|rec| - 1];
      if Kept(k, excluded) then Put(acc, prefix + k, v) else acc
  }

  /** The keys that copying `rec` writes. */
  ghost function Renamed(rec: Dict, prefix: string, excluded: set<string>): set<string>
  {
    set k | k in Keys(rec) && Kept(k, excluded) :: prefix + k
  }

  predicate StrField(d: Dict, k: string)
  {
    k in Keys(d) && Get(d, k).Str?
  }

  function TokenOf(d: Dict, k: string): string
    requires StrField(d, k)
  {
    Get(d, k).s
  }

  // ---------------------------------------------------------------------------
  // What the source needs of the record graph: every lookup it makes hits and
  // every field it reads by name is present with the shape it uses; a miss is fatal.

  ghost predicate WfSampleData(db: Db, root: string, files: Files, token: string)
  {
    && ("sample_data", token) in db
    && var sd := db[("sample_data", token)];
    && StrField(sd, "ego_pose_token") && ("ego_pose", TokenOf(sd, "ego_pose_token")) in db
    && StrField(sd, "calibrated_sensor_token")
    && ("calibrated_sensor", TokenOf(sd, "calibrated_sensor_token")) in db
    && StrField(sd, "filename") && root + "/" + TokenOf(sd, "filename") in files
  }

  /** Every (sensor, token) pair of a sample's `data` dict names a usable sample_data record. */
  ghost predicate WfSensors(db: Db, root: string, files: Files, data: Dict)
  {
    forall i :: 0 <= i < |data| ==> data[i].1.Str? && WfSampleData(db, root, files, data[i].1.s)
  }

  ghost predicate WfAttributeTokens(db: Db, toks: seq<Value>)
  {
    forall i :: 0 <= i < |toks| ==> toks[i].Str? && ("attribute", toks[i].s) in db
  }

  ghost predicate WfInstance(db: Db, token: string)
  {
    && ("instance", token) in db
    && StrField(db[("instance", token)], "category_token")
    && ("category", TokenOf(db[("instance", token)], "category_token")) in db
  }

  ghost predicate WfAnnotation(db: Db, token: string)
  {
    && ("sample_annotation", token) in db
    && var sa := db[("sample_annotation", token)];
    && StrField(sa, "instance_token") && WfInstance(db, TokenOf(sa, "instance_token"))
    && "attribute_tokens" in Keys(sa) && Get(sa, "attribute_tokens").List?
    && WfAttributeTokens(db, Get(sa, "attribute_tokens").items)
  }

  ghost predicate WfAnnotationTokens(db: Db, toks: seq<Value>)
  {
    forall i :: 0 <= i < |toks| ==> toks[i].Str? && WfAnnotation(db, toks[i].s)
  }

  ghost predicate WfSample(db: Db, root: string, files: Files, token: string)
  {
    && ("sample", token) in db
    && var s := db[("sample", token)];
    && "data" in Keys(s) && Get(s, "data").Obj? && WfSensors(db, root, files, Get(s, "data").fields)
    && "anns" in Keys(s) && Get(s, "anns").List? && WfAnnotationTokens(db, Get(s, "anns").items)
    && StrField(s, "next")
  }

  // ---------------------------------------------------------------------------
  // The row of one sample, as the source builds it.

  function SampleDataOf(db: Db, token: string): Dict
    requires ("sample_data", token) in db
  {
    db[("sample_data", token)]
  }

  /** `data_root + '/' + sensor_data['filename']`. */
  function FilePath(db: Db, root: string, files: Files, token: string): string
    requires WfSampleData(db, root, files, token)
  {
    root + "/" + TokenOf(SampleDataOf(db, token), "filename")
  }

  /** One sensor's contribution: its sample_data fields, its ego pose, its calibration, its file. */
  function SensorRow(db: Db, root: string, files: Files, sensor: string, token: string, row: Dict): Dict
    requires WfSampleData(db, root, files, token)
  {
    var sd := SampleDataOf(db, token);
    var r1 := CopyFields(sd, sensor + "-", SampleDataExcluded, row);
    var r2 := CopyFields(db[("ego_pose", TokenOf(sd, "ego_pose_token"))], sensor + "-ego_pose-", NoExclusions, r1);
    var r3 := CopyFields(db[("calibrated_sensor", TokenOf(sd, "calibrated_sensor_token"))],
                         sensor + "-calibrated_sensor-", NoExclusions, r2);
    Put(r3, sensor + "-file", Bytes(files[FilePath(db, root, files, token)]))
  }

  /** `extend_sample_data`: the sensors' contributions in the order of the `data` dict. */
  function SampleDataRow(db: Db, root: string, files: Files, data: Dict, row: Dict): Dict
    requires WfSensors(db, root, files, data)
  {
    if data == [] then row
    else
      var n := |data| - 1;
      SensorRow(db, root, files, data[n].0, data[n].1.s, SampleDataRow(db, root, files, data[..n], row))
  }

  /** The counter updates of `extend_sample_data`: one file read per sensor, in order. */
  function SampleDataMetrics(m: Counters, db: Db, root: string, files: Files, data: Dict): (r: Counters)
    requires WfSensors(db, root, files, data)
    ensures Count(r, "filecount") == Count(m, "filecount") + |data|
    ensures Count(r, "filesize") == Count(m, "filesize") + SensorBytes(db, root, files, data)
    ensures forall k :: k !in FileCounters ==> Count(r, k) == Count(m, k)
  {
    if data == [] then m
    else
      var n := |data| - 1;
      var path := FilePath(db, root, files, data[n].1.s);
      FileMetrics(SampleDataMetrics(m, db, root, files, data[..n]), path, |files[path]|)
  }

  /** One more sensor of the `data` dict: its contribution on top of the earlier ones. */
  lemma SampleDataStep(m: Counters, db: Db, root: string, files: Files, data: Dict, row: Dict, i: nat)
    requires WfSensors(db, root, files, data) && i < |data|
    ensures WfSensors(db, root, files, data[..i]) && WfSensors(db, root, files, data[..i + 1])
    ensures var path := FilePath(db, root, files, data[i].1.s);
      SampleDataMetrics(m, db, root, files, data[..i + 1])
      == FileMetrics(SampleDataMetrics(m, db, root, files, data[..i]), path, |files[path]|)
    ensures SampleDataRow(db, root, files, data[..i + 1], row)
            == SensorRow(db, root, files, data[i].0, data[i].1.s, SampleDataRow(db, root, files, data[..i], row))
  {
    assert data[..i + 1][..i] == data[..i];
  }

  /** The total byte length of the sensors' files. */
  function SensorBytes(db: Db, root: string, files: Files, data: Dict): nat
    requires WfSensors(db, root, files, data)
  {
    if data == [] then 0
    else
      var n := |data| - 1;
      SensorBytes(db, root, files, data[..n]) + |files[FilePath(db, root, files, data[n].1.s)]|
  }

  /** What the sensors' files add to counter `key`, file by file. */
  function SensorsDelta(db: Db, root: string, files: Files, data: Dict, key: string): nat
    requires WfSensors(db, root, files, data)
  {
    if data == [] then 0
    else
      var n := |data| - 1;
      var path := FilePath(db, root, files, data[n].1.s);
      SensorsDelta(db, root, files, data[..n], key) + FileDelta(key, path, |files[path]|)
  }

  /** Every counter grows by what the sensors' files add to it. */
  lemma {:induction false} SampleDataDelta(m: Counters, db: Db, root: string, files: Files, data: Dict, key: string)
    requires WfSensors(db, root, files, data)
    ensures Count(SampleDataMetrics(m, db, root, files, data), key)
            == Count(m, key) + SensorsDelta(db, root, files, data, key)
  {
    if data != [] {
      var n := |data| - 1;
      var path := FilePath(db, root, files, data[n].1.s);
      SampleDataDelta(m, db, root, files, data[..n], key);
      FileMetricsDelta(SampleDataMetrics(m, db, root, files, data[..n]), path, |files[path]|, key);
    }
  }

  /** `extend_attribute_token`: the attribute's fields without "token" in their name. */
  function AttributeDict(db: Db, token: string): Dict
    requires ("attribute", token) in db
  {
    CopyFields(db[("attribute", token)], "", NoExclusions, [])
  }

  /** The `attributes` list: one resolved attribute per token, in token order. */
  function AttributeList(db: Db, toks: seq<Value>): seq<Value>
    requires WfAttributeTokens(db, toks)
  {
    seq(|toks|, i requires 0 <= i < |toks| && WfAttributeTokens(db, toks) => Obj(AttributeDict(db, toks[i].s)))
  }

  function AnnotationRecord(db: Db, token: string): Dict
    requires WfAnnotation(db, token)
  {
    db[("sample_annotation", token)]
  }

  function InstanceRecord(db: Db, token: string): Dict
    requires WfAnnotation(db, token)
  {
    db[("instance", TokenOf(AnnotationRecord(db, token), "instance_token"))]
  }

  function CategoryRecord(db: Db, token: string): Dict
    requires WfAnnotation(db, token)
  {
    db[("category", TokenOf(InstanceRecord(db, token), "category_token"))]
  }

  function AttributeTokens(db: Db, token: string): seq<Value>
    requires WfAnnotation(db, token)
  {
    Get(AnnotationRecord(db, token), "attribute_tokens").items
  }

  /** `extend_instance`: the instance's token-free fields, unprefixed, then the category record. */
  function InstanceFields(db: Db, token: string, ann: Dict): Dict
    requires WfInstance(db, token)
  {
    var inst := db[("instance", token)];
    Put(CopyFields(inst, "", InstanceExcluded, ann), "category",
        Obj(db[("category", TokenOf(inst, "category_token"))]))
  }

  /** `extend_sample_ann`: the annotation fields under "ann-", the instance, the attributes. */
  function AnnotationDict(db: Db, token: string): Dict
    requires WfAnnotation(db, token)
  {
    var sa := AnnotationRecord(db, token);
    var a1 := CopyFields(sa, "ann-", AnnotationExcluded, []);
    var a2 := InstanceFields(db, TokenOf(sa, "instance_token"), a1);
    Put(a2, "attributes", List(AttributeList(db, AttributeTokens(db, token))))
  }

  /** The `sample_annotations` list: one annotation per token, in token order. */
  function AnnotationList(db: Db, toks: seq<Value>): (r: seq<Value>)
    requires WfAnnotationTokens(db, toks)
    ensures |r| == |toks|
  {
    if toks == [] then []
    else
      var n := |toks| - 1;
      AnnotationTokensPrefix(db, toks, n);
      AnnotationList(db, toks[..n]) + [Obj(AnnotationDict(db, toks[n].s))]
  }

  lemma AnnotationTokensPrefix(db: Db, toks: seq<Value>, n: nat)
    requires WfAnnotationTokens(db, toks) && n <= |toks|
    ensures WfAnnotationTokens(db, toks[..n])
  {
    assert forall j :: 0 <= j < n ==> toks[..n][j] == toks[j];
  }

  /** Entry `i` of the annotation list is the annotation of token `i`. */
  lemma {:induction false} AnnotationListAt(db: Db, toks: seq<Value>, i: nat)
    requires WfAnnotationTokens(db, toks) && i < |toks|
    ensures AnnotationList(db, toks)[i] == Obj(AnnotationDict(db, toks[i].s))
  {
    var n := |toks| - 1;
    AnnotationTokensPrefix(db, toks, n);
    var prev := AnnotationList(db, toks[..n]);
    assert AnnotationList(db, toks) == prev + [Obj(AnnotationDict(db, toks[n].s))];
    if i < n {
      AnnotationListAt(db, toks[..n], i);
      assert toks[..n][i] == toks[i];
    } else {
      assert i == n;
    }
  }

  function SampleRecord(db: Db, root: string, files: Files, token: string): Dict
    requires WfSample(db, root, files, token)
  {
    db[("sample", token)]
  }

  function SensorsOf(db: Db, root: string, files: Files, token: string): Dict
    requires WfSample(db, root, files, token)
  {
    Get(SampleRecord(db, root, files, token), "data").fields
  }

  function AnnotationTokens(db: Db, root: string, files: Files, token: string): seq<Value>
    requires WfSample(db, root, files, token)
  {
    Get(SampleRecord(db, root, files, token), "anns").items
  }

  /** `sample['next']`, which `extend_sample` returns. */
  function NextToken(db: Db, root: string, files: Files, token: string): string
    requires WfSample(db, root, files, token)
  {
    TokenOf(SampleRecord(db, root, files, token), "next")
  }

  /** The flat row `extend_sample` builds: sensor columns, then the annotation list. */
  function SampleRow(db: Db, root: string, files: Files, token: string): Dict
    requires WfSample(db, root, files, token)
  {
    Put(SampleDataRow(db, root, files, SensorsOf(db, root, files, token), []),
        "sample_annotations", List(AnnotationList(db, AnnotationTokens(db, root, files, token))))
  }

  /** The counter updates `extend_sample` causes (all through `extend_file`). */
  function SampleFileMetrics(m: Counters, db: Db, root: string, files: Files, token: string): (r: Counters)
    requires WfSample(db, root, files, token)
    ensures Count(r, "filecount") == Count(m, "filecount") + |SensorsOf(db, root, files, token)|
    ensures Count(r, "filesize") == Count(m, "filesize") + SensorBytes(db, root, files, SensorsOf(db, root, files, token))
    ensures forall k :: k !in FileCounters ==> Count(r, k) == Count(m, k)
  {
    SampleDataMetrics(m, db, root, files, SensorsOf(db, root, files, token))
  }

  // ---------------------------------------------------------------------------
  // Properties of the key filter and prefixing.

  lemma PrefixInjective(p: string, a: string, b: string)
    requires p + a == p + b
    ensures a == b
  {
    assert a == (p + a)[|p|..];
  }

  /** `prefix + k` is a written key exactly when `k` is a kept key of the record. */
  lemma RenamedHas(rec: Dict, prefix: string, excluded: set<string>, k: string)
    ensures prefix + k in Renamed(rec, prefix, excluded) <==> k in Keys(rec) && Kept(k, excluded)
  {
    if prefix + k in Renamed(rec, prefix, excluded) {
      var k' :| k' in Keys(rec) && Kept(k', excluded) && prefix + k' == prefix + k;
      PrefixInjective(prefix, k', k);
    }
  }

  /** Copying adds exactly the renamed kept keys of the record to the dict. */
  lemma {:induction false} CopyFieldsKeys(rec: Dict, prefix: string, excluded: set<string>, into: Dict)
    ensures Keys(CopyFields(rec, prefix, excluded, into)) == Keys(into) + Renamed(rec, prefix, excluded)
  {
    if rec != [] {
      var n := |rec| - 1;
      CopyFieldsKeys(rec[..n], prefix, excluded, into);
      assert Keys(rec) == Keys(rec[..n]) + {rec[n].0};
      if Kept(rec[n].0, excluded) {
        assert Renamed(rec, prefix, excluded) == Renamed(rec[..n], prefix, excluded) + {prefix + rec[n].0};
      } else {
        assert Renamed(rec, prefix, excluded) == Renamed(rec[..n], prefix, excluded);
      }
    }
  }

  /** A kept field of the record ends up under its prefixed name, with its value unchanged. */
  lemma {:induction false} CopyFieldsValue(rec: Dict, prefix: string, excluded: set<string>, into: Dict, k: string)
    requires Distinct(rec) && k in Keys(rec) && Kept(k, excluded)
    ensures prefix + k in Keys(CopyFields(rec, prefix, excluded, into))
    ensures Get(CopyFields(rec, prefix, excluded, into), prefix + k) == Get(rec, k)
  {
    var n := |rec| - 1;
    var acc := CopyFields(rec[..n], prefix, excluded, into);
    CopyFieldsKeys(rec, prefix, excluded, into);
    RenamedHas(rec, prefix, excluded, k);
    if rec[n].0 == k {
      KeysAt(rec[..n], k);
      PutGet(acc, prefix + k, rec[n].1);
    } else {
      assert k in Keys(rec[..n]);
      CopyFieldsValue(rec[..n], prefix, excluded, into, k);
      if Kept(rec[n].0, excluded) {
        if prefix + rec[n].0 == prefix + k { PrefixInjective(prefix, rec[n].0, k); }
        PutGet(acc, prefix + rec[n].0, rec[n].1);
      }
    }
  }

  /** A key the record does not write keeps the value it had. */
  lemma {:induction false} CopyFieldsElsewhere(rec: Dict, prefix: string, excluded: set<string>, into: Dict, key: string)
    requires key !in Renamed(rec, prefix, excluded) && key in Keys(into)
    ensures key in Keys(CopyFields(rec, prefix, excluded, into))
    ensures Get(CopyFields(rec, prefix, excluded, into), key) == Get(into, key)
  {
    CopyFieldsKeys(rec, prefix, excluded, into);
    if rec != [] {
      var n := |rec| - 1;
      var acc := CopyFields(rec[..n], prefix, excluded, into);
      assert Keys(rec[..n]) <= Keys(rec);
      assert Renamed(rec[..n], prefix, excluded) <= Renamed(rec, prefix, excluded);
      CopyFieldsElsewhere(rec[..n], prefix, excluded, into, key);
      if Kept(rec[n].0, excluded) {
        RenamedHas(rec, prefix, excluded, rec[n].0);
        PutGet(acc, prefix + rec[n].0, rec[n].1);
      }
    }
  }

  /** Copying into a dict with unique keys keeps its keys unique. */
  lemma {:induction false} CopyFieldsDistinct(rec: Dict, prefix: string, excluded: set<string>, into: Dict)
    requires Distinct(into)
    ensures Distinct(CopyFields(rec, prefix, excluded, into))
  {
    if rec != [] {
      var n := |rec| - 1;
      CopyFieldsDistinct(rec[..n], prefix, excluded, into);
      if Kept(rec[n].0, excluded) {
        PutDistinct(CopyFields(rec[..n], prefix, excluded, into), prefix + rec[n].0, rec[n].1);
      }
    }
  }

  /** The copy rule of one record, for any prefix and exclusion set: `prefix + k` is in the
      result iff it was there before or `k` is a kept field; a kept field keeps its value;
      no key other than a renamed kept field is added. */
  lemma FieldCopied(rec: Dict, prefix: string, excluded: set<string>, row: Dict, k: string)
    requires Distinct(rec)
    ensures var r := CopyFields(rec, prefix, excluded, row);
      && (prefix + k in Keys(r) <==> prefix + k in Keys(row) || (k in Keys(rec) && Kept(k, excluded)))
      && (k in Keys(rec) && Kept(k, excluded) ==> prefix + k in Keys(r) && Get(r, prefix + k) == Get(rec, k))
      && Keys(r) - Keys(row) <= Renamed(rec, prefix, excluded)
  {
    CopyFieldsKeys(rec, prefix, excluded, row);
    RenamedHas(rec, prefix, excluded, k);
    if k in Keys(rec) && Kept(k, excluded) {
      CopyFieldsValue(rec, prefix, excluded, row, k);
    }
  }

  /** A sample_data field `k` is written as `sensor-k`, value unchanged, exactly when `k` is not
      one of ego_pose_token, calibrated_sensor_token, filename, prev, next and holds no "token".
      This is about the copy step alone, not the finished row: a later write (another sensor,
      an ego-pose or calibration field, or `sensor-file`) may still overwrite that key. */
  lemma SampleDataFieldCopied(sd: Dict, sensor: string, row: Dict, k: string)
    requires Distinct(sd) && sensor + "-" + k !in Keys(row)
    ensures var r := CopyFields(sd, sensor + "-", SampleDataExcluded, row);
      && (sensor + "-" + k in Keys(r) <==>
            k in Keys(sd) && k !in SampleDataExcluded && !ContainsSub(k, "token"))
      && (sensor + "-" + k in Keys(r) ==> Get(r, sensor + "-" + k) == Get(sd, k))
  {
    FieldCopied(sd, sensor + "-", SampleDataExcluded, row, k);
  }

  /** Ego-pose and calibrated-sensor fields are written under `sensor-<kind>-k` exactly when
      `k` holds no "token". Like `SampleDataFieldCopied`, this is about the copy step alone:
      a later write of the same sample may still overwrite that key. */
  lemma PoseFieldCopied(rec: Dict, sensor: string, kind: string, row: Dict, k: string)
    requires Distinct(rec) && kind in {"ego_pose", "calibrated_sensor"}
    requires sensor + "-" + kind + "-" + k !in Keys(row)
    ensures var r := CopyFields(rec, sensor + "-" + kind + "-", NoExclusions, row);
      && (sensor + "-" + kind + "-" + k in Keys(r) <==> k in Keys(rec) && !ContainsSub(k, "token"))
      && (sensor + "-" + kind + "-" + k in Keys(r) ==> Get(r, sensor + "-" + kind + "-" + k) == Get(rec, k))
  {
    FieldCopied(rec, sensor + "-" + kind + "-", NoExclusions, row, k);
  }

  /** An attribute dict holds exactly the attribute record's fields without "token" in
      their name, each with its value. */
  lemma AttributeDictExact(db: Db, token: string)
    requires ("attribute", token) in db && Distinct(db[("attribute", token)])
    ensures var attr := db[("attribute", token)];
      && (forall k :: k in Keys(AttributeDict(db, token)) <==> k in Keys(attr) && !ContainsSub(k, "token"))
      && forall k :: k in Keys(attr) && !ContainsSub(k, "token") ==>
           k in Keys(AttributeDict(db, token)) && Get(AttributeDict(db, token), k) == Get(attr, k)
  {
    var attr := db[("attribute", token)];
    var r := AttributeDict(db, token);
    CopyFieldsKeys(attr, "", NoExclusions, []);
    assert Keys(r) == Renamed(attr, "", NoExclusions);
    forall k ensures k in Keys(r) <==> k in Keys(attr) && !ContainsSub(k, "token") {
      RenamedHas(attr, "", NoExclusions, k);
      assert "" + k == k;
    }
    forall k | k in Keys(attr) && !ContainsSub(k, "token")
      ensures k in Keys(r) && Get(r, k) == Get(attr, k)
    {
      CopyFieldsValue(attr, "", NoExclusions, [], k);
      assert "" + k == k;
    }
  }

  /** The keys of an annotation dict: the kept annotation fields under "ann-", the kept
      instance fields unprefixed, "category" and "attributes"; the last two hold the resolved
      category record, unfiltered, and the attribute list. */
  lemma AnnotationShape(db: Db, token: string)
    requires WfAnnotation(db, token)
    ensures var a := AnnotationDict(db, token);
      && Keys(a) == Renamed(AnnotationRecord(db, token), "ann-", AnnotationExcluded)
                    + Renamed(InstanceRecord(db, token), "", InstanceExcluded) + {"category", "attributes"}
      && Get(a, "category") == Obj(CategoryRecord(db, token))
      && Get(a, "attributes") == List(AttributeList(db, AttributeTokens(db, token)))
  {
    var sa := AnnotationRecord(db, token);
    var inst := InstanceRecord(db, token);
    var a1 := CopyFields(sa, "ann-", AnnotationExcluded, []);
    var a2 := CopyFields(inst, "", InstanceExcluded, a1);
    var a3 := Put(a2, "category", Obj(CategoryRecord(db, token)));
    CopyFieldsKeys(sa, "ann-", AnnotationExcluded, []);
    CopyFieldsKeys(inst, "", InstanceExcluded, a1);
    PutGet(a2, "category", Obj(CategoryRecord(db, token)));
    PutGet(a3, "attributes", List(AttributeList(db, AttributeTokens(db, token))));
  }

  /** A kept annotation field is stored under "ann-" with its value, unless an instance field
      of that very name overrides it. */
  lemma AnnotationFieldCopied(db: Db, token: string, k: string)
    requires WfAnnotation(db, token) && Distinct(AnnotationRecord(db, token))
    requires k in Keys(AnnotationRecord(db, token)) && Kept(k, AnnotationExcluded)
    requires "ann-" + k !in Keys(InstanceRecord(db, token))
    ensures "ann-" + k in Keys(AnnotationDict(db, token))
    ensures Get(AnnotationDict(db, token), "ann-" + k) == Get(AnnotationRecord(db, token), k)
  {
    var sa := AnnotationRecord(db, token);
    var inst := InstanceRecord(db, token);
    var a1 := CopyFields(sa, "ann-", AnnotationExcluded, []);
    var a2 := CopyFields(inst, "", InstanceExcluded, a1);
    var a3 := Put(a2, "category", Obj(CategoryRecord(db, token)));
    var key := "ann-" + k;
    CopyFieldsValue(sa, "ann-", AnnotationExcluded, [], k);
    RenamedHas(inst, "", InstanceExcluded, key);
    assert "" + key == key;
    CopyFieldsElsewhere(inst, "", InstanceExcluded, a1, key);
    PrefixedApart(k);
    PutGet(a2, "category", Obj(CategoryRecord(db, token)));
    PutGet(a3, "attributes", List(AttributeList(db, AttributeTokens(db, token))));
  }

  /** A field renamed with the "ann-" prefix cannot clash with the two fields written last. */
  lemma PrefixedApart(k: string)
    ensures "ann-" + k != "category" && "ann-" + k != "attributes"
  {
    assert ("ann-" + k)[1] == 'n';
    assert "category"[1] == 'a';
    assert "attributes"[1] == 't';
  }

  /** A kept instance field is stored unprefixed with its value, unless it is named
      "category" or "attributes", which are written after it. */
  lemma InstanceFieldCopied(db: Db, token: string, k: string)
    requires WfAnnotation(db, token) && Distinct(InstanceRecord(db, token))
    requires k in Keys(InstanceRecord(db, token)) && Kept(k, InstanceExcluded)
    requires k != "category" && k != "attributes"
    ensures k in Keys(AnnotationDict(db, token))
    ensures Get(AnnotationDict(db, token), k) == Get(InstanceRecord(db, token), k)
  {
    var sa := AnnotationRecord(db, token);
    var inst := InstanceRecord(db, token);
    var a1 := CopyFields(sa, "ann-", AnnotationExcluded, []);
    var a2 := CopyFields(inst, "", InstanceExcluded, a1);
    var a3 := Put(a2, "category", Obj(CategoryRecord(db, token)));
    CopyFieldsValue(inst, "", InstanceExcluded, a1, k);
    assert "" + k == k;
    PutGet(a2, "category", Obj(CategoryRecord(db, token)));
    PutGet(a3, "attributes", List(AttributeList(db, AttributeTokens(db, token))));
  }

  /** Every row the flattener builds has unique keys. */
  lemma {:induction false} SampleDataRowDistinct(db: Db, root: string, files: Files, data: Dict, row: Dict)
    requires WfSensors(db, root, files, data) && Distinct(row)
    ensures Distinct(SampleDataRow(db, root, files, data, row))
  {
    if data != [] {
      var n := |data| - 1;
      SampleDataRowDistinct(db, root, files, data[..n], row);
      var token := data[n].1.s;
      var sensor := data[n].0;
      var sd := SampleDataOf(db, token);
      var r0 := SampleDataRow(db, root, files, data[..n], row);
      var r1 := CopyFields(sd, sensor + "-", SampleDataExcluded, r0);
      var r2 := CopyFields(db[("ego_pose", TokenOf(sd, "ego_pose_token"))], sensor + "-ego_pose-", NoExclusions, r1);
      var r3 := CopyFields(db[("calibrated_sensor", TokenOf(sd, "calibrated_sensor_token"))],
                           sensor + "-calibrated_sensor-", NoExclusions, r2);
      CopyFieldsDistinct(sd, sensor + "-", SampleDataExcluded, r0);
      CopyFieldsDistinct(db[("ego_pose", TokenOf(sd, "ego_pose_token"))], sensor + "-ego_pose-", NoExclusions, r1);
      CopyFieldsDistinct(db[("calibrated_sensor", TokenOf(sd, "calibrated_sensor_token"))],
                         sensor + "-calibrated_sensor-", NoExclusions, r2);
      PutDistinct(r3, sensor + "-file", Bytes(files[FilePath(db, root, files, token)]));
    }
  }

  /** A sample's row has unique keys and always carries the annotation list. */
  lemma SampleRowShape(db: Db, root: string, files: Files, token: string)
    requires WfSample(db, root, files, token)
    ensures Distinct(SampleRow(db, root, files, token))
    ensures "sample_annotations" in Keys(SampleRow(db, root, files, token))
    ensures Get(SampleRow(db, root, files, token), "sample_annotations")
            == List(AnnotationList(db, AnnotationTokens(db, root, files, token)))
  {
    var r := SampleDataRow(db, root, files, SensorsOf(db, root, files, token), []);
    SampleDataRowDistinct(db, root, files, SensorsOf(db, root, files, token), []);
    var anns := List(AnnotationList(db, AnnotationTokens(db, root, files, token)));
    PutDistinct(r, "sample_annotations", anns);
    PutGet(r, "sample_annotations", anns);
  }

  // ---------------------------------------------------------------------------
  // The flattening steps that do not touch the counters.

  /** The copy loop every `extend_*` function runs over a record's items. */
  method CopyInto(rec: Dict, prefix: string, excluded: set<string>, into: Dict) returns (out: Dict)
    ensures out == CopyFields(rec, prefix, excluded, into)
  {
    out := into;
    for i := 0 to |rec|
      invariant out == CopyFields(rec[..i], prefix, excluded, into)
    {
      var (k, v) := rec[i];
      assert rec[..i + 1][..i] == rec[..i];
      if Kept(k, excluded) {
        out := Put(out, prefix + k, v);
      }
    }
    assert rec[..|rec|] == rec;
  }

  /** `extend_ego_pose`: the pose's token-free fields under `sensor-ego_pose-`. */
  method ExtendEgoPose(db: Db, token: string, sensor: string, row: Dict) returns (out: Dict)
    requires ("ego_pose", token) in db
    ensures out == CopyFields(db[("ego_pose", token)], sensor + "-ego_pose-", NoExclusions, row)
    ensures Keys(out) == Keys(row) + Renamed(db[("ego_pose", token)], sensor + "-ego_pose-", NoExclusions)
  {
    out := CopyInto(db[("ego_pose", token)], sensor + "-ego_pose-", NoExclusions, row);
    CopyFieldsKeys(db[("ego_pose", token)], sensor + "-ego_pose-", NoExclusions, row);
  }

  /** `extend_calibrated_sensor`: the calibration's token-free fields under
      `sensor-calibrated_sensor-`. */
  method ExtendCalibratedSensor(db: Db, token: string, sensor: string, row: Dict) returns (out: Dict)
    requires ("calibrated_sensor", token) in db
    ensures out == CopyFields(db[("calibrated_sensor", token)], sensor + "-calibrated_sensor-", NoExclusions, row)
    ensures Keys(out) == Keys(row) + Renamed(db[("calibrated_sensor", token)], sensor + "-calibrated_sensor-", NoExclusions)
  {
    out := CopyInto(db[("calibrated_sensor", token)], sensor + "-calibrated_sensor-", NoExclusions, row);
    CopyFieldsKeys(db[("calibrated_sensor", token)], sensor + "-calibrated_sensor-", NoExclusions, row);
  }

  /** `extend_attribute_token`. */
  method ExtendAttributeToken(db: Db, token: string) returns (attr: Dict)
    requires ("attribute", token) in db
    ensures attr == AttributeDict(db, token)
    ensures Keys(attr) == Renamed(db[("attribute", token)], "", NoExclusions)
  {
    attr := CopyInto(db[("attribute", token)], "", NoExclusions, []);
    CopyFieldsKeys(db[("attribute", token)], "", NoExclusions, []);
  }

  /** `extend_attribute_tokens`: the attribute list, one entry per token in token order,
      stored under "attributes". */
  method ExtendAttributeTokens(db: Db, toks: seq<Value>, ann: Dict) returns (out: Dict)
    requires WfAttributeTokens(db, toks)
    ensures out == Put(ann, "attributes", List(AttributeList(db, toks)))
    ensures "attributes" in Keys(out) && Get(out, "attributes").List?
    ensures var attrs := Get(out, "attributes").items;
      |attrs| == |toks| && forall i :: 0 <= i < |toks| ==> attrs[i] == Obj(AttributeDict(db, toks[i].s))
    ensures forall k :: k in Keys(ann) && k != "attributes" ==> k in Keys(out) && Get(out, k) == Get(ann, k)
  {
    var attrs: seq<Value> := [];
    for i := 0 to |toks|
      invariant |attrs| == i
      invariant forall j :: 0 <= j < i ==> attrs[j] == Obj(AttributeDict(db, toks[j].s))
    {
      var attr := ExtendAttributeToken(db, toks[i].s);
      attrs := attrs + [Obj(attr)];
    }
    assert attrs == AttributeList(db, toks);
    out := Put(ann, "attributes", List(attrs));
    PutGet(ann, "attributes", List(attrs));
  }

  /** `extend_instance`: the instance's kept fields unprefixed, then the category record,
      unfiltered, under "category". */
  method ExtendInstance(db: Db, token: string, ann: Dict) returns (out: Dict)
    requires WfInstance(db, token)
    ensures out == InstanceFields(db, token, ann)
    ensures Keys(out) == Keys(ann) + Renamed(db[("instance", token)], "", InstanceExcluded) + {"category"}
    ensures Get(out, "category") == Obj(db[("category", TokenOf(db[("instance", token)], "category_token"))])
  {
    var inst := db[("instance", token)];
    out := CopyInto(inst, "", InstanceExcluded, ann);
    CopyFieldsKeys(inst, "", InstanceExcluded, ann);
    var category := db[("category", TokenOf(inst, "category_token"))];
    PutGet(out, "category", Obj(category));
    out := Put(out, "category", Obj(category));
  }

  /** `extend_sample_ann`. */
  method ExtendSampleAnn(db: Db, token: string) returns (ann: Dict)
    requires WfAnnotation(db, token)
    ensures ann == AnnotationDict(db, token)
    ensures Keys(ann) == Renamed(AnnotationRecord(db, token), "ann-", AnnotationExcluded)
                         + Renamed(InstanceRecord(db, token), "", InstanceExcluded) + {"category", "attributes"}
  {
    var sa := db[("sample_annotation", token)];
    ann := CopyInto(sa, "ann-", AnnotationExcluded, []);
    ann := ExtendInstance(db, TokenOf(sa, "instance_token"), ann);
    ann := ExtendAttributeTokens(db, Get(sa, "attribute_tokens").items, ann);
    AnnotationShape(db, token);
  }

  /** The annotation list of one more token is one more annotation. */
  lemma AnnotationListStep(db: Db, anns: seq<Value>, i: nat)
    requires WfAnnotationTokens(db, anns) && i < |anns|
    ensures WfAnnotationTokens(db, anns[..i]) && WfAnnotationTokens(db, anns[..i + 1])
    ensures AnnotationList(db, anns[..i + 1]) == AnnotationList(db, anns[..i]) + [Obj(AnnotationDict(db, anns[i].s))]
  {
    AnnotationTokensPrefix(db, anns, i + 1);
    assert anns[..i + 1][..i] == anns[..i];
  }

  /** `extend_sample_anns`: the annotation list, one entry per token in token order,
      stored under "sample_annotations". */
  method ExtendSampleAnns(db: Db, anns: seq<Value>, row: Dict) returns (out: Dict)
    requires WfAnnotationTokens(db, anns)
    ensures out == Put(row, "sample_annotations", List(AnnotationList(db, anns)))
    ensures "sample_annotations" in Keys(out) && Get(out, "sample_annotations").List?
    ensures var list := Get(out, "sample_annotations").items;
      |list| == |anns| && forall i :: 0 <= i < |anns| ==> list[i] == Obj(AnnotationDict(db, anns[i].s))
    ensures forall k :: k in Keys(row) && k != "sample_annotations" ==> k in Keys(out) && Get(out, k) == Get(row, k)
  {
    var annTokens: seq<Value> := [];
    for i := 0 to |anns|
      invariant WfAnnotationTokens(db, anns[..i])
      invariant annTokens == AnnotationList(db, anns[..i])
    {
      AnnotationListStep(db, anns, i);
      var ann := ExtendSampleAnn(db, anns[i].s);
      annTokens := annTokens + [Obj(ann)];
    }
    assert anns[..|anns|] == anns;
    out := Put(row, "sample_annotations", List(annTokens));
    PutGet(row, "sample_annotations", List(annTokens));
    forall i | 0 <= i < |anns|
      ensures annTokens[i] == Obj(AnnotationDict(db, anns[i].s))
    {
      AnnotationListAt(db, anns, i);
    }
  }
}
