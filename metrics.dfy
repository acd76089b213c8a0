/** The process-wide statistics counters, as pure functions over the counter map. */
module Metrics {
  import opened Values

  /** The global `metrics` dict: counter name to running total. */
  type Counters = map<string, int>

  /** The value a counter has, an untouched counter counting as 0. */
  function Count(m: Counters, key: string): int
  {
    if key in m then m[key] else 0
  }

  /** `update_metric(key, delta)`: a missing key starts at 0, the key then grows by `delta`,
      every other counter is left alone and no counter disappears. */
  function Bump(m: Counters, key: string, delta: int): (r: Counters)
    ensures r.Keys == m.Keys + {key}
    ensures Count(r, key) == Count(m, key) + delta
    ensures key !in m ==> r[key] == delta
    ensures forall k :: k != key ==> Count(r, k) == Count(m, k)
    ensures delta >= 0 ==> forall k :: k in m ==> m[k] <= r[k]
  {
    m[key := Count(m, key) + delta]
  }

  /** The counters that reading a sensor file touches. */
  const FileCounters: set<string> :=
    {"filecount", "filesize", "filecount-pcd", "filesize-pcd", "filecount-jpg", "filesize-jpg"}

  /** The six file counters are six different names. */
  lemma FileCounterNamesApart()
    ensures |FileCounters| == 6
    ensures "filecount" != "filesize" && "filecount" != "filecount-pcd" && "filecount" != "filesize-pcd"
    ensures "filecount" != "filecount-jpg" && "filecount" != "filesize-jpg"
    ensures "filesize" != "filecount-pcd" && "filesize" != "filesize-pcd"
    ensures "filesize" != "filecount-jpg" && "filesize" != "filesize-jpg"
    ensures "filecount-pcd" != "filesize-pcd" && "filecount-pcd" != "filecount-jpg" && "filecount-pcd" != "filesize-jpg"
    ensures "filesize-pcd" != "filecount-jpg" && "filesize-pcd" != "filesize-jpg"
    ensures "filecount-jpg" != "filesize-jpg"
  {
    assert "filecount"[5] != "filesize"[5];
    assert "filecount-pcd"[5] != "filesize-pcd"[5];
    assert "filecount-jpg"[5] != "filesize-jpg"[5];
    assert "filecount-pcd"[10] != "filecount-jpg"[10];
    assert "filesize-pcd"[9] != "filesize-jpg"[9];
  }

  /** The counter updates of `extend_file` for a file at `path` holding `size` bytes:
      every file bumps the total pair, a `.pcd` file also the point-cloud pair, otherwise
      a `.jpg` file also the image pair, any other suffix neither. */
  function FileMetrics(m: Counters, path: string, size: nat): (r: Counters)
    ensures Count(r, "filecount") == Count(m, "filecount") + 1
    ensures Count(r, "filesize") == Count(m, "filesize") + size
    ensures Count(r, "filecount-pcd") == Count(m, "filecount-pcd") + (if EndsWith(path, ".pcd") then 1 else 0)
    ensures Count(r, "filesize-pcd") == Count(m, "filesize-pcd") + (if EndsWith(path, ".pcd") then size else 0)
    ensures Count(r, "filecount-jpg") == Count(m, "filecount-jpg")
                                         + (if !EndsWith(path, ".pcd") && EndsWith(path, ".jpg") then 1 else 0)
    ensures Count(r, "filesize-jpg") == Count(m, "filesize-jpg")
                                        + (if !EndsWith(path, ".pcd") && EndsWith(path, ".jpg") then size else 0)
    ensures forall k :: k !in FileCounters ==> Count(r, k) == Count(m, k)
  {
    FileCounterNamesApart();
    var totals := BumpPair(m, "filecount", "filesize", size);
    if EndsWith(path, ".pcd") then
      BumpPair(totals, "filecount-pcd", "filesize-pcd", size)
    else if EndsWith(path, ".jpg") then
      BumpPair(totals, "filecount-jpg", "filesize-jpg", size)
    else
      totals
  }

  /** One file counted under a count/size counter pair: one more file, `size` more bytes. */
  function BumpPair(m: Counters, countKey: string, sizeKey: string, size: nat): (r: Counters)
    requires countKey != sizeKey
    ensures Count(r, countKey) == Count(m, countKey) + 1
    ensures Count(r, sizeKey) == Count(m, sizeKey) + size
    ensures forall k :: k != countKey && k != sizeKey ==> Count(r, k) == Count(m, k)
    ensures m.Keys <= r.Keys && forall k :: k in m ==> m[k] <= r[k]
  {
    Bump(Bump(m, countKey, 1), sizeKey, size)
  }

  /** What reading one file at `path` of `size` bytes adds to counter `key`, stated counter
      by counter: the total pair always, the point-cloud pair for a `.pcd` path, the image
      pair for a `.jpg` path that is not also `.pcd`, nothing to any other counter. */
  function FileDelta(key: string, path: string, size: nat): nat
  {
    var pcd := EndsWith(path, ".pcd");
    var jpg := !pcd && EndsWith(path, ".jpg");
    if key == "filecount" then 1
    else if key == "filesize" then size
    else if key == "filecount-pcd" then (if pcd then 1 else 0)
    else if key == "filesize-pcd" then (if pcd then size else 0)
    else if key == "filecount-jpg" then (if jpg then 1 else 0)
    else if key == "filesize-jpg" then (if jpg then size else 0)
    else 0
  }

  /** Every counter grows by exactly what `FileDelta` says one file adds to it. */
  lemma FileMetricsDelta(m: Counters, path: string, size: nat, key: string)
    ensures Count(FileMetrics(m, path, size), key) == Count(m, key) + FileDelta(key, path, size)
  {
    FileCounterNamesApart();
  }

  /** The scene and sample counters are two counters, and neither is a file counter. */
  lemma WalkCountersApart()
    ensures "sample" !in FileCounters && "scene" !in FileCounters
    ensures "sample" != "scene"
  {
    assert "sample"[1] != "scene"[1];
  }
}
