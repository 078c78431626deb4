/** The record-level helpers of `ImageDataset`: image keys, per-channel
    paths, target values, partitions of the metadata and the visits of `scan`. */
module Records {
  import opened Results

  /** One record of the metadata index: column name -> cell text.
      Reading a column the record does not have is a KeyError. */
  datatype Row = Row(fields: map<string, string>)

  const PlateColumn := "Metadata_Plate"
  const WellColumn := "Metadata_Well"
  const SiteColumn := "Metadata_Site"
  const OutlinesColumn := "Outlines"

  // ---------------------------------------------------------------------
  // Image keys
  // ---------------------------------------------------------------------

  /** The key format of `read_dataset`'s keyGen: "{plate}/{well}-{site}". */
  function KeyOf(plate: string, well: string, site: string): string {
    plate + "/" + well + "-" + site
  }

  /** keyGen applied to a record; the three columns are read in order. */
  function ImageKey(r: Row): Result<string> {
    if PlateColumn !in r.fields then Err(PlateColumn)
    else if WellColumn !in r.fields then Err(WellColumn)
    else if SiteColumn !in r.fields then Err(SiteColumn)
    else Ok(KeyOf(r.fields[PlateColumn], r.fields[WellColumn], r.fields[SiteColumn]))
  }

  lemma ImageKeyColumns(r: Row)
    ensures ImageKey(r).Ok? <==> FirstMissing([PlateColumn, WellColumn, SiteColumn], r) == 3
    ensures ImageKey(r).Err? ==>
      ImageKey(r).error == [PlateColumn, WellColumn, SiteColumn][FirstMissing([PlateColumn, WellColumn, SiteColumn], r)]
  {
    var cols := [PlateColumn, WellColumn, SiteColumn];
    assert cols[1..] == [WellColumn, SiteColumn];
    assert cols[1..][1..] == [SiteColumn];
    assert cols[1..][1..][1..] == [];
    assert FirstMissing(cols[1..][1..][1..], r) == 0;
    assert FirstMissing(cols[1..][1..], r) == if SiteColumn in r.fields then 1 else 0;
    assert FirstMissing(cols[1..], r) == if WellColumn !in r.fields then 0 else 1 + FirstMissing(cols[1..][1..], r);
  }

  datatype KeyParts = KeyParts(plate: string, well: string, site: string)

  /** Position of the first `c` in `s`, or |s| when there is none. */
  function FirstIndex(s: string, c: char): (i: nat)
    ensures i <= |s|
    ensures forall j :: 0 <= j < i ==> s[j] != c
    ensures i < |s| ==> s[i] == c
  {
    if |s| == 0 then 0 else if s[0] == c then 0 else 1 + FirstIndex(s[1..], c)
  }

  /** Splits a key at its first '/' and then at the first '-' after it. */
  function ParseKey(k: string): Option<KeyParts> {
    var i := FirstIndex(k, '/');
    if i == |k| then None
    else
      var rest := k[i + 1..];
      var j := FirstIndex(rest, '-');
      if j == |rest| then None
      else Some(KeyParts(k[..i], rest[..j], rest[j + 1..]))
  }

  lemma FirstIndexAt(p: string, c: char, rest: string)
    requires c !in p
    ensures FirstIndex(p + [c] + rest, c) == |p|
  {
    var s := p + [c] + rest;
    assert s[|p|] == c;
    assert forall j :: 0 <= j < |p| ==> s[j] == p[j];
  }

  /** A key determines plate, well and site whenever the plate has no '/'
      and the well has no '-'. */
  lemma KeyRoundTrip(plate: string, well: string, site: string)
    requires '/' !in plate && '-' !in well
    ensures ParseKey(KeyOf(plate, well, site)) == Some(KeyParts(plate, well, site))
  {
    var tail := well + ['-'] + site;
    var k := KeyOf(plate, well, site);
    assert k == plate + ['/'] + tail;
    FirstIndexAt(plate, '/', tail);
    var rest := k[|plate| + 1..];
    assert rest == tail;
    FirstIndexAt(well, '-', site);
    assert rest[..|well|] == well;
    assert rest[|well| + 1..] == site;
    assert k[..|plate|] == plate;
  }

  /** Without that condition two different records can share a key. */
  lemma KeyCollision()
    ensures KeyOf("P", "A-1", "2") == KeyOf("P", "A", "1-2")
    ensures KeyParts("P", "A-1", "2") != KeyParts("P", "A", "1-2")
  {
  }

  // ---------------------------------------------------------------------
  // get_image_paths
  // ---------------------------------------------------------------------

  /** What `get_image_paths` reads from the dataset: the channel columns,
      the image root and the optional outline directory. */
  datatype PathConfig = PathConfig(channels: seq<string>, root: string, outlines: Option<string>)

  datatype ImagePaths = ImagePaths(key: string, images: seq<string>, outline: Option<string>)

  /** The columns `get_image_paths` reads, in the order it reads them. */
  function RequiredColumns(cfg: PathConfig): seq<string> {
    [PlateColumn, WellColumn, SiteColumn] + cfg.channels
      + (if cfg.outlines.Some? then [OutlinesColumn] else [])
  }

  /** Position of the first of `cols` that `r` lacks, or |cols|. */
  function FirstMissing(cols: seq<string>, r: Row): (i: nat)
    ensures i <= |cols|
    ensures forall j :: 0 <= j < i ==> cols[j] in r.fields
    ensures i < |cols| ==> cols[i] !in r.fields
  {
    if |cols| == 0 then 0 else if cols[0] !in r.fields then 0 else 1 + FirstMissing(cols[1..], r)
  }

  lemma {:induction false} FirstMissingAppend(a: seq<string>, b: seq<string>, r: Row)
    ensures FirstMissing(a + b, r) ==
      if FirstMissing(a, r) < |a| then FirstMissing(a, r) else |a| + FirstMissing(b, r)
  {
    if |a| > 0 {
      assert (a + b)[1..] == a[1..] + b;
      FirstMissingAppend(a[1..], b, r);
    } else {
      assert a + b == b;
    }
  }

  /** `[root + "/" + r[ch] for ch in channels]`; the first absent channel
      column raises. */
  function ChannelPaths(root: string, channels: seq<string>, r: Row): (p: Result<seq<string>>)
    ensures p.Ok? <==> FirstMissing(channels, r) == |channels|
    ensures p.Ok? ==> |p.value| == |channels|
    ensures p.Ok? ==> forall i :: 0 <= i < |channels| ==> p.value[i] == root + "/" + r.fields[channels[i]]
    ensures p.Err? ==> p.error == channels[FirstMissing(channels, r)]
  {
    if |channels| == 0 then Ok([])
    else if channels[0] !in r.fields then Err(channels[0])
    else
      var rest := ChannelPaths(root, channels[1..], r);
      if rest.Err? then Err(rest.error)
      else Ok([root + "/" + r.fields[channels[0]]] + rest.value)
  }

  /** `get_image_paths(r)`: the key, one path per channel, and the outline
      path `outlines + r["Outlines"]` only when outlines are configured.
      A missing column raises a KeyError naming the first column read that
      is absent. */
  function GetImagePaths(cfg: PathConfig, r: Row): (p: Result<ImagePaths>)
    ensures p.Ok? <==> FirstMissing(RequiredColumns(cfg), r) == |RequiredColumns(cfg)|
    ensures p.Ok? ==>
      && PlateColumn in r.fields && WellColumn in r.fields && SiteColumn in r.fields
      && p.value.key == KeyOf(r.fields[PlateColumn], r.fields[WellColumn], r.fields[SiteColumn])
    ensures p.Ok? ==> |p.value.images| == |cfg.channels|
    ensures p.Ok? ==> forall i :: 0 <= i < |cfg.channels| ==>
      cfg.channels[i] in r.fields && p.value.images[i] == cfg.root + "/" + r.fields[cfg.channels[i]]
    ensures p.Ok? ==> (cfg.outlines.None? ==> p.value.outline.None?)
    ensures p.Ok? ==> (cfg.outlines.Some? ==>
      OutlinesColumn in r.fields && p.value.outline == Some(cfg.outlines.value + r.fields[OutlinesColumn]))
    ensures p.Err? ==> p.error == RequiredColumns(cfg)[FirstMissing(RequiredColumns(cfg), r)]
  {
    var keyCols := [PlateColumn, WellColumn, SiteColumn];
    var outlineCols := if cfg.outlines.Some? then [OutlinesColumn] else [];
    FirstMissingAppend(keyCols, cfg.channels, r);
    FirstMissingAppend(keyCols + cfg.channels, outlineCols, r);
    assert RequiredColumns(cfg) == keyCols + cfg.channels + outlineCols;
    ImageKeyColumns(r);
    var key := ImageKey(r);
    if key.Err? then Err(key.error)
    else
      var images := ChannelPaths(cfg.root, cfg.channels, r);
      if images.Err? then Err(images.error)
      else if cfg.outlines.None? then
        Ok(ImagePaths(key.value, images.value, None))
      else if OutlinesColumn !in r.fields then
        Err(OutlinesColumn)
      else
        Ok(ImagePaths(key.value, images.value, Some(cfg.outlines.value + r.fields[OutlinesColumn])))
  }

  // ---------------------------------------------------------------------
  // Targets, images and locations as per-record values
  // ---------------------------------------------------------------------

  /** A `MetadataColumnTarget`: the column it encodes and its categories. */
  datatype Target = Target(column: string, categories: seq<string>)

  /** Stands for `t.get_values(r)`: the target's column and the record's
      value in it (the encoding itself is not part of this model). */
  datatype Encoded = Encoded(column: string, value: Option<string>)

  function GetValues(t: Target, r: Row): Encoded {
    Encoded(t.column, if t.column in r.fields then Some(r.fields[t.column]) else None)
  }

  /** `[t.get_values(r) for t in targets]`. */
  function TargetValues(targets: seq<Target>, r: Row): (v: seq<Encoded>)
    ensures |v| == |targets|
    ensures forall i :: 0 <= i < |targets| ==> v[i] == GetValues(targets[i], r)
  {
    seq(|targets|, i requires 0 <= i < |targets| => GetValues(targets[i], r))
  }

  /** Stands for the pixels `pixels.openImage(paths, outline)` returns. */
  datatype Image = Image(paths: seq<string>, outline: Option<string>)

  /** Stands for `boxes.get_locations(key, config, random_sample=n)`. */
  datatype Locations = Locations(key: string, randomSample: nat)

  // ---------------------------------------------------------------------
  // Metadata partitions, number_of_records and scan
  // ---------------------------------------------------------------------

  /** The metadata table and its two partitions, given as the index
      labels of their records; the table is read from CSV, so a record's
      label is its position in `data`. */
  datatype Metadata = Metadata(data: seq<Row>, train: seq<nat>, val: seq<nat>)

  ghost predicate InRange(labels: seq<nat>, n: nat) {
    forall k :: 0 <= k < |labels| ==> labels[k] < n
  }

  /** Labels of a partition: in range and in table order. */
  ghost predicate ValidLabels(labels: seq<nat>, n: nat) {
    && InRange(labels, n)
    && (forall k, l :: 0 <= k < l < |labels| ==> labels[k] < labels[l])
  }

  ghost predicate ValidMetadata(m: Metadata) {
    ValidLabels(m.train, |m.data|) && ValidLabels(m.val, |m.data|)
  }

  function AllLabels(n: nat): (labels: seq<nat>)
    ensures ValidLabels(labels, n) && |labels| == n
    ensures forall k :: 0 <= k < n ==> labels[k] == k
  {
    seq(n, i requires 0 <= i => i)
  }

  /** The partition `scan` iterates: "all", "val", and the training rows for
      any other frame name. */
  function FrameLabels(m: Metadata, frame: string): seq<nat> {
    if frame == "all" then AllLabels(|m.data|)
    else if frame == "val" then m.val
    else m.train
  }

  lemma FrameLabelsValid(m: Metadata, frame: string)
    requires ValidMetadata(m)
    ensures ValidLabels(FrameLabels(m, frame), |m.data|)
  {
  }

  function NumberOfRecords(m: Metadata, dataset: string): nat {
    if dataset == "all" then |m.data|
    else if dataset == "val" then |m.val|
    else if dataset == "train" then |m.train|
    else 0
  }

  /** `number_of_records` agrees with the size of the partition `scan`
      visits for the three partition names; for any other name it is 0
      although `scan` falls back to the training rows. */
  lemma NumberOfRecordsMatchesFrame(m: Metadata, dataset: string)
    ensures dataset in {"all", "val", "train"} ==> NumberOfRecords(m, dataset) == |FrameLabels(m, dataset)|
    ensures dataset !in {"all", "val", "train"} ==>
      NumberOfRecords(m, dataset) == 0 && FrameLabels(m, dataset) == m.train
  {
  }

  /** The records with the given labels. */
  function RowsOf(m: Metadata, labels: seq<nat>): (rows: seq<Row>)
    requires InRange(labels, |m.data|)
    ensures |rows| == |labels|
    ensures forall k :: 0 <= k < |labels| ==> rows[k] == m.data[labels[k]]
  {
    seq(|labels|, k requires 0 <= k < |labels| => m.data[labels[k]])
  }

  /** Position of the first record whose paths fail, or |rows|. */
  function FirstFailing(cfg: PathConfig, rows: seq<Row>): (k: nat)
    ensures k <= |rows|
    ensures forall j :: 0 <= j < k ==> GetImagePaths(cfg, rows[j]).Ok?
    ensures k < |rows| ==> GetImagePaths(cfg, rows[k]).Err?
  {
    if |rows| == 0 then 0
    else if GetImagePaths(cfg, rows[0]).Err? then 0
    else 1 + FirstFailing(cfg, rows[1..])
  }

  /** `[(i, get_image_paths(r), r) for i, r in frame]`: built for every
      record of the frame before any visit, so one record without the
      needed columns fails the whole scan with that record's KeyError. */
  function FramePaths(cfg: PathConfig, rows: seq<Row>): (p: Result<seq<ImagePaths>>)
    ensures p.Ok? <==> FirstFailing(cfg, rows) == |rows|
    ensures p.Ok? ==> |p.value| == |rows|
    ensures p.Ok? ==> forall k :: 0 <= k < |rows| ==> Ok(p.value[k]) == GetImagePaths(cfg, rows[k])
    ensures p.Err? ==> Err(p.error) == GetImagePaths(cfg, rows[FirstFailing(cfg, rows)])
  {
    if |rows| == 0 then Ok([])
    else
      var first := GetImagePaths(cfg, rows[0]);
      if first.Err? then Err(first.error)
      else
        var rest := FramePaths(cfg, rows[1..]);
        if rest.Err? then Err(rest.error)
        else Ok([first.value] + rest.value)
  }

  /** One call `f(index, image, meta)` made by `scan`. */
  datatype Visit = Visit(index: nat, image: Image, row: Row)

  function VisitAt(m: Metadata, labels: seq<nat>, paths: seq<ImagePaths>, k: nat): Visit
    requires k < |labels| == |paths| && labels[k] < |m.data|
  {
    Visit(labels[k], Image(paths[k].images, paths[k].outline), m.data[labels[k]])
  }

  /** The calls to `f`, in frame order, for the records where `check` holds. */
  function Visits(m: Metadata, labels: seq<nat>, paths: seq<ImagePaths>, check: Row -> bool): seq<Visit>
    requires |labels| == |paths|
    requires InRange(labels, |m.data|)
  {
    if |labels| == 0 then []
    else
      var n := |labels| - 1;
      var before := Visits(m, labels[..n], paths[..n], check);
      if check(m.data[labels[n]]) then before + [VisitAt(m, labels, paths, n)] else before
  }

  /** The frame positions whose record passes `check`, in order. */
  function CheckedPositions(m: Metadata, labels: seq<nat>, check: Row -> bool): seq<nat>
    requires InRange(labels, |m.data|)
  {
    if |labels| == 0 then []
    else
      var n := |labels| - 1;
      var before := CheckedPositions(m, labels[..n], check);
      if check(m.data[labels[n]]) then before + [n] else before
  }

  /** The checked positions are increasing frame positions, and a position
      is among them exactly when its record passes `check`. */
  lemma {:induction false} CheckedPositionsExact(m: Metadata, labels: seq<nat>, check: Row -> bool)
    requires InRange(labels, |m.data|)
    ensures var pos := CheckedPositions(m, labels, check);
      && (forall i :: 0 <= i < |pos| ==> pos[i] < |labels|)
      && (forall i, j :: 0 <= i < j < |pos| ==> pos[i] < pos[j])
      && (forall k :: 0 <= k < |labels| ==> (k in pos <==> check(m.data[labels[k]])))
  {
    if |labels| > 0 {
      var n := |labels| - 1;
      CheckedPositionsExact(m, labels[..n], check);
      assert forall k :: 0 <= k < n ==> labels[..n][k] == labels[k];
    }
  }

  /** The `i`-th call is the visit of the `i`-th checked position. */
  lemma {:induction false} VisitsAtPositions(m: Metadata, labels: seq<nat>, paths: seq<ImagePaths>, check: Row -> bool)
    requires |labels| == |paths|
    requires InRange(labels, |m.data|)
    ensures var v, pos := Visits(m, labels, paths, check), CheckedPositions(m, labels, check);
      && |v| == |pos|
      && (forall i :: 0 <= i < |pos| ==> pos[i] < |labels| && v[i] == VisitAt(m, labels, paths, pos[i]))
  {
    if |labels| > 0 {
      var n := |labels| - 1;
      VisitsAtPositions(m, labels[..n], paths[..n], check);
      var pos' := CheckedPositions(m, labels[..n], check);
      assert forall i :: 0 <= i < |pos'| ==> VisitAt(m, labels[..n], paths[..n], pos'[i]) == VisitAt(m, labels, paths, pos'[i]);
    }
  }

  /** `scan` calls `f` exactly once for each record of the frame that passes
      `check`, in frame order, and on no other record. */
  lemma VisitsFilter(m: Metadata, labels: seq<nat>, paths: seq<ImagePaths>, check: Row -> bool)
    requires |labels| == |paths|
    requires InRange(labels, |m.data|)
    ensures var v, pos := Visits(m, labels, paths, check), CheckedPositions(m, labels, check);
      && |v| == |pos|
      && (forall i :: 0 <= i < |pos| ==> pos[i] < |labels| && v[i] == VisitAt(m, labels, paths, pos[i]))
      && (forall i, j :: 0 <= i < j < |pos| ==> pos[i] < pos[j])
      && (forall k :: 0 <= k < |labels| ==> (k in pos <==> check(m.data[labels[k]])))
  {
    CheckedPositionsExact(m, labels, check);
    VisitsAtPositions(m, labels, paths, check);
  }
}
