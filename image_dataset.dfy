/** `ImageLocations` and `ImageDataset`: the per-record lists built for
    location loading, and the training-sample cursor that serves worker
    batches. Pixel and location reads are represented by the `Image` and
    `Locations` values naming what would be read. */
module ImageDatasets {
  import opened Results
  import opened Records
  import opened Sampling
  import opened BatchCursor

  /** The dictionary `get_train_batch` returns. */
  datatype Batch = Batch(keys: seq<string>, images: seq<Image>, targets: seq<seq<Encoded>>, locations: seq<Locations>)

  /** One entry of a batch for record `r`: its key, the image read from its
      paths, its target values and the locations sampled for its key. */
  ghost predicate EntryOf(cfg: PathConfig, targets: seq<Target>, sampleLocations: nat, r: Row,
                          key: string, image: Image, t: seq<Encoded>, loc: Locations) {
    && GetImagePaths(cfg, r) == Ok(ImagePaths(key, image.paths, image.outline))
    && t == TargetValues(targets, r)
    && loc == Locations(key, sampleLocations)
  }

  /** `b` holds one entry per record, in record order, in each of its four
      lists. */
  ghost predicate IsBatchOf(cfg: PathConfig, targets: seq<Target>, sampleLocations: nat, rows: seq<Row>, b: Batch) {
    && |b.keys| == |rows| && |b.images| == |rows| && |b.targets| == |rows| && |b.locations| == |rows|
    && forall k :: 0 <= k < |rows| ==>
         EntryOf(cfg, targets, sampleLocations, rows[k], b.keys[k], b.images[k], b.targets[k], b.locations[k])
  }

  /** What the batch loop yields for `rows`: a batch exactly when every
      record has the needed columns, and otherwise the KeyError of the first
      record that lacks one. */
  ghost predicate BatchResult(cfg: PathConfig, targets: seq<Target>, sampleLocations: nat, rows: seq<Row>, res: Result<Batch>) {
    && (res.Ok? <==> FirstFailing(cfg, rows) == |rows|)
    && (res.Ok? ==> IsBatchOf(cfg, targets, sampleLocations, rows, res.value))
    && (res.Err? ==> Err(res.error) == GetImagePaths(cfg, rows[FirstFailing(cfg, rows)]))
  }

  /** The batch the loop of `get_train_batch` yields for `rows`: the
      entries of the records in order, or the KeyError of the first record
      without the needed columns. */
  function BatchFor(cfg: PathConfig, targets: seq<Target>, sampleLocations: nat, rows: seq<Row>): Result<Batch>
    decreases |rows|
  {
    if |rows| == 0 then Ok(Batch([], [], [], []))
    else
      var before := BatchFor(cfg, targets, sampleLocations, rows[..|rows| - 1]);
      var r := rows[|rows| - 1];
      if before.Err? then before
      else match GetImagePaths(cfg, r)
        case Err(e) => Err(e)
        case Ok(p) =>
          var b := before.value;
          Ok(Batch(b.keys + [p.key], b.images + [Image(p.images, p.outline)],
                   b.targets + [TargetValues(targets, r)], b.locations + [Locations(p.key, sampleLocations)]))
  }

  /** Once a prefix of the records fails, the whole batch fails the same way. */
  lemma {:induction false} BatchForFailedPrefix(cfg: PathConfig, targets: seq<Target>, sampleLocations: nat, rows: seq<Row>, k: nat)
    requires k <= |rows| && BatchFor(cfg, targets, sampleLocations, rows[..k]).Err?
    ensures BatchFor(cfg, targets, sampleLocations, rows) == BatchFor(cfg, targets, sampleLocations, rows[..k])
    decreases |rows| - k
  {
    if k < |rows| {
      var front := rows[..|rows| - 1];
      assert front[..k] == rows[..k];
      BatchForFailedPrefix(cfg, targets, sampleLocations, front, k);
    } else {
      assert rows[..k] == rows;
    }
  }

  /** `BatchFor` meets `BatchResult`: a batch exactly when every record has
      the needed columns, one entry per record in order, and otherwise the
      KeyError of the first failing record. */
  lemma {:induction false} BatchForResult(cfg: PathConfig, targets: seq<Target>, sampleLocations: nat, rows: seq<Row>)
    ensures BatchResult(cfg, targets, sampleLocations, rows, BatchFor(cfg, targets, sampleLocations, rows))
    decreases |rows|
  {
    if |rows| > 0 {
      BatchForResult(cfg, targets, sampleLocations, rows[..|rows| - 1]);
      BatchForStep(cfg, targets, sampleLocations, rows);
    }
  }

  /** One record more: `BatchResult` for all but the last record carries
      over to all the records. */
  lemma BatchForStep(cfg: PathConfig, targets: seq<Target>, sampleLocations: nat, rows: seq<Row>)
    requires |rows| > 0
    requires BatchResult(cfg, targets, sampleLocations, rows[..|rows| - 1],
                         BatchFor(cfg, targets, sampleLocations, rows[..|rows| - 1]))
    ensures BatchResult(cfg, targets, sampleLocations, rows, BatchFor(cfg, targets, sampleLocations, rows))
  {
    var n := |rows| - 1;
    var front := rows[..n];
    FirstFailingPrefix(cfg, rows);
    var before := BatchFor(cfg, targets, sampleLocations, front);
    if before.Err? {
      assert front[FirstFailing(cfg, front)] == rows[FirstFailing(cfg, front)];
    } else if GetImagePaths(cfg, rows[n]).Ok? {
      var p := GetImagePaths(cfg, rows[n]).value;
      IsBatchOfSnoc(cfg, targets, sampleLocations, rows, before.value,
        p.key, Image(p.images, p.outline), TargetValues(targets, rows[n]), Locations(p.key, sampleLocations));
    }
  }

  lemma IsBatchOfSnoc(cfg: PathConfig, targets: seq<Target>, sampleLocations: nat, rows: seq<Row>, b: Batch,
                      key: string, image: Image, t: seq<Encoded>, loc: Locations)
    requires |rows| > 0
    requires IsBatchOf(cfg, targets, sampleLocations, rows[..|rows| - 1], b)
    requires EntryOf(cfg, targets, sampleLocations, rows[|rows| - 1], key, image, t, loc)
    ensures IsBatchOf(cfg, targets, sampleLocations, rows,
      Batch(b.keys + [key], b.images + [image], b.targets + [t], b.locations + [loc]))
  {
    var n := |rows| - 1;
    assert forall j :: 0 <= j < n ==> rows[..n][j] == rows[j];
  }

  /** The first failure of `rows` is the first failure of all but its last
      record, unless that prefix has none. */
  lemma FirstFailingPrefix(cfg: PathConfig, rows: seq<Row>)
    requires |rows| > 0
    ensures var n := |rows| - 1;
      FirstFailing(cfg, rows) == if FirstFailing(cfg, rows[..n]) < n then FirstFailing(cfg, rows[..n]) else
        (if GetImagePaths(cfg, rows[n]).Err? then n else n + 1)
  {
    var n := |rows| - 1;
    var f := FirstFailing(cfg, rows[..n]);
    assert forall j :: 0 <= j < n ==> rows[..n][j] == rows[j];
  }

  /** The loop of `get_train_batch` after the lock is released: appends
      one entry per record to each list; a record without the needed
      columns raises its KeyError and no batch is returned. */
  method BuildBatch(cfg: PathConfig, targets: seq<Target>, sampleLocations: nat, rows: seq<Row>)
    returns (res: Result<Batch>)
    ensures res == BatchFor(cfg, targets, sampleLocations, rows)
  {
    var keys: seq<string> := [];
    var images: seq<Image> := [];
    var ts: seq<seq<Encoded>> := [];
    var locs: seq<Locations> := [];
    var k := 0;
    while k < |rows|
      invariant 0 <= k <= |rows|
      invariant BatchFor(cfg, targets, sampleLocations, rows[..k]) == Ok(Batch(keys, images, ts, locs))
    {
      var paths := GetImagePaths(cfg, rows[k]);
      assert rows[..k + 1][..k] == rows[..k];
      if paths.Err? {
        BatchForFailedPrefix(cfg, targets, sampleLocations, rows, k + 1);
        return Err(paths.error);
      }
      keys := keys + [paths.value.key];
      ts := ts + [TargetValues(targets, rows[k])];
      images := images + [Image(paths.value.images, paths.value.outline)];
      locs := locs + [Locations(paths.value.key, sampleLocations)];
      k := k + 1;
    }
    assert rows[..k] == rows;
    return Ok(Batch(keys, images, ts, locs));
  }

  /** The visiting loop of `scan`: one call of `f` per record that passes
      `check`, in frame order. */
  method VisitFrame(m: Metadata, labels: seq<nat>, paths: seq<ImagePaths>, check: Row -> bool)
    returns (calls: seq<Visit>)
    requires |labels| == |paths| && InRange(labels, |m.data|)
    ensures calls == Visits(m, labels, paths, check)
  {
    calls := [];
    var k := 0;
    while k < |labels|
      invariant 0 <= k <= |labels|
      invariant calls == Visits(m, labels[..k], paths[..k], check)
    {
      var r := m.data[labels[k]];
      assert labels[..k + 1][..k] == labels[..k];
      assert paths[..k + 1][..k] == paths[..k];
      if check(r) {
        calls := calls + [Visit(labels[k], Image(paths[k].images, paths[k].outline), r)];
      }
      k := k + 1;
    }
    assert labels[..k] == labels && paths[..k] == paths;
  }

  /** The draws of the first `i` classes have been made. */
  ghost predicate DrawsSoFar(m: Metadata, field: string, n: nat, classes: seq<string>, ds: seq<seq<nat>>, i: nat) {
    && ValidMetadata(m) && HasField(m, field)
    && classes == Classes(m, field) && i <= |classes| && |ds| == i
    && (forall j :: 0 <= j < i ==> IsDraw(Pool(m, field, m.train, classes[j]), n, ds[j]))
    && InRange(Flatten(ds), |m.data|)
  }

  lemma ExtendDraws(m: Metadata, field: string, n: nat, classes: seq<string>, ds: seq<seq<nat>>, i: nat, rec: seq<nat>)
    requires DrawsSoFar(m, field, n, classes, ds, i) && i < |classes|
    requires IsDraw(Pool(m, field, m.train, classes[i]), n, rec)
    ensures DrawsSoFar(m, field, n, classes, ds + [rec], i + 1)
    ensures InRange(rec, |m.data|)
    ensures RowsOf(m, Flatten(ds + [rec])) == RowsOf(m, Flatten(ds)) + RowsOf(m, rec)
  {
    DrawOfClass(m, field, n, classes[i], rec);
    assert (ds + [rec])[..i] == ds;
    RowsOfAppend(m, Flatten(ds), rec);
  }

  lemma FinishDraws(m: Metadata, field: string, n: nat, ds: seq<seq<nat>>, sample: seq<Row>, shuffled: seq<Row>)
    requires ValidMetadata(m) && HasField(m, field)
    requires DrawsSoFar(m, field, n, Classes(m, field), ds, |Classes(m, field)|)
    requires sample == RowsOf(m, Flatten(ds)) && multiset(shuffled) == multiset(sample)
    ensures IsStratified(m, field, n, ds, shuffled)
  {
  }

  /** The cells per epoch are 0 exactly when one of their factors is. */
  lemma ProductZero(a: nat, b: nat, c: nat)
    ensures a * b * c == 0 <==> a == 0 || b == 0 || c == 0
  {
    if a > 0 && b > 0 && c > 0 {
      assert a * b > 0;
    }
  }

  /** The loop of `shuffle_training_images` over the classes, in `unique()`
      order: one draw of `n` labels per class, the drawn records appended
      in turn. */
  method DrawPerClass(m: Metadata, field: string, n: nat) returns (sample: seq<Row>, ghost ds: seq<seq<nat>>)
    requires ValidMetadata(m) && HasField(m, field)
    ensures DrawsSoFar(m, field, n, Classes(m, field), ds, |Classes(m, field)|)
    ensures sample == RowsOf(m, Flatten(ds))
  {
    var classes := Classes(m, field);
    sample := [];
    ds := [];
    var i := 0;
    while i < |classes|
      invariant 0 <= i <= |classes|
      invariant DrawsSoFar(m, field, n, classes, ds, i)
      invariant sample == RowsOf(m, Flatten(ds))
    {
      var pool := Pool(m, field, m.train, classes[i]);
      PoolNonEmpty(m, field, m.train, classes[i]);
      PoolOrdered(m, field, m.train, classes[i]);
      DrawExists(pool, n);
      var rec :| IsDraw(pool, n, rec);
      ExtendDraws(m, field, n, classes, ds, i, rec);
      sample := sample + RowsOf(m, rec);
      ds := ds + [rec];
      i := i + 1;
    }
  }

  /** The invariant of an `ImageDataset`, on the values of its fields. */
  ghost predicate DatasetInvariant(meta: Metadata, field: string, prepared: bool, sampleImages: nat,
                                   draws: seq<seq<nat>>, sample: seq<Row>) {
    && ValidMetadata(meta) && HasField(meta, field)
    && (prepared ==> |meta.train| > 0 && IsStratified(meta, field, sampleImages, draws, sample))
  }

  /** The entry `ImageLocations` keeps for record `r`: its key, channel
      paths and outline from `get_image_paths`, and its encoded targets. */
  predicate LocationEntry(cfg: PathConfig, ts: seq<Target>, r: Row, key: string,
                          image: seq<string>, outline: Option<string>, t: seq<Encoded>)
  {
    && GetImagePaths(cfg, r).Ok?
    && key == GetImagePaths(cfg, r).value.key
    && image == GetImagePaths(cfg, r).value.images
    && outline == GetImagePaths(cfg, r).value.outline
    && t == TargetValues(ts, r)
  }

  /** The four parallel lists `ImageLocations.__init__` builds, one entry
      per training record in order. */
  class ImageLocations {
    var keys: seq<string>
    var images: seq<seq<string>>
    var targets: seq<seq<Encoded>>
    var outlines: seq<Option<string>>

    constructor (rows: seq<Row>, cfg: PathConfig, ts: seq<Target>)
      requires FirstFailing(cfg, rows) == |rows|
      ensures |keys| == |rows| && |images| == |rows| && |targets| == |rows| && |outlines| == |rows|
      ensures forall k :: 0 <= k < |rows| ==>
        LocationEntry(cfg, ts, rows[k], keys[k], images[k], outlines[k], targets[k])
    {
      var ks: seq<string> := [];
      var ims: seq<seq<string>> := [];
      var tgs: seq<seq<Encoded>> := [];
      var outs: seq<Option<string>> := [];
      var i := 0;
      while i < |rows|
        invariant 0 <= i <= |rows|
        invariant |ks| == i && |ims| == i && |tgs| == i && |outs| == i
        invariant forall k :: 0 <= k < i ==> LocationEntry(cfg, ts, rows[k], ks[k], ims[k], outs[k], tgs[k])
      {
        var paths := GetImagePaths(cfg, rows[i]);
        ks := ks + [paths.value.key];
        ims := ims + [paths.value.images];
        tgs := tgs + [TargetValues(ts, rows[i])];
        outs := outs + [paths.value.outline];
        assert LocationEntry(cfg, ts, rows[i], ks[i], ims[i], outs[i], tgs[i]);
        i := i + 1;
      }
      keys, images, targets, outlines := ks, ims, tgs, outs;
    }
  }

  /** The exception lines 70-73 of `prepare_training_locations` raise, if
      any, in the order they would raise it. */
  function LoadError(cfg: PathConfig, rows: seq<Row>, ts: seq<Target>): Option<string> {
    if FirstFailing(cfg, rows) < |rows| then Some(GetImagePaths(cfg, rows[FirstFailing(cfg, rows)]).error)
    else if |rows| > 0 && |ts| == 0 then Some("IndexError")
    else if |rows| == 0 then Some("ValueError")
    else None
  }

  /** Lines 70-73 of `prepare_training_locations`: the `ImageLocations` of
      the training records, one `load_loc` per record and `pd.concat` of
      the results. `ImageLocations` raises the KeyError of the first record
      that lacks a needed column. `load_loc` reads `self.targets[i][0]`, an
      IndexError on the first record when there is no target; with no
      records at all there is nothing to concatenate, a ValueError. The
      locations themselves are not modelled. */
  method LoadLocations(rows: seq<Row>, cfg: PathConfig, ts: seq<Target>) returns (res: Result<()>)
    ensures res.Err? <==> LoadError(cfg, rows, ts).Some?
    ensures res.Err? ==> res.error == LoadError(cfg, rows, ts).value
    ensures FirstFailing(cfg, rows) < |rows| ==>
      res == Err(GetImagePaths(cfg, rows[FirstFailing(cfg, rows)]).error)
    ensures FirstFailing(cfg, rows) == |rows| ==>
      && (res == Err("IndexError") <==> |rows| > 0 && |ts| == 0)
      && (res == Err("ValueError") <==> |rows| == 0)
      && (res.Ok? <==> |rows| > 0 && |ts| > 0)
  {
    var failing := FirstFailing(cfg, rows);
    if failing < |rows| {
      return Err(GetImagePaths(cfg, rows[failing]).error);
    }
    var imageLoc := new ImageLocations(rows, cfg, ts);
    if |imageLoc.keys| > 0 && |ts| == 0 {
      // `self.targets[i][0]` on the first record's empty target list.
      return Err("IndexError");
    }
    if |imageLoc.keys| == 0 {
      return Err("ValueError");
    }
    return Ok(());
  }

  class ImageDataset {
    const meta: Metadata
    const samplingField: string
    const channels: seq<string>
    const root: string
    /** `metadata.data[sampling_field].unique()` */
    const samplingValues: seq<string>

    var targets: seq<Target>
    var outlines: Option<string>

    // Set by `prepare_training_locations`.
    var sampleImages: nat
    var sampleLocations: nat
    var imagesPerWorker: nat
    var prepared: bool

    var trainingSample: seq<Row>
    var batchPointer: nat
    /** The per-class draws of the current sample, as labels of the table. */
    ghost var draws: seq<seq<nat>>
    /** The `sample_images` the current sample was drawn with. */
    ghost var drawSize: nat

    /** Once prepared, the sample is a shuffle of one draw per class and
        the pointer has not passed its end. */
    ghost predicate Valid()
      reads this`prepared, this`drawSize, this`draws, this`trainingSample, this`batchPointer
    {
      && DatasetInvariant(meta, samplingField, prepared, drawSize, draws, trainingSample)
      && (prepared ==> batchPointer <= |trainingSample|)
    }

    function PathCfg(): PathConfig
      reads this
    {
      PathConfig(channels, root, outlines)
    }

    constructor (meta: Metadata, samplingField: string, channels: seq<string>, root: string)
      requires ValidMetadata(meta) && HasField(meta, samplingField)
      ensures Valid() && !prepared
      ensures this.meta == meta && this.samplingField == samplingField
      ensures this.channels == channels && this.root == root
      ensures samplingValues == Unique(Values(meta, samplingField, AllLabels(|meta.data|)))
      ensures targets == [] && outlines == None
    {
      this.meta := meta;
      this.samplingField := samplingField;
      this.channels := channels;
      this.root := root;
      this.samplingValues := Unique(Values(meta, samplingField, AllLabels(|meta.data|)));
      targets := [];
      outlines := None;
      prepared := false;
      trainingSample := [];
      batchPointer := 0;
    }

    method AddTarget(t: Target)
      requires Valid()
      modifies this`targets
      ensures Valid()
      ensures targets == old(targets) + [t]
    {
      targets := targets + [t];
    }

    /** `prepare_training_locations`, given the numbers it derives from the
        locations (the class count and the two medians are not modelled).
        It fails as the source does, in the source's order: `LoadLocations`
        first (the KeyError of the first training record without a needed
        column, IndexError with no target, ValueError with no training
        records, all before any field is set), then `SetSamplingParameters`
        (ZeroDivisionError on a zero divisor at lines 86 and 88). Otherwise
        it draws the first sample. */
    method PrepareTrainingLocations(targetClasses: nat, sampleImages: nat, sampleLocations: nat,
                                    batchSize: nat, workers: nat)
      returns (res: Result<()>)
      requires Valid()
      modifies this`sampleImages, this`sampleLocations, this`imagesPerWorker, this`prepared
      modifies this`trainingSample, this`batchPointer, this`draws, this`drawSize
      ensures Valid()
      ensures res.Err? <==>
        || old(LoadError(PathCfg(), RowsOf(meta, meta.train), targets)).Some?
        || workers == 0 || targetClasses == 0 || sampleImages == 0 || sampleLocations == 0
      ensures old(LoadError(PathCfg(), RowsOf(meta, meta.train), targets)).Some? ==>
        res == Err(old(LoadError(PathCfg(), RowsOf(meta, meta.train), targets)).value) && unchanged(this)
      ensures old(LoadError(PathCfg(), RowsOf(meta, meta.train), targets)).None? ==>
        && this.sampleImages == sampleImages && this.sampleLocations == sampleLocations
        && (workers > 0 ==> imagesPerWorker == batchSize / workers)
        && (workers == 0 ==> imagesPerWorker == old(imagesPerWorker))
      ensures
        && old(LoadError(PathCfg(), RowsOf(meta, meta.train), targets)).None?
        && (workers == 0 || targetClasses == 0 || sampleImages == 0 || sampleLocations == 0)
        ==>
        && res == Err("ZeroDivisionError")
        && prepared == old(prepared) && trainingSample == old(trainingSample)
        && batchPointer == old(batchPointer) && draws == old(draws) && drawSize == old(drawSize)
      ensures res.Ok? ==> prepared && batchPointer == 0
      ensures res.Ok? ==> IsStratified(meta, samplingField, sampleImages, draws, trainingSample)
    {
      var loaded := LoadLocations(RowsOf(meta, meta.train), PathCfg(), targets);
      if loaded.Err? {
        return loaded;
      }
      res := SetSamplingParameters(targetClasses, sampleImages, sampleLocations, batchSize, workers);
      if res.Err? {
        return;
      }
      prepared := true;
      res := ShuffleTrainingImages();
    }

    /** Lines 78-88 of `prepare_training_locations`: records the sampling
        parameters and `images_per_worker`, then divides the queue size by
        the cells per epoch, the product of the class count and the two
        medians. Either division raises ZeroDivisionError on a zero
        divisor: `workers` before `images_per_worker` is set, the cells
        per epoch after. */
    method SetSamplingParameters(targetClasses: nat, sampleImages: nat, sampleLocations: nat,
                                 batchSize: nat, workers: nat)
      returns (res: Result<()>)
      modifies this`sampleImages, this`sampleLocations, this`imagesPerWorker
      ensures this.sampleImages == sampleImages && this.sampleLocations == sampleLocations
      ensures workers > 0 ==> imagesPerWorker == batchSize / workers
      ensures workers == 0 ==> imagesPerWorker == old(imagesPerWorker)
      ensures res.Err? <==> workers == 0 || targetClasses == 0 || sampleImages == 0 || sampleLocations == 0
      ensures res.Err? ==> res.error == "ZeroDivisionError"
    {
      this.sampleImages := sampleImages;
      this.sampleLocations := sampleLocations;
      var cellsPerEpoch := targetClasses * sampleImages * sampleLocations;
      if workers == 0 {
        // `batch_size / workers` raises before `images_per_worker` is set.
        return Err("ZeroDivisionError");
      }
      imagesPerWorker := batchSize / workers;
      ProductZero(targetClasses, sampleImages, sampleLocations);
      if cellsPerEpoch == 0 {
        return Err("ZeroDivisionError");
      }
      return Ok(());
    }

    /** `shuffle_training_images`: for each class of the training records
        a draw of `sampleImages` labels from that class (with replacement
        only when the class has fewer records), all draws concatenated and
        shuffled, and the pointer reset. With no class, `pd.concat` of the
        empty list raises ValueError and nothing changes. */
    method ShuffleTrainingImages() returns (res: Result<()>)
      requires ValidMetadata(meta) && HasField(meta, samplingField)
      modifies this`trainingSample, this`batchPointer, this`draws, this`drawSize
      ensures res.Err? <==> |meta.train| == 0
      ensures res.Err? ==> res.error == "ValueError"
      ensures res.Err? ==> trainingSample == old(trainingSample) && batchPointer == old(batchPointer)
      ensures res.Err? ==> draws == old(draws) && drawSize == old(drawSize)
      ensures res.Ok? ==> Valid() && drawSize == sampleImages
      ensures res.Ok? ==> IsStratified(meta, samplingField, sampleImages, draws, trainingSample)
      ensures res.Ok? ==> batchPointer == 0
    {
      var classes := Classes(meta, samplingField);
      ClassesEmpty(meta, samplingField);
      if |classes| == 0 {
        // The loop would append nothing and `pd.concat([])` raises.
        return Err("ValueError");
      }
      var sample: seq<Row>;
      ghost var ds: seq<seq<nat>>;
      sample, ds := DrawPerClass(meta, samplingField, sampleImages);
      var shuffled: seq<Row> :| multiset(shuffled) == multiset(sample);
      FinishDraws(meta, samplingField, sampleImages, ds, sample, shuffled);
      trainingSample := shuffled;
      batchPointer := 0;
      draws := ds;
      drawSize := sampleImages;
      res := Ok(());
    }

    /** The part of `get_train_batch` under the lock: takes
        `trainingSample[p:p + images_per_worker]` of the sample as it was,
        advances the pointer by `images_per_worker`, and redraws the sample
        exactly when the pointer has passed the end. */
    method TakeNextSlice() returns (taken: seq<Row>)
      requires Valid() && prepared
      modifies this`trainingSample, this`batchPointer, this`draws, this`drawSize
      ensures Valid() && prepared
      ensures taken == Slice(old(trainingSample), old(batchPointer), old(batchPointer) + imagesPerWorker)
      ensures old(batchPointer) + imagesPerWorker > |old(trainingSample)| ==>
        batchPointer == 0 && drawSize == sampleImages
      ensures old(batchPointer) + imagesPerWorker <= |old(trainingSample)| ==>
        && batchPointer == old(batchPointer) + imagesPerWorker
        && trainingSample == old(trainingSample)
        && draws == old(draws) && drawSize == old(drawSize)
    {
      taken := Slice(trainingSample, batchPointer, batchPointer + imagesPerWorker);
      batchPointer := batchPointer + imagesPerWorker;
      if batchPointer > |trainingSample| {
        var redrawn := ShuffleTrainingImages();
      }
    }

    /** `get_train_batch`, with the locked part and the batch loop as one
        atomic step: the batch is built from the slice taken before any
        redraw. */
    method GetTrainBatch() returns (batch: Result<Batch>)
      requires Valid() && prepared
      modifies this`trainingSample, this`batchPointer, this`draws, this`drawSize
      ensures Valid() && prepared
      ensures batch == BatchFor(old(PathCfg()), old(targets), old(sampleLocations),
        Slice(old(trainingSample), old(batchPointer), old(batchPointer) + imagesPerWorker))
      ensures old(batchPointer) + imagesPerWorker > |old(trainingSample)| ==>
        batchPointer == 0 && drawSize == sampleImages
      ensures old(batchPointer) + imagesPerWorker <= |old(trainingSample)| ==>
        && batchPointer == old(batchPointer) + imagesPerWorker
        && trainingSample == old(trainingSample)
        && draws == old(draws) && drawSize == old(drawSize)
    {
      var cfg, ts, cells := PathCfg(), targets, sampleLocations;
      var taken := TakeNextSlice();
      batch := BuildBatch(cfg, ts, cells, taken);
    }

    /** `scan`: the frame's paths are resolved for every record first, then
        `f` is called, in frame order, on each record that passes `check`;
        the result is the sequence of those calls. */
    method Scan(frame: string, check: Row -> bool) returns (visits: Result<seq<Visit>>)
      requires ValidMetadata(meta)
      ensures InRange(FrameLabels(meta, frame), |meta.data|)
      ensures var rows := RowsOf(meta, FrameLabels(meta, frame));
        && (visits.Ok? <==> FirstFailing(PathCfg(), rows) == |rows|)
        && (visits.Err? ==> Err(visits.error) == GetImagePaths(PathCfg(), rows[FirstFailing(PathCfg(), rows)]))
        && (visits.Ok? ==> visits.value == Visits(meta, FrameLabels(meta, frame), FramePaths(PathCfg(), rows).value, check))
    {
      var labels := FrameLabels(meta, frame);
      FrameLabelsValid(meta, frame);
      var images := FramePaths(PathCfg(), RowsOf(meta, labels));
      if images.Err? {
        return Err(images.error);
      }
      var calls := VisitFrame(meta, labels, images.value, check);
      return Ok(calls);
    }
  }
}
