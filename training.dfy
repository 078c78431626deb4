/** The pure decisions of the training routine: the learning-rate schedule,
    the model-type dispatch, checkpoint naming, the warm-start rule and the
    range of epochs a run fits. */
module Training {
  import opened Results

  // ---------------------------------------------------------------------
  // Learning-rate schedule
  // ---------------------------------------------------------------------

  /** The divisor `lrs(e)` applies to the base rate. `e/epochs` is compared
      exactly; a zero `epochs` raises ZeroDivisionError, and a negative
      fraction matches no band, so the rate is left unchanged. */
  function LrDivisor(e: int, epochs: int): (d: Result<nat>)
    ensures d.Err? <==> epochs == 0
    ensures d.Ok? ==> d.value in {1, 10, 100, 1000}
  {
    if epochs == 0 then Err("ZeroDivisionError")
    else
      var f := e as real / epochs as real;
      if 0.0 <= f < 0.4 then Ok(1)
      else if 0.4 <= f < 0.7 then Ok(10)
      else if 0.7 <= f < 0.9 then Ok(100)
      else if 0.9 <= f then Ok(1000)
      else Ok(1)
  }

  /** The rate `lrs(e)` returns for base rate `base`. */
  function LearningRate(base: real, e: int, epochs: int): (r: Result<real>)
    ensures r.Err? <==> epochs == 0
    ensures r.Ok? ==> r.value * LrDivisor(e, epochs).value as real == base
  {
    match LrDivisor(e, epochs)
    case Err(msg) => Err(msg)
    case Ok(d) => Ok(base / d as real)
  }

  /** For a positive `epochs`, `e as real / epochs as real` lies below
      `num / den` exactly when `den * e < num * epochs`. */
  lemma FractionBelow(e: int, epochs: int, num: int, den: int)
    requires epochs > 0 && den > 0
    ensures (e as real / epochs as real < num as real / den as real) <==> den * e < num * epochs
  {
    var f := e as real / epochs as real;
    var g := num as real / den as real;
    assert f * epochs as real == e as real;
    assert g * den as real == num as real;
    assert (den * e) as real == f * (den as real * epochs as real);
    assert (num * epochs) as real == g * (den as real * epochs as real);
    PositiveScale(f, g, den as real * epochs as real);
  }

  lemma PositiveScale(f: real, g: real, c: real)
    requires c > 0.0
    ensures f < g <==> f * c < g * c
  {
    if f < g {
      assert (g - f) * c > 0.0;
    }
    if f * c < g * c {
      assert (g - f) * c > 0.0;
    }
  }

  /** The bands of the schedule in integer terms, for a positive `epochs`:
      the first 40% of the epochs keep the base rate, up to 70% divide it by
      10, up to 90% by 100 and the rest by 1000; a negative epoch index keeps
      the base rate. */
  lemma LrBands(e: int, epochs: int)
    requires epochs > 0
    ensures e < 0 ==> LrDivisor(e, epochs) == Ok(1)
    ensures 0 <= e && 10 * e < 4 * epochs ==> LrDivisor(e, epochs) == Ok(1)
    ensures 4 * epochs <= 10 * e < 7 * epochs ==> LrDivisor(e, epochs) == Ok(10)
    ensures 7 * epochs <= 10 * e < 9 * epochs ==> LrDivisor(e, epochs) == Ok(100)
    ensures 9 * epochs <= 10 * e ==> LrDivisor(e, epochs) == Ok(1000)
  {
    FractionBelow(e, epochs, 0, 1);
    FractionBelow(e, epochs, 4, 10);
    FractionBelow(e, epochs, 7, 10);
    FractionBelow(e, epochs, 9, 10);
    assert 0.0 == 0 as real / 1 as real;
    assert 0.4 == 4 as real / 10 as real;
    assert 0.7 == 7 as real / 10 as real;
    assert 0.9 == 9 as real / 10 as real;
  }

  /** For a fixed positive `epochs` the divisor never decreases as the epoch
      index grows. */
  lemma LrDivisorMonotone(e1: int, e2: int, epochs: int)
    requires epochs > 0 && e1 <= e2
    ensures LrDivisor(e1, epochs).value <= LrDivisor(e2, epochs).value
  {
    LrBands(e1, epochs);
    LrBands(e2, epochs);
  }

  /** Hence, for a non-negative base rate, the rate never increases as
      training progresses. */
  lemma LearningRateNonIncreasing(base: real, e1: int, e2: int, epochs: int)
    requires base >= 0.0 && epochs > 0 && e1 <= e2
    ensures LearningRate(base, e2, epochs).value <= LearningRate(base, e1, epochs).value
  {
    LrDivisorMonotone(e1, e2, epochs);
    var d1 := LrDivisor(e1, epochs).value as real;
    var d2 := LrDivisor(e2, epochs).value as real;
    assert 1.0 <= d1 <= d2;
    assert base / d2 <= base / d1 by {
      assert base / d2 * d2 == base;
      assert base / d1 * d1 == base;
      assert base / d1 * d2 >= base / d1 * d1;
    }
  }

  // ---------------------------------------------------------------------
  // Model-type dispatch
  // ---------------------------------------------------------------------

  datatype Generator = CropGenerator | SetCropGenerator

  /** The crop generator chosen for a model type; `None` where no branch
      binds one, which makes `crop_generator.start` fail. The second "mixup"
      test repeats the first, so "same_label_mixup" has no generator. */
  function CropGeneratorFor(modelType: string): (g: Option<Generator>)
    ensures g.Some? <==> modelType in ["convnet", "recurrent", "mixup"]
    ensures g == Some(CropGenerator) <==> modelType == "convnet"
  {
    if modelType == "convnet" then Some(CropGenerator)
    else if modelType == "recurrent" then Some(SetCropGenerator)
    else if modelType == "mixup" then Some(SetCropGenerator)
    else if modelType == "mixup" then Some(SetCropGenerator)
    else None
  }

  /** The input shape built for a model type: an image shape
      `(box, box, #channels)`, preceded by the sequence length for the
      recurrent model; `None` for a type no branch handles. */
  function InputShape(modelType: string, boxSize: nat, sequenceLength: nat, channels: seq<string>): (s: Option<seq<nat>>)
    ensures s.Some? <==> modelType in ["convnet", "recurrent", "mixup", "same_label_mixup"]
    ensures s.Some? ==> |s.value| == (if modelType == "recurrent" then 4 else 3)
    ensures s.Some? ==> s.value[|s.value| - 3..] == [boxSize, boxSize, |channels|]
    ensures s.Some? && modelType == "recurrent" ==> s.value[0] == sequenceLength
  {
    if modelType == "convnet" then Some([boxSize, boxSize, |channels|])
    else if modelType == "recurrent" then Some([sequenceLength, boxSize, boxSize, |channels|])
    else if modelType == "mixup" then Some([boxSize, boxSize, |channels|])
    else if modelType == "same_label_mixup" then Some([boxSize, boxSize, |channels|])
    else None
  }

  /** Every type that gets a generator also gets a shape; "same_label_mixup"
      is the one type with a shape but no generator. */
  lemma GeneratorImpliesShape(modelType: string, boxSize: nat, sequenceLength: nat, channels: seq<string>)
    ensures CropGeneratorFor(modelType).Some? ==> InputShape(modelType, boxSize, sequenceLength, channels).Some?
    ensures InputShape(modelType, boxSize, sequenceLength, channels).Some? && CropGeneratorFor(modelType).None?
      <==> modelType == "same_label_mixup"
  {
  }

  // ---------------------------------------------------------------------
  // Checkpoint names
  // ---------------------------------------------------------------------

  predicate IsDigit(c: char) {
    '0' <= c <= '9'
  }

  predicate AllDigits(s: string) {
    forall i :: 0 <= i < |s| ==> IsDigit(s[i])
  }

  function DigitChar(d: nat): (c: char)
    requires d < 10
    ensures IsDigit(c) && c as int - '0' as int == d
  {
    ('0' as int + d) as char
  }

  /** Decimal digits of `n`, without leading zeros ("0" for zero). */
  function Digits(n: nat): (s: string)
    ensures 1 <= |s| && AllDigits(s)
    ensures n >= 10 ==> s[0] != '0'
    decreases n
  {
    if n < 10 then [DigitChar(n)] else Digits(n / 10) + [DigitChar(n % 10)]
  }

  /** The number a digit string denotes. */
  function ParseDecimal(s: string): nat
    requires AllDigits(s)
  {
    if |s| == 0 then 0
    else ParseDecimal(s[..|s| - 1]) * 10 + (s[|s| - 1] as int - '0' as int)
  }

  function Zeros(k: nat): (z: string)
    ensures |z| == k && forall i :: 0 <= i < k ==> z[i] == '0'
  {
    seq(k, _ => '0')
  }

  /** `s` padded on the left with zeros to `width` characters. */
  function ZeroPad(s: string, width: nat): (r: string)
    ensures |r| == if |s| < width then width else |s|
    ensures r[|r| - |s|..] == s
    ensures forall i :: 0 <= i < |r| - |s| ==> r[i] == '0'
  {
    if |s| < width then Zeros(width - |s|) + s else s
  }

  /** Python's `"{:04d}".format(e)`: zero padding to width 4 counts the sign,
      so a negative index keeps three digits after its '-'. */
  function FormatEpoch(e: int): string {
    if e >= 0 then ZeroPad(Digits(e), 4) else "-" + ZeroPad(Digits(-e), 3)
  }

  /** The checkpoint file the model-checkpoint callback writes for epoch
      number `e`, and the one `learn_model` looks for as the previous model. */
  function CheckpointPath(output: string, e: int): string {
    output + "/checkpoint_" + FormatEpoch(e) + ".hdf5"
  }

  lemma {:induction false} ParseDigits(n: nat)
    ensures ParseDecimal(Digits(n)) == n
    decreases n
  {
    if n >= 10 {
      var s := Digits(n / 10);
      assert Digits(n)[..|Digits(n)| - 1] == s;
      ParseDigits(n / 10);
      assert ParseDecimal(Digits(n)) == (n / 10) * 10 + n % 10;
    }
  }

  lemma {:induction false} ParseZeros(k: nat)
    ensures ParseDecimal(Zeros(k)) == 0
  {
    if k > 0 {
      assert Zeros(k)[..k - 1] == Zeros(k - 1);
      ParseZeros(k - 1);
    }
  }

  /** Leading zeros do not change the number a digit string denotes. */
  lemma {:induction false} ParseLeadingZeros(k: nat, s: string)
    requires AllDigits(s)
    ensures AllDigits(Zeros(k) + s)
    ensures ParseDecimal(Zeros(k) + s) == ParseDecimal(s)
    decreases |s|
  {
    var t := Zeros(k) + s;
    assert forall i :: 0 <= i < |t| ==> t[i] == if i < k then '0' else s[i - k];
    if |s| == 0 {
      assert t == Zeros(k);
      ParseZeros(k);
    } else {
      var p := s[..|s| - 1];
      assert t[..|t| - 1] == Zeros(k) + p;
      ParseLeadingZeros(k, p);
    }
  }

  /** A formatted index denotes its value: the digits of a non-negative
      index, and those after the '-' of a negative one. */
  lemma FormatEpochDenotes(e: int)
    ensures e >= 0 ==> AllDigits(FormatEpoch(e)) && ParseDecimal(FormatEpoch(e)) == e
    ensures e < 0 ==> FormatEpoch(e)[0] == '-'
    ensures e < 0 ==> AllDigits(FormatEpoch(e)[1..]) && ParseDecimal(FormatEpoch(e)[1..]) == -e
  {
    var n: nat := if e >= 0 then e else -e;
    var w := if e >= 0 then 4 else 3;
    var s := Digits(n);
    ParseDigits(n);
    var pad := ZeroPad(s, w);
    if |s| < w {
      ParseLeadingZeros(w - |s|, s);
    }
    assert AllDigits(pad) && ParseDecimal(pad) == n;
    if e < 0 {
      assert FormatEpoch(e)[1..] == pad;
    }
  }

  /** Every index from 0 to 9999 gets exactly four digits. */
  lemma FormatEpochWidth(e: int)
    requires 0 <= e <= 9999
    ensures |FormatEpoch(e)| == 4
  {
    DigitsLength(e);
  }

  lemma {:induction false} DigitsLength(n: nat)
    requires n <= 9999
    ensures |Digits(n)| <= 4
  {
    if n >= 10 {
      DigitsLength(n / 10);
      if n / 10 >= 10 {
        DigitsLength(n / 100);
        assert n / 10 / 10 == n / 100;
        if n / 100 >= 10 {
          assert n / 100 / 10 == n / 1000;
          assert n / 1000 < 10;
        }
      }
    }
  }

  /** Distinct epoch indices give distinct checkpoint files. */
  lemma FormatEpochInjective(a: int, b: int)
    requires FormatEpoch(a) == FormatEpoch(b)
    ensures a == b
  {
    FormatEpochDenotes(a);
    FormatEpochDenotes(b);
  }

  lemma CheckpointPathInjective(output: string, a: int, b: int)
    requires CheckpointPath(output, a) == CheckpointPath(output, b)
    ensures a == b
  {
    var pre := output + "/checkpoint_";
    var p := CheckpointPath(output, a);
    assert |FormatEpoch(a)| == |FormatEpoch(b)|;
    assert FormatEpoch(a) == p[|pre|..|pre| + |FormatEpoch(a)|];
    assert FormatEpoch(b) == p[|pre|..|pre| + |FormatEpoch(b)|];
    FormatEpochInjective(a, b);
  }

  /** The first checkpoint name the training test looks for. */
  lemma CheckpointNames()
    ensures CheckpointPath("out", 1) == "out/checkpoint_0001.hdf5"
  {
    SmallEpochNames();
    assert "out" + "/checkpoint_" == "out/checkpoint_";
  }

  /** `{:04d}` counts the sign in the width: a negative index keeps three
      digits. */
  lemma NegativeEpochName()
    ensures FormatEpoch(-1) == "-001"
  {
    assert Digits(1) == "1";
    assert Zeros(2) == "00";
  }

  /** The names of the first four checkpoints. */
  lemma SmallEpochNames()
    ensures FormatEpoch(1) == "0001"
    ensures FormatEpoch(2) == "0002"
    ensures FormatEpoch(3) == "0003"
    ensures FormatEpoch(4) == "0004"
  {
    assert Digits(1) == "1";
    assert Digits(2) == "2";
    assert Digits(3) == "3";
    assert Digits(4) == "4";
  }

  /** The width is a minimum: a five-digit index is not truncated. */
  lemma WideEpochName()
    ensures FormatEpoch(12345) == "12345"
  {
    assert Digits(1) == "1";
    assert Digits(12) == "12";
    assert Digits(123) == "123";
    assert Digits(1234) == "1234";
    assert Digits(12345) == "12345";
  }

  // ---------------------------------------------------------------------
  // Warm start and the fitted epochs
  // ---------------------------------------------------------------------

  /** The previous model is loaded only when `epoch >= 1` and its file
      exists among `existing`. */
  function WarmStart(output: string, epoch: int, existing: set<string>): (w: Option<string>)
    ensures w.Some? <==> epoch >= 1 && CheckpointPath(output, epoch - 1) in existing
    ensures w.Some? ==> w.value == CheckpointPath(output, epoch - 1) && w.value in existing
  {
    var previous := CheckpointPath(output, epoch - 1);
    if epoch >= 1 && previous in existing then Some(previous) else None
  }

  /** The 0-based epoch indices `fit_generator` runs: `range(initial, epochs)`. */
  function FitEpochs(initial: int, epochs: int): (r: seq<int>)
    ensures |r| == if initial < epochs then epochs - initial else 0
    ensures forall k :: 0 <= k < |r| ==> r[k] == initial + k
    decreases epochs - initial
  {
    if initial >= epochs then [] else [initial] + FitEpochs(initial + 1, epochs)
  }

  /** The checkpoint callback names the file after the 1-based epoch number
      `k + 1` of index `k`. */
  function CheckpointsWritten(output: string, initial: int, epochs: int): set<string> {
    set k | k in FitEpochs(initial, epochs) :: CheckpointPath(output, k + 1)
  }

  /** The rates the schedule yields over the fitted epochs; ZeroDivisionError
      as soon as a run fits some epoch with `epochs == 0`. */
  function Rates(base: real, initial: int, epochs: int): (r: Result<seq<real>>)
    ensures r.Err? <==> epochs == 0 && initial < 0
    ensures r.Ok? ==> |r.value| == |FitEpochs(initial, epochs)|
    ensures r.Ok? ==> forall k :: 0 <= k < |r.value| ==> r.value[k] == LearningRate(base, initial + k, epochs).value
  {
    var ks := FitEpochs(initial, epochs);
    if |ks| > 0 && epochs == 0 then Err("ZeroDivisionError")
    else Ok(seq(|ks|, k requires 0 <= k < |ks| => LearningRate(base, ks[k], epochs).value))
  }

  /** An index is fitted exactly when it lies in `[initial, epochs)`. */
  lemma FittedIndex(initial: int, epochs: int, k: int)
    ensures k in FitEpochs(initial, epochs) <==> initial <= k < epochs
  {
    var ks := FitEpochs(initial, epochs);
    if initial <= k < epochs {
      assert ks[k - initial] == k;
    }
    if k in ks {
      var i :| 0 <= i < |ks| && ks[i] == k;
    }
  }

  /** A fitted index `k` leaves checkpoint `k + 1`. */
  lemma WrittenOfIndex(output: string, initial: int, epochs: int, k: int)
    requires k in FitEpochs(initial, epochs)
    ensures CheckpointPath(output, k + 1) in CheckpointsWritten(output, initial, epochs)
  {
  }

  /** A run started at `epoch` with `epochs` configured writes every
      checkpoint numbered `epoch` to `epochs`. */
  lemma CheckpointsWrittenCover(output: string, epoch: int, epochs: int, e: int)
    requires epoch <= e <= epochs
    ensures CheckpointPath(output, e) in CheckpointsWritten(output, epoch - 1, epochs)
  {
    FittedIndex(epoch - 1, epochs, e - 1);
    WrittenOfIndex(output, epoch - 1, epochs, e - 1);
  }

  /** ... and no other: a written checkpoint is numbered `epoch` to `epochs`. */
  lemma CheckpointsWrittenOnly(output: string, epoch: int, epochs: int, e: int)
    requires CheckpointPath(output, e) in CheckpointsWritten(output, epoch - 1, epochs)
    ensures epoch <= e <= epochs
  {
    var p := CheckpointPath(output, e);
    var k :| k in FitEpochs(epoch - 1, epochs) && CheckpointPath(output, k + 1) == p;
    CheckpointPathInjective(output, e, k + 1);
    FittedIndex(epoch - 1, epochs, k);
  }

  /** For a non-negative base rate the rates of a run never increase. */
  lemma RatesNonIncreasing(base: real, initial: int, epochs: int, i: int, j: int)
    requires base >= 0.0 && epochs > 0 && Rates(base, initial, epochs).Ok?
    requires 0 <= i <= j < |Rates(base, initial, epochs).value|
    ensures Rates(base, initial, epochs).value[j] <= Rates(base, initial, epochs).value[i]
  {
    LearningRateNonIncreasing(base, initial + i, initial + j, epochs);
  }

  // ---------------------------------------------------------------------
  // The decisions of one training run
  // ---------------------------------------------------------------------

  datatype TrainingConfig = TrainingConfig(
    modelType: string, boxSize: nat, sequenceLength: nat, channels: seq<string>,
    learningRate: real, epochs: int, output: string)

  /** What `learn_model` sets up and leaves behind. */
  datatype Plan = Plan(
    generator: Generator, inputShape: seq<nat>, previousModel: Option<string>,
    initialEpoch: int, rates: seq<real>, logFile: string, written: set<string>)

  /** The decisions of `learn_model(config, dset, epoch)` given the files in
      `existing`: no generator is an error, the previous checkpoint is
      loaded if present, and the fit starts at `epoch - 1`. */
  function LearnModel(config: TrainingConfig, epoch: int, existing: set<string>): (r: Result<Plan>)
    ensures r.Ok? <==> CropGeneratorFor(config.modelType).Some? && !(config.epochs == 0 && epoch < 1)
    ensures r.Ok? ==> && r.value.initialEpoch == epoch - 1
                      && r.value.previousModel == WarmStart(config.output, epoch, existing)
                      && Some(r.value.inputShape) == InputShape(config.modelType, config.boxSize, config.sequenceLength, config.channels)
                      && Some(r.value.generator) == CropGeneratorFor(config.modelType)
  {
    match CropGeneratorFor(config.modelType)
    case None => Err("UnboundLocalError")
    case Some(g) =>
      var shape := InputShape(config.modelType, config.boxSize, config.sequenceLength, config.channels);
      assert shape.Some?;
      match Rates(config.learningRate, epoch - 1, config.epochs)
      case Err(msg) => Err(msg)
      case Ok(rates) =>
        Ok(Plan(g, shape.value, WarmStart(config.output, epoch, existing), epoch - 1, rates,
                config.output + "/log.csv",
                existing + CheckpointsWritten(config.output, epoch - 1, config.epochs) + {config.output + "/log.csv"}))
  }

  /** Resuming: after a run up to `epochs`, a run started at `epochs + 1`
      loads the last checkpoint the first one wrote. */
  lemma ResumeLoadsLastCheckpoint(config: TrainingConfig, epoch: int, existing: set<string>)
    requires LearnModel(config, epoch, existing).Ok? && epoch <= config.epochs && config.epochs >= 0
    ensures WarmStart(config.output, config.epochs + 1, LearnModel(config, epoch, existing).value.written)
      == Some(CheckpointPath(config.output, config.epochs))
  {
    CheckpointsWrittenCover(config.output, epoch, config.epochs, config.epochs);
  }

  /** The two runs whose files the training test checks for: a run from
      epoch 1 with 2 epochs, then a run from epoch 3 with `epochs` set to 4
      here, resuming from the checkpoint of epoch 2 (the names are those of
      `SmallEpochNames`). The test itself sets 4 under a configuration key
      `learn_model` does not read, and looks for the checkpoints and the log
      in configured directories of their own; here both are the one output
      directory `learn_model` writes to. */
  lemma TwoRuns(config: TrainingConfig, existing: set<string>)
    requires config.modelType == "convnet" && config.epochs == 2
    ensures LearnModel(config, 1, existing).Ok?
    ensures CheckpointPath(config.output, 1) in LearnModel(config, 1, existing).value.written
    ensures CheckpointPath(config.output, 2) in LearnModel(config, 1, existing).value.written
    ensures config.output + "/log.csv" in LearnModel(config, 1, existing).value.written
    ensures LearnModel(config.(epochs := 4), 3, LearnModel(config, 1, existing).value.written).Ok?
    ensures LearnModel(config.(epochs := 4), 3, LearnModel(config, 1, existing).value.written).value.previousModel
      == Some(CheckpointPath(config.output, 2))
    ensures CheckpointPath(config.output, 3) in LearnModel(config.(epochs := 4), 3, LearnModel(config, 1, existing).value.written).value.written
    ensures CheckpointPath(config.output, 4) in LearnModel(config.(epochs := 4), 3, LearnModel(config, 1, existing).value.written).value.written
    ensures config.output + "/log.csv" in LearnModel(config.(epochs := 4), 3, LearnModel(config, 1, existing).value.written).value.written
  {
    var first := LearnModel(config, 1, existing);
    assert first.Ok?;
    var next := config.(epochs := 4);
    var second := LearnModel(next, 3, first.value.written);
    assert second.Ok?;
    CheckpointsWrittenCover(config.output, 1, 2, 1);
    CheckpointsWrittenCover(config.output, 1, 2, 2);
    CheckpointsWrittenCover(config.output, 3, 4, 3);
    CheckpointsWrittenCover(config.output, 3, 4, 4);
    ResumeLoadsLastCheckpoint(config, 1, existing);
  }
}
