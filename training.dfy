/** The epoch loops, `train_model` and the arithmetic and lookup of
    `tune_hyperparams` in scripts/training.py. A batch is seen only through
    the (loss, f1) pair it yields; the network, optimiser and scheduler
    that produce it are outside the model. */
module Training {
  import opened Common
  import opened Metrics

  /** The (loss.item(), f1_score.item()) pair of one batch. */
  type BatchResult = (real, real)

  const LossName: string := "Loss"
  const F1Name: string := "f1"

  function Losses(bs: seq<BatchResult>): (r: seq<real>)
    ensures |r| == |bs| && forall k :: 0 <= k < |bs| ==> r[k] == bs[k].0
  {
    seq(|bs|, k requires 0 <= k < |bs| => bs[k].0)
  }

  function F1s(bs: seq<BatchResult>): (r: seq<real>)
    ensures |r| == |bs| && forall k :: 0 <= k < |bs| ==> r[k] == bs[k].1
  {
    seq(|bs|, k requires 0 <= k < |bs| => bs[k].1)
  }

  function Mean(s: seq<real>): real
    requires |s| > 0
  {
    Sum(s) / |s| as real
  }

  /** The monitor's dictionary after the batches: "Loss" then "f1" updated per batch. */
  function EpochTable(bs: seq<BatchResult>): Table
  {
    if bs == [] then Empty
    else
      var last := bs[|bs| - 1];
      Step(Step(EpochTable(bs[..|bs| - 1]), LossName, last.0), F1Name, last.1)
  }

  /** The record of a metric fed the values s. */
  function Accumulated(s: seq<real>): Record
    requires |s| > 0
  {
    Record(Sum(s), |s|, Mean(s))
  }

  /** After at least one batch the dictionary holds exactly "Loss" then "f1",
      each with the sum, count and mean of its values. */
  lemma {:induction false} EpochTableAfterBatches(bs: seq<BatchResult>)
    requires |bs| > 0
    ensures EpochTable(bs) == Table([LossName, F1Name],
                                    map[LossName := Accumulated(Losses(bs)), F1Name := Accumulated(F1s(bs))])
    decreases |bs|
  {
    var init, last := bs[..|bs| - 1], bs[|bs| - 1];
    assert Losses(bs)[..|bs| - 1] == Losses(init);
    assert F1s(bs)[..|bs| - 1] == F1s(init);
    if init != [] {
      EpochTableAfterBatches(init);
    }
  }

  /** An epoch's averages: (mean loss, mean f1) after at least one batch,
      nothing after none. */
  lemma EpochAverages(bs: seq<BatchResult>)
    ensures WellFormed(EpochTable(bs))
    ensures AveragesOf(EpochTable(bs)) == if bs == [] then [] else [Mean(Losses(bs)), Mean(F1s(bs))]
  {
    if bs != [] {
      EpochTableAfterBatches(bs);
    }
  }

  /** The per-batch bookkeeping of `train_epoch` and `valid_epoch`: a fresh
      monitor, `update("Loss", loss)` then `update("f1", f1)` per batch, and
      the monitor's averages at the end. */
  method RunEpoch(bs: seq<BatchResult>) returns (avgs: seq<real>)
    ensures avgs == if bs == [] then [] else [Mean(Losses(bs)), Mean(F1s(bs))]
  {
    var monitor := new MetricMonitor(3);
    var i := 0;
    while i < |bs|
      invariant 0 <= i <= |bs|
      invariant monitor.Valid() && monitor.Snapshot() == EpochTable(bs[..i])
    {
      assert bs[..i + 1][..i] == bs[..i];
      monitor.Update(LossName, bs[i].0);
      monitor.Update(F1Name, bs[i].1);
      i := i + 1;
    }
    assert bs[..i] == bs;
    EpochAverages(bs);
    avgs := monitor.Averages();
  }

  /** `a, b = t`: unpacking into two names needs exactly two values. */
  function Unpack2(avgs: seq<real>): (r: Result<(real, real)>)
    ensures r.Ok? <==> |avgs| == 2
    ensures r.Ok? ==> [r.value.0, r.value.1] == avgs
    ensures r.Err? ==> r.error == ValueError
  {
    if |avgs| == 2 then Ok((avgs[0], avgs[1])) else Err(ValueError)
  }

  /** `valid_epoch`: the epoch's averages unpacked into (loss, f1), which
      fails when the loader yielded no batch. */
  method ValidEpoch(bs: seq<BatchResult>) returns (r: Result<(real, real)>)
    ensures bs == [] ==> r == Err(ValueError)
    ensures bs != [] ==> r == Ok((Mean(Losses(bs)), Mean(F1s(bs))))
  {
    var avgs := RunEpoch(bs);
    r := Unpack2(avgs);
  }

  /** A data loader: how many batches it has (its `len`) and the (loss, f1)
      pair that batch b yields in a given epoch. */
  datatype Loader = Loader(size: nat, batch: (nat, nat) -> BatchResult)

  function EpochBatches(l: Loader, epoch: nat): (bs: seq<BatchResult>)
    ensures |bs| == l.size
  {
    seq(l.size, b requires 0 <= b < l.size => l.batch(epoch, b))
  }

  /** `if valid_loader`: present and, as a DataLoader has a `len`, non-empty. */
  predicate Truthy(l: Option<Loader>)
  {
    l.Some? && l.value.size > 0
  }

  /** The four lists `train_model` returns. */
  datatype History = History(trainLosses: seq<real>, validLosses: seq<real>,
                             trainF1s: seq<real>, validF1s: seq<real>)

  /** The first n epochs' results of a run with these loaders: entry i is
      epoch i + 1; the validation lists stay empty when the validation loader
      is falsy. */
  ghost predicate RecordsEpochs(h: History, train: Loader, valid: Option<Loader>, n: nat)
  {
    && |h.trainLosses| == n && |h.trainF1s| == n
    && (n > 0 ==> train.size > 0)
    && (forall i :: 0 <= i < n && train.size > 0 ==>
          h.trainLosses[i] == Mean(Losses(EpochBatches(train, i + 1))) &&
          h.trainF1s[i] == Mean(F1s(EpochBatches(train, i + 1))))
    && |h.validLosses| == (if Truthy(valid) then n else 0)
    && |h.validF1s| == (if Truthy(valid) then n else 0)
    && (forall i :: 0 <= i < |h.validLosses| && Truthy(valid) ==>
          h.validLosses[i] == Mean(Losses(EpochBatches(valid.value, i + 1))) &&
          h.validF1s[i] == Mean(F1s(EpochBatches(valid.value, i + 1))))
  }

  /** The learning-rate scheduler `train_epoch` steps after every training
      batch: torch's cosine annealing schedule of length tMax. */
  datatype Schedule = CosineAnnealing(tMax: int)

  /** The first `step()` after construction takes torch's
      `(last_epoch - 1 - T_max) % (2 * T_max)` branch, which divides by zero
      when T_max is 0; every later step of a schedule with T_max != 0 is
      defined. */
  predicate StepFails(s: Schedule)
  {
    s.tMax == 0
  }

  /** `train_model` over `range(numEpochs)`: a training epoch, then a
      validation epoch when the validation loader is truthy. An empty
      training loader fails at the first epoch's unpacking; a schedule of
      length 0 fails at the first batch's `scheduler.step()`. */
  method TrainModel(train: Loader, valid: Option<Loader>, scheduler: Schedule, numEpochs: int)
    returns (r: Result<History>)
    ensures r.Err? <==> numEpochs > 0 && (train.size == 0 || StepFails(scheduler))
    ensures r.Err? ==> r.error == if train.size == 0 then ValueError else ZeroDivisionError
    ensures r.Ok? ==> RecordsEpochs(r.value, train, valid, if numEpochs > 0 then numEpochs else 0)
  {
    var trainLosses, validLosses, trainF1s, validF1s := [], [], [], [];
    var i := 0;
    while i < numEpochs
      invariant 0 <= i <= (if numEpochs > 0 then numEpochs else 0)
      invariant RecordsEpochs(History(trainLosses, validLosses, trainF1s, validF1s), train, valid, i)
      invariant i > 0 ==> !StepFails(scheduler)
    {
      if train.size > 0 && StepFails(scheduler) {
        return Err(ZeroDivisionError);
      }
      var avgs := RunEpoch(EpochBatches(train, i + 1));
      var unpacked := Unpack2(avgs);
      if unpacked.Err? {
        return Err(unpacked.error);
      }
      var (trainLoss, trainF1) := unpacked.value;
      trainLosses := trainLosses + [trainLoss];
      trainF1s := trainF1s + [trainF1];
      if Truthy(valid) {
        var v := ValidEpoch(EpochBatches(valid.value, i + 1));
        var (validLoss, validF1) := v.value;
        validLosses := validLosses + [validLoss];
        validF1s := validF1s + [validF1];
      }
      i := i + 1;
    }
    r := Ok(History(trainLosses, validLosses, trainF1s, validF1s));
  }

  /** The two losses `tune_hyperparams` can select. */
  datatype Criterion = DiceLoss | FocalLoss

  /** `criteria_dict[name]`: only the two registered keys are found. */
  function CriterionFor(name: string): (r: Result<Criterion>)
    ensures r.Ok? <==> name == "dice_loss" || name == "focal_loss"
    ensures r.Err? ==> r.error == KeyError
    ensures r.Ok? ==> (r.value == DiceLoss <==> name == "dice_loss")
  {
    if name == "dice_loss" then Ok(DiceLoss)
    else if name == "focal_loss" then Ok(FocalLoss)
    else Err(KeyError)
  }

  /** T_max of the cosine schedule: (dataset length * epochs) // batch size,
      the number of whole batches in all planned epochs. */
  function ScheduleLength(datasetLength: nat, numEpochs: int, batchSize: int): (t: int)
    requires batchSize > 0
    ensures t * batchSize <= datasetLength * numEpochs < (t + 1) * batchSize
  {
    (datasetLength * numEpochs) / batchSize
  }

  /** `len(DataLoader(dataset, batch_size))` with the last partial batch kept. */
  function BatchCount(datasetLength: nat, batchSize: int): (n: nat)
    requires batchSize > 0
    ensures (n - 1) * batchSize < datasetLength <= n * batchSize
  {
    (datasetLength + batchSize - 1) / batchSize
  }

  /** With a positive number of epochs, the schedule has length 0 exactly
      when all planned epochs hold fewer samples than one batch. */
  lemma ScheduleLengthZero(datasetLength: nat, numEpochs: int, batchSize: int)
    requires batchSize > 0 && numEpochs > 0
    ensures ScheduleLength(datasetLength, numEpochs, batchSize) == 0 <==> datasetLength * numEpochs < batchSize
  {
    var samples := datasetLength * numEpochs;
    assert samples >= 0;
    FloorIsZero(ScheduleLength(datasetLength, numEpochs, batchSize), samples, batchSize);
  }

  /** The floor t of p / b, for p >= 0, is 0 exactly when p < b. */
  lemma FloorIsZero(t: int, p: int, b: int)
    requires b > 0 && p >= 0 && t * b <= p < (t + 1) * b
    ensures t == 0 <==> p < b
  {
    if t >= 1 {
      assert t * b == b + (t - 1) * b;
      assert (t - 1) * b >= 0;
    } else if t < 0 {
      assert false;
    }
  }

  /** A loader has a batch exactly when its dataset has a sample. */
  lemma BatchCountPositive(datasetLength: nat, batchSize: int)
    requires batchSize > 0
    ensures BatchCount(datasetLength, batchSize) > 0 <==> datasetLength > 0
  {
  }

  /** The entries of the trial configuration that the modelled code reads. */
  datatype TrialConfig = TrialConfig(batchSize: int, numEpochs: int, criterion: string)

  /** What a trial sets up and runs: the schedule length, the loss and the
      histories of `train_model`. */
  datatype Trial = Trial(scheduleLength: int, criterion: Criterion, history: History)

  /** `tune_hyperparams`: loaders of the configured batch size (a batch size
      below 1 is refused by DataLoader), the schedule length, the criterion
      lookup, then `train_model` over the configured epochs. */
  method TuneHyperparams(config: TrialConfig,
                         trainLength: nat, trainBatch: (nat, nat) -> BatchResult,
                         validLength: nat, validBatch: (nat, nat) -> BatchResult)
    returns (r: Result<Trial>)
    ensures config.batchSize <= 0 ==> r == Err(ValueError)
    ensures config.batchSize > 0 && CriterionFor(config.criterion).Err? ==> r == Err(KeyError)
    ensures r.Ok? <==> config.batchSize > 0 && CriterionFor(config.criterion).Ok? &&
                       (config.numEpochs <= 0 || trainLength * config.numEpochs >= config.batchSize)
    ensures config.batchSize > 0 && CriterionFor(config.criterion).Ok? && config.numEpochs > 0 ==>
              (trainLength == 0 ==> r == Err(ValueError)) &&
              (0 < trainLength * config.numEpochs < config.batchSize ==> r == Err(ZeroDivisionError))
    ensures r.Ok? ==>
              r.value.scheduleLength * config.batchSize <= trainLength * config.numEpochs &&
              trainLength * config.numEpochs < (r.value.scheduleLength + 1) * config.batchSize
    ensures r.Ok? ==> r.value.criterion == CriterionFor(config.criterion).value
    ensures r.Ok? ==>
              RecordsEpochs(r.value.history,
                            Loader(BatchCount(trainLength, config.batchSize), trainBatch),
                            Some(Loader(BatchCount(validLength, config.batchSize), validBatch)),
                            if config.numEpochs > 0 then config.numEpochs else 0)
  {
    if config.batchSize <= 0 {
      return Err(ValueError);
    }
    var trainLoader := Loader(BatchCount(trainLength, config.batchSize), trainBatch);
    var validLoader := Loader(BatchCount(validLength, config.batchSize), validBatch);
    var scheduleLength := ScheduleLength(trainLength, config.numEpochs, config.batchSize);
    var criterion := CriterionFor(config.criterion);
    if criterion.Err? {
      return Err(criterion.error);
    }
    BatchCountPositive(trainLength, config.batchSize);
    if config.numEpochs > 0 {
      ScheduleLengthZero(trainLength, config.numEpochs, config.batchSize);
    }
    var history := TrainModel(trainLoader, Some(validLoader), CosineAnnealing(scheduleLength), config.numEpochs);
    if history.Err? {
      return Err(history.error);
    }
    r := Ok(Trial(scheduleLength, criterion.value, history.value));
  }
}
