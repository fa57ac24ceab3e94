/** The replay and partition laws of the split-based resolvers.

    `return_train_data_from_json`, `return_test_data_from_json` and
    `return_holdout_data_from_json` each recompute the main dataset and replay
    the split calls they need. `TwoStage` is the reference they are measured
    against: it performs the test split and the holdout split once each and
    keeps every piece. The resolvers agree with it piece by piece, so train,
    test and holdout are the parts of one partition of the main dataset. */
module PartitionLaws {

  import opened Wrappers
  import opened Datasets
  import opened Parsers

  /** The pieces of one two-stage partition; a side is `None` when its split
      is not active. */
  datatype Partition = Partition(train: Dataset, test: Option<Dataset>, holdout: Option<Dataset>)

  /** Splits `main` once for the test set (if `split_from_main`), then splits
      what is left once for the holdout set (if `holdout_split`). */
  function TwoStage(job: Job, main: Dataset, split: Splitter): (p: Partition)
    ensures p.test.Some? <==> job.test.methodName == SPLIT_FROM_MAIN
    ensures p.holdout.Some? <==> job.meta.methodName == HOLDOUT_SPLIT
  {
    var (afterTest, test) :=
      if job.test.methodName == SPLIT_FROM_MAIN then
        var halves := split(main, job.test.splitRatio, job.test.splitSeed);
        (halves.0, Some(halves.1))
      else (main, None);
    var (train, holdout) :=
      if job.meta.methodName == HOLDOUT_SPLIT then
        var halves := split(afterTest, job.meta.splitRatio, job.meta.seed);
        (halves.0, Some(halves.1))
      else (afterTest, None);
    Partition(train, test, holdout)
  }

  /** The pieces of the two-stage partition add up to the main dataset. */
  lemma TwoStageIsPartition(job: Job, main: Dataset, split: Splitter)
    requires IsPartitioner(split)
    ensures var p := TwoStage(job, main, split);
            multiset(p.train) + Samples(p.test) + Samples(p.holdout) == multiset(main)
  {
  }

  /** Replay law: whenever the main dataset resolves, each resolver returns its
      piece of the single two-stage partition of it. Train is the final
      remainder; test is the held-out side of the same first split whose
      remainder train keeps; holdout is the held-out side of the same second
      split. */
  lemma ResolversShareOnePartition(job: Job, run: Runner, split: Splitter)
    requires ResolveMain(job, run).Success?
    ensures var p := TwoStage(job, ResolveMain(job, run).value, split);
            && ResolveTrain(job, run, split) == Success(p.train)
            && (job.test.methodName == SPLIT_FROM_MAIN ==> ResolveTest(job, run, split) == Success(p.test))
            && (job.meta.methodName == HOLDOUT_SPLIT ==> ResolveHoldout(job, run, split) == Success(p.holdout))
  {
  }

  /** Without `split_from_main` and `holdout_split`, train is the main data. */
  lemma TrainIsMainWithoutSplits(job: Job, run: Runner, split: Splitter)
    requires job.test.methodName != SPLIT_FROM_MAIN
    requires job.meta.methodName != HOLDOUT_SPLIT
    ensures ResolveTrain(job, run, split) == ResolveMain(job, run)
  {
  }

  /** Train keeps the remainder of `split(main, ratio, seed)` for the test
      section's ratio and seed, and the test set is the other side of that
      very call: together they are the main data, and their sizes add up. */
  lemma TrainTestPartition(job: Job, run: Runner, split: Splitter)
    requires IsPartitioner(split)
    requires ResolveMain(job, run).Success?
    requires job.test.methodName == SPLIT_FROM_MAIN
    requires job.meta.methodName != HOLDOUT_SPLIT
    ensures ResolveTrain(job, run, split).Success?
    ensures ResolveTest(job, run, split).Success? && ResolveTest(job, run, split).value.Some?
    ensures var main := ResolveMain(job, run).value;
            var train := ResolveTrain(job, run, split).value;
            var test := ResolveTest(job, run, split).value.value;
            && multiset(train) + multiset(test) == multiset(main)
            && |train| + |test| == |main|
  {
    var main := ResolveMain(job, run).value;
    ResolversShareOnePartition(job, run, split);
    TwoStageIsPartition(job, main, split);
    var train := ResolveTrain(job, run, split).value;
    var test := ResolveTest(job, run, split).value.value;
    assert |multiset(train) + multiset(test)| == |multiset(main)|;
  }

  /** Both splits active: train, test and holdout together are the main data. */
  lemma TrainTestHoldoutPartition(job: Job, run: Runner, split: Splitter)
    requires IsPartitioner(split)
    requires ResolveMain(job, run).Success?
    requires job.test.methodName == SPLIT_FROM_MAIN
    requires job.meta.methodName == HOLDOUT_SPLIT
    ensures ResolveTrain(job, run, split).Success?
    ensures ResolveTest(job, run, split).Success? && ResolveTest(job, run, split).value.Some?
    ensures ResolveHoldout(job, run, split).Success? && ResolveHoldout(job, run, split).value.Some?
    ensures var main := ResolveMain(job, run).value;
            var train := ResolveTrain(job, run, split).value;
            var test := ResolveTest(job, run, split).value.value;
            var holdout := ResolveHoldout(job, run, split).value.value;
            && multiset(train) + multiset(test) + multiset(holdout) == multiset(main)
            && |train| + |test| + |holdout| == |main|
  {
    ResolversShareOnePartition(job, run, split);
    TwoStageIsPartition(job, ResolveMain(job, run).value, split);
  }

  /** Holdout split without a test split: train and holdout are the main data. */
  lemma TrainHoldoutPartition(job: Job, run: Runner, split: Splitter)
    requires IsPartitioner(split)
    requires ResolveMain(job, run).Success?
    requires job.test.methodName != SPLIT_FROM_MAIN
    requires job.meta.methodName == HOLDOUT_SPLIT
    ensures ResolveTrain(job, run, split).Success?
    ensures ResolveHoldout(job, run, split).Success? && ResolveHoldout(job, run, split).value.Some?
    ensures var main := ResolveMain(job, run).value;
            var train := ResolveTrain(job, run, split).value;
            var holdout := ResolveHoldout(job, run, split).value.value;
            && multiset(train) + multiset(holdout) == multiset(main)
            && |train| + |holdout| == |main|
  {
    var main := ResolveMain(job, run).value;
    ResolversShareOnePartition(job, run, split);
    TwoStageIsPartition(job, main, split);
    var train := ResolveTrain(job, run, split).value;
    var holdout := ResolveHoldout(job, run, split).value.value;
    assert |multiset(train) + multiset(holdout)| == |multiset(main)|;
  }

  /** With `holdout_split`, whatever the test method: no sample is in both the
      final train set and the holdout set more often than main holds it, so
      when main has no repeated sample the two share none. */
  lemma TrainHoldoutDisjoint(job: Job, run: Runner, split: Splitter)
    requires IsPartitioner(split)
    requires ResolveMain(job, run).Success?
    requires job.meta.methodName == HOLDOUT_SPLIT
    ensures ResolveTrain(job, run, split).Success?
    ensures ResolveHoldout(job, run, split).Success? && ResolveHoldout(job, run, split).value.Some?
    ensures var main := ResolveMain(job, run).value;
            var train := ResolveTrain(job, run, split).value;
            var holdout := ResolveHoldout(job, run, split).value.value;
            && multiset(train) + multiset(holdout) <= multiset(main)
            && (NoDuplicates(main) ==> forall s :: s in train ==> s !in holdout)
  {
    var main := ResolveMain(job, run).value;
    var p := TwoStage(job, main, split);
    ResolversShareOnePartition(job, run, split);
    TwoStageIsPartition(job, main, split);
    var train := ResolveTrain(job, run, split).value;
    var holdout := ResolveHoldout(job, run, split).value.value;
    assert multiset(train) + multiset(holdout) <= multiset(main);
    if NoDuplicates(main) {
      forall s | s in train
        ensures s !in holdout
      {
        assert multiset(train)[s] + multiset(holdout)[s] <= multiset(main)[s] <= 1;
        assert multiset(train)[s] >= 1;
      }
    }
  }

  /** With `split_from_main` and `holdout_split`, test and holdout never share
      a sample of a duplicate-free main dataset, and neither do test and train. */
  lemma TestDisjointFromTrainAndHoldout(job: Job, run: Runner, split: Splitter)
    requires IsPartitioner(split)
    requires ResolveMain(job, run).Success?
    requires NoDuplicates(ResolveMain(job, run).value)
    requires job.test.methodName == SPLIT_FROM_MAIN
    ensures ResolveTrain(job, run, split).Success?
    ensures ResolveTest(job, run, split).Success? && ResolveTest(job, run, split).value.Some?
    ensures var test := ResolveTest(job, run, split).value.value;
            forall s :: s in test ==> s !in ResolveTrain(job, run, split).value
    ensures job.meta.methodName == HOLDOUT_SPLIT ==>
              && ResolveHoldout(job, run, split).Success?
              && ResolveHoldout(job, run, split).value.Some?
              && var test := ResolveTest(job, run, split).value.value;
                 forall s :: s in test ==> s !in ResolveHoldout(job, run, split).value.value
  {
    var main := ResolveMain(job, run).value;
    var p := TwoStage(job, main, split);
    ResolversShareOnePartition(job, run, split);
    TwoStageIsPartition(job, main, split);
    var test := p.test.value;
    assert multiset(p.train) + multiset(test) + Samples(p.holdout) == multiset(main);
    forall s | s in test
      ensures s !in p.train
      ensures p.holdout.Some? ==> s !in p.holdout.value
    {
      assert multiset(p.train)[s] + multiset(test)[s] + Samples(p.holdout)[s] <= multiset(main)[s] <= 1;
      assert multiset(test)[s] >= 1;
    }
  }
}
