/** Source checks, extraction results and error wrapping of the resolvers.

    "No user code is loaded or run" is stated as independence from the
    user-code environment: the result is the same for every `Runner`. "Only
    this unit is run" is stated as: two environments that agree on that one
    (source text, callable name) give the same result. */
module ErrorLaws {

  import opened Wrappers
  import opened Datasets
  import opened Parsers

  /** A null or empty main `source` fails with `UserError('Source is empty')`
      in every resolver that needs the main data, before any user code runs. */
  lemma EmptyMainSourceRunsNoCode(job: Job, run: Runner, other: Runner, split: Splitter)
    requires job.main.source == None || job.main.source == Some([])
    ensures ResolveMain(job, run) == ResolveMain(job, other) == Failure(EmptySource)
    ensures ResolveTrain(job, run, split) == ResolveTrain(job, other, split) == Failure(EmptySource)
    ensures job.test.methodName == SPLIT_FROM_MAIN ==>
              ResolveTest(job, run, split) == ResolveTest(job, other, split) == Failure(EmptySource)
    ensures job.meta.methodName == HOLDOUT_SPLIT ==>
              ResolveHoldout(job, run, split) == ResolveHoldout(job, other, split) == Failure(EmptySource)
  {
  }

  /** The check is on the list, not on the joined text: lines that are all
      empty pass it, and the main unit is then loaded from the empty text. */
  lemma EmptyLinesPassSourceCheck(job: Job, run: Runner)
    requires job.main.source.Some? && |job.main.source.value| > 0
    requires forall i :: 0 <= i < |job.main.source.value| ==> job.main.source.value[i] == []
    ensures ResolveMain(job, run) != Failure(EmptySource)
    ensures ResolveMain(job, run).Success? <==> run([], EXTRACT_MAIN).Returned?
    ensures ResolveMain(job, run).Success? ==> run([], EXTRACT_MAIN) == Returned(ResolveMain(job, run).value)
  {
    assert Join(job.main.source.value) == [];
  }

  /** The main resolver runs exactly the `extract_main_dataset` unit built from
      the joined main source, and nothing else: the train resolver inherits
      this. */
  lemma MainRunsOnlyMainUnit(job: Job, run: Runner, other: Runner, split: Splitter)
    requires job.main.source.Some? ==>
               run(Join(job.main.source.value), EXTRACT_MAIN) == other(Join(job.main.source.value), EXTRACT_MAIN)
    ensures ResolveMain(job, run) == ResolveMain(job, other)
    ensures ResolveTrain(job, run, split) == ResolveTrain(job, other, split)
  {
  }

  /** Error wrapping is asymmetric: an `Exception` raised by the main
      extraction callable becomes `UserError('User code exception')` carrying
      its message, in every resolver that needs the main data, while one
      raised by the test or holdout extraction callable reaches the caller
      unwrapped. */
  lemma UserCodeErrorWrapping(job: Job, run: Runner, split: Splitter, e: string)
    ensures HasSource(job.main.source) && run(Join(job.main.source.value), EXTRACT_MAIN) == Raised(e) ==>
              && ResolveMain(job, run) == Failure(UserError(USER_CODE_EXCEPTION, Some(e)))
              && ResolveTrain(job, run, split) == Failure(UserError(USER_CODE_EXCEPTION, Some(e)))
              && (job.test.methodName == SPLIT_FROM_MAIN ==>
                    ResolveTest(job, run, split) == Failure(UserError(USER_CODE_EXCEPTION, Some(e))))
              && (job.meta.methodName == HOLDOUT_SPLIT ==>
                    ResolveHoldout(job, run, split) == Failure(UserError(USER_CODE_EXCEPTION, Some(e))))
    ensures job.test.methodName == FROM_SOURCE && HasSource(job.test.source)
            && run(Join(job.test.source.value), EXTRACT_TEST) == Raised(e) ==>
              ResolveTest(job, run, split) == Failure(Uncaught(e))
    ensures job.meta.methodName == HOLDOUT_SOURCE && HasSource(job.meta.source)
            && run(Join(job.meta.source.value), EXTRACT_HOLDOUT) == Raised(e) ==>
              ResolveHoldout(job, run, split) == Failure(Uncaught(e))
  {
  }

  /** Two failures of the main unit are not wrapped: one while loading it,
      which happens before the `try`, and a `BaseException` that is not an
      `Exception`, which `except Exception` does not catch. */
  lemma MainUnwrappedFailures(job: Job, run: Runner, split: Splitter, e: string)
    requires HasSource(job.main.source)
    requires run(Join(job.main.source.value), EXTRACT_MAIN) == LoadFailed(e)
             || run(Join(job.main.source.value), EXTRACT_MAIN) == Exited(e)
    ensures ResolveMain(job, run) == Failure(Uncaught(e))
    ensures ResolveTrain(job, run, split) == Failure(Uncaught(e))
    ensures job.test.methodName == SPLIT_FROM_MAIN ==> ResolveTest(job, run, split) == Failure(Uncaught(e))
    ensures job.meta.methodName == HOLDOUT_SPLIT ==> ResolveHoldout(job, run, split) == Failure(Uncaught(e))
  {
  }

  /** With neither split active, the train resolver returns exactly the (X, y)
      that the main unit returned. */
  lemma MainReturnsExtraction(job: Job, run: Runner, split: Splitter)
    requires HasSource(job.main.source)
    requires job.test.methodName != SPLIT_FROM_MAIN
    requires job.meta.methodName != HOLDOUT_SPLIT
    ensures var out := run(Join(job.main.source.value), EXTRACT_MAIN);
            out.Returned? ==> ResolveTrain(job, run, split) == Success(out.data)
  {
  }

  /** Test method `source` with a non-empty source: the result is what
      `extract_test_dataset` returned, and any failure to load or run it
      reaches the caller unwrapped. */
  lemma TestSourceReturnsExtraction(job: Job, run: Runner, split: Splitter)
    requires job.test.methodName == FROM_SOURCE
    requires HasSource(job.test.source)
    ensures var out := run(Join(job.test.source.value), EXTRACT_TEST);
            && (out.Returned? ==> ResolveTest(job, run, split) == Success(Some(out.data)))
            && (!out.Returned? ==> ResolveTest(job, run, split) == Failure(Uncaught(out.exception)))
  {
  }

  /** Meta method `holdout_source` with a non-empty source: the result is what
      `extract_holdout_dataset` returned, and any failure to load or run it
      reaches the caller unwrapped. */
  lemma HoldoutSourceReturnsExtraction(job: Job, run: Runner, split: Splitter)
    requires job.meta.methodName == HOLDOUT_SOURCE
    requires HasSource(job.meta.source)
    ensures var out := run(Join(job.meta.source.value), EXTRACT_HOLDOUT);
            && (out.Returned? ==> ResolveHoldout(job, run, split) == Success(Some(out.data)))
            && (!out.Returned? ==> ResolveHoldout(job, run, split) == Failure(Uncaught(out.exception)))
  {
  }

  /** Test method `source` with a missing, null or empty `source` fails with
      `UserError('Source is empty')` and runs no user code. */
  lemma MissingTestSourceRunsNoCode(job: Job, run: Runner, other: Runner, split: Splitter)
    requires job.test.methodName == FROM_SOURCE
    requires job.test.source == None || job.test.source == Some([])
    ensures ResolveTest(job, run, split) == ResolveTest(job, other, split) == Failure(EmptySource)
  {
  }

  /** Meta method `holdout_source` with a missing, null or empty `source`
      fails with `UserError('Source is empty')` and runs no user code. */
  lemma MissingHoldoutSourceRunsNoCode(job: Job, run: Runner, other: Runner, split: Splitter)
    requires job.meta.methodName == HOLDOUT_SOURCE
    requires job.meta.source == None || job.meta.source == Some([])
    ensures ResolveHoldout(job, run, split) == ResolveHoldout(job, other, split) == Failure(EmptySource)
  {
  }

  /** Test method `source` reads neither the main section nor the splitter:
      the result depends only on what `extract_test_dataset` does. */
  lemma TestSourceIgnoresMain(job: Job, job': Job, run: Runner, run': Runner, split: Splitter, split': Splitter)
    requires job.test == job'.test
    requires job.test.methodName == FROM_SOURCE
    requires HasSource(job.test.source)
    requires run(Join(job.test.source.value), EXTRACT_TEST) == run'(Join(job.test.source.value), EXTRACT_TEST)
    ensures ResolveTest(job, run, split) == ResolveTest(job', run', split')
  {
  }

  /** Meta method `holdout_source` reads neither the main nor the test section
      nor the splitter: the result depends only on `extract_holdout_dataset`. */
  lemma HoldoutSourceIgnoresMain(job: Job, job': Job, run: Runner, run': Runner, split: Splitter, split': Splitter)
    requires job.meta == job'.meta
    requires job.meta.methodName == HOLDOUT_SOURCE
    requires HasSource(job.meta.source)
    requires run(Join(job.meta.source.value), EXTRACT_HOLDOUT) == run'(Join(job.meta.source.value), EXTRACT_HOLDOUT)
    ensures ResolveHoldout(job, run, split) == ResolveHoldout(job', run', split')
  {
  }
}
