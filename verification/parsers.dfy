/** The dataset resolvers of xcessiv/parsers.py.

    A job description ("Extraction" dictionary) names where the main dataset
    comes from and how the test and holdout sets are obtained. Each resolver is
    a pure function of the job, of the user-code environment `run` and of the
    splitter `split`; exceptions become `Failure` values. */
module Parsers {

  import opened Wrappers
  import opened Datasets

  // Method strings recognised in the job description.
  const SPLIT_FROM_MAIN := "split_from_main"
  const FROM_SOURCE := "source"
  const HOLDOUT_SPLIT := "holdout_split"
  const HOLDOUT_SOURCE := "holdout_source"

  // Names of the callables the user code must define.
  const EXTRACT_MAIN := "extract_main_dataset"
  const EXTRACT_TEST := "extract_test_dataset"
  const EXTRACT_HOLDOUT := "extract_holdout_dataset"

  // Messages of the UserError exceptions the resolvers raise.
  const SOURCE_IS_EMPTY := "Source is empty"
  const USER_CODE_EXCEPTION := "User code exception"

  /** `main_dataset`: `source` is null (`None`) or a list of lines; a missing
      key is a `KeyError`, which the model does not express. */
  datatype MainSection = MainSection(source: Option<seq<string>>)

  /** `test_dataset`: `source` may be absent; ratio and seed are read only by
      the `split_from_main` paths. */
  datatype TestSection = TestSection(
    methodName: string,
    source: Option<seq<string>>,
    splitRatio: Ratio,
    splitSeed: Seed)

  /** `meta_feature_generation`: as `test_dataset`, with its seed called `seed`. */
  datatype MetaSection = MetaSection(
    methodName: string,
    source: Option<seq<string>>,
    splitRatio: Ratio,
    seed: Seed)

  datatype Job = Job(main: MainSection, test: TestSection, meta: MetaSection)

  /** What loading a unit of user code and calling its named callable does:
      - `LoadFailed`: `import_object_from_string_code` itself raises;
      - `Raised`: calling the callable, or unpacking its result into (X, y),
        raises an `Exception` subclass;
      - `Exited`: the same steps raise a `BaseException` that is not an
        `Exception` (`SystemExit`, `KeyboardInterrupt`, `GeneratorExit`);
      - `Returned`: the call returns (X, y). */
  datatype Run =
    | LoadFailed(exception: string)
    | Raised(exception: string)
    | Exited(exception: string)
    | Returned(data: Dataset)

  /** The user-code environment: (source text, callable name) to outcome. */
  type Runner = (string, string) -> Run

  /** `UserError(message, exception_message)` raised by the resolvers, or an
      exception from user code that reaches the caller unwrapped. */
  datatype Error = UserError(message: string, exceptionMessage: Option<string>) | Uncaught(exception: string)

  const EmptySource := UserError(SOURCE_IS_EMPTY, None)

  /** How the test section's `method` routes resolution. */
  datatype TestMethod = SplitFromMain | TestFromSource | OtherTestMethod

  /** How the meta-feature section's `method` routes resolution. */
  datatype MetaMethod = HoldoutSplit | HoldoutFromSource | OtherMetaMethod

  function TestMethodOf(methodName: string): (k: TestMethod)
    ensures k == SplitFromMain <==> methodName == SPLIT_FROM_MAIN
    ensures k == TestFromSource <==> methodName == FROM_SOURCE
  {
    if methodName == SPLIT_FROM_MAIN then SplitFromMain
    else if methodName == FROM_SOURCE then TestFromSource
    else OtherTestMethod
  }

  function MetaMethodOf(methodName: string): (k: MetaMethod)
    ensures k == HoldoutSplit <==> methodName == HOLDOUT_SPLIT
    ensures k == HoldoutFromSource <==> methodName == HOLDOUT_SOURCE
  {
    if methodName == HOLDOUT_SPLIT then HoldoutSplit
    else if methodName == HOLDOUT_SOURCE then HoldoutFromSource
    else OtherMetaMethod
  }

  /** `"".join(lines)`: the text is empty exactly when every line is. */
  function Join(lines: seq<string>): (code: string)
    ensures code == [] <==> forall i :: 0 <= i < |lines| ==> lines[i] == []
    ensures forall i :: 0 <= i < |lines| ==> |lines[i]| <= |code|
  {
    if |lines| == 0 then [] else lines[0] + Join(lines[1..])
  }

  /** Total number of characters over all lines. */
  function TotalLength(lines: seq<string>): nat
  {
    if |lines| == 0 then 0 else |lines[0]| + TotalLength(lines[1..])
  }

  /** Joining keeps every character: the text is as long as all lines together. */
  lemma {:induction false} JoinLength(lines: seq<string>)
    ensures |Join(lines)| == TotalLength(lines)
  {
    if |lines| > 0 {
      JoinLength(lines[1..]);
    }
  }

  /** Joining two runs of lines is joining each and concatenating: the text
      holds the lines in their order, nothing between them. */
  lemma {:induction false} JoinAppend(a: seq<string>, b: seq<string>)
    ensures Join(a + b) == Join(a) + Join(b)
  {
    if |a| == 0 {
      assert a + b == b;
    } else {
      assert (a + b)[1..] == a[1..] + b;
      JoinAppend(a[1..], b);
    }
  }

  /** The source check `not source` (with the test and meta sections' extra
      `'source' not in ...`): a missing key, `None` and `[]` all fail it; a
      list of empty strings passes. */
  predicate HasSource(source: Option<seq<string>>)
  {
    source.Some? && |source.value| > 0
  }

  /** `return_main_data_from_json`. Only an `Exception` raised by the
      extraction callable (or by unpacking its result) is wrapped, as
      `UserError('User code exception')` carrying its message. */
  function ResolveMain(job: Job, run: Runner): (r: Result<Dataset, Error>)
    ensures r == Failure(EmptySource) <==> !HasSource(job.main.source)
    ensures HasSource(job.main.source) ==>
              var out := run(Join(job.main.source.value), EXTRACT_MAIN);
              && (r.Success? <==> out.Returned?)
              && (out.Returned? ==> r == Success(out.data))
              && (out.Raised? ==> r == Failure(UserError(USER_CODE_EXCEPTION, Some(out.exception))))
              && (out.LoadFailed? || out.Exited? ==> r == Failure(Uncaught(out.exception)))
  {
    if !HasSource(job.main.source) then
      Failure(EmptySource)
    else
      match run(Join(job.main.source.value), EXTRACT_MAIN)
      case LoadFailed(e) => Failure(Uncaught(e))
      case Raised(e) => Failure(UserError(USER_CODE_EXCEPTION, Some(e)))
      case Exited(e) => Failure(Uncaught(e))
      case Returned(d) => Success(d)
  }

  /** `return_train_data_from_json`: the remainder of the test split (when
      active), then the remainder of the holdout split (when active). */
  function ResolveTrain(job: Job, run: Runner, split: Splitter): (r: Result<Dataset, Error>)
    ensures r.Failure? <==> ResolveMain(job, run).Failure?
    ensures r.Failure? ==> r.error == ResolveMain(job, run).error
    ensures IsPartitioner(split) && r.Success? ==>
              multiset(r.value) <= multiset(ResolveMain(job, run).value)
  {
    var main :- ResolveMain(job, run);
    var afterTest :=
      if job.test.methodName == SPLIT_FROM_MAIN then
        split(main, job.test.splitRatio, job.test.splitSeed).0
      else main;
    assert IsPartitioner(split) ==> multiset(afterTest) <= multiset(main) by {
      if IsPartitioner(split) && job.test.methodName == SPLIT_FROM_MAIN {
        var p := split(main, job.test.splitRatio, job.test.splitSeed);
        assert multiset(p.0) + multiset(p.1) == multiset(main);
      }
    }
    var train :=
      if job.meta.methodName == HOLDOUT_SPLIT then
        split(afterTest, job.meta.splitRatio, job.meta.seed).0
      else afterTest;
    assert IsPartitioner(split) ==> multiset(train) <= multiset(afterTest) by {
      if IsPartitioner(split) && job.meta.methodName == HOLDOUT_SPLIT {
        var p := split(afterTest, job.meta.splitRatio, job.meta.seed);
        assert multiset(p.0) + multiset(p.1) == multiset(afterTest);
      }
    }
    Success(train)
  }

  /** Loads `name` from the joined `source` lines and calls it, letting any
      exception through unwrapped (the test and holdout `source` paths). */
  function RunUnwrapped(source: Option<seq<string>>, name: string, run: Runner): (r: Result<Option<Dataset>, Error>)
    ensures !HasSource(source) ==> r == Failure(EmptySource)
    ensures HasSource(source) ==>
              var out := run(Join(source.value), name);
              && (r.Success? <==> out.Returned?)
              && (out.Returned? ==> r == Success(Some(out.data)))
              && (!out.Returned? ==> r == Failure(Uncaught(out.exception)))
  {
    if !HasSource(source) then
      Failure(EmptySource)
    else
      match run(Join(source.value), name)
      case LoadFailed(e) => Failure(Uncaught(e))
      case Raised(e) => Failure(Uncaught(e))
      case Exited(e) => Failure(Uncaught(e))
      case Returned(d) => Success(Some(d))
  }

  /** `return_test_data_from_json`; `Success(None)` is Python's implicit
      `return None` for an unrecognised method. */
  function ResolveTest(job: Job, run: Runner, split: Splitter): (r: Result<Option<Dataset>, Error>)
    ensures r == Success(None) <==> TestMethodOf(job.test.methodName) == OtherTestMethod
    ensures job.test.methodName == SPLIT_FROM_MAIN ==>
              (r.Failure? <==> ResolveMain(job, run).Failure?)
    ensures job.test.methodName == SPLIT_FROM_MAIN && r.Failure? ==>
              r.error == ResolveMain(job, run).error
    ensures IsPartitioner(split) && job.test.methodName == SPLIT_FROM_MAIN && r.Success? ==>
              multiset(r.value.value) <= multiset(ResolveMain(job, run).value)
  {
    if job.test.methodName == SPLIT_FROM_MAIN then
      var main :- ResolveMain(job, run);
      var held := split(main, job.test.splitRatio, job.test.splitSeed).1;
      assert IsPartitioner(split) ==> multiset(held) <= multiset(main) by {
        if IsPartitioner(split) {
          var p := split(main, job.test.splitRatio, job.test.splitSeed);
          assert multiset(p.0) + multiset(p.1) == multiset(main);
        }
      }
      Success(Some(held))
    else if job.test.methodName == FROM_SOURCE then
      RunUnwrapped(job.test.source, EXTRACT_TEST, run)
    else
      Success(None)
  }

  /** `return_holdout_data_from_json`: under `holdout_split` it replays the
      test split (when active) before taking the holdout side. */
  function ResolveHoldout(job: Job, run: Runner, split: Splitter): (r: Result<Option<Dataset>, Error>)
    ensures r == Success(None) <==> MetaMethodOf(job.meta.methodName) == OtherMetaMethod
    ensures job.meta.methodName == HOLDOUT_SPLIT ==>
              (r.Failure? <==> ResolveMain(job, run).Failure?)
    ensures job.meta.methodName == HOLDOUT_SPLIT && r.Failure? ==>
              r.error == ResolveMain(job, run).error
    ensures IsPartitioner(split) && job.meta.methodName == HOLDOUT_SPLIT && r.Success? ==>
              multiset(r.value.value) <= multiset(ResolveMain(job, run).value)
  {
    if job.meta.methodName == HOLDOUT_SPLIT then
      var main :- ResolveMain(job, run);
      var afterTest :=
        if job.test.methodName == SPLIT_FROM_MAIN then
          split(main, job.test.splitRatio, job.test.splitSeed).0
        else main;
      var held := split(afterTest, job.meta.splitRatio, job.meta.seed).1;
      assert IsPartitioner(split) ==> multiset(held) <= multiset(main) by {
        if IsPartitioner(split) {
          var p := split(afterTest, job.meta.splitRatio, job.meta.seed);
          assert multiset(p.0) + multiset(p.1) == multiset(afterTest);
          if job.test.methodName == SPLIT_FROM_MAIN {
            var q := split(main, job.test.splitRatio, job.test.splitSeed);
            assert multiset(q.0) + multiset(q.1) == multiset(main);
          }
        }
      }
      Success(Some(held))
    else if job.meta.methodName == HOLDOUT_SOURCE then
      RunUnwrapped(job.meta.source, EXTRACT_HOLDOUT, run)
    else
      Success(None)
  }
}
