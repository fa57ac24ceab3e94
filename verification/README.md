# xcessiv dataset resolution, modelled in Dafny

This project models the dataset-resolution logic of xcessiv's `parsers.py`.
The input is an "Extraction" job description with three sections:
`main_dataset`, `test_dataset` and `meta_feature_generation`. User-written
extraction code turns the main section into the main dataset (X, y). The
resolvers then build the train, test and holdout sets from it. They chain up
to two `train_test_split` calls: the test split (`split_from_main`, with
`split_ratio`/`split_seed`), then the holdout split (`holdout_split`, with
`split_ratio`/`seed`). The test and holdout sets can also come from their own
extraction code (methods `source` and `holdout_source`).

Files:

- `wrappers.dfy`: `Option` and `Result`. A raised exception becomes a `Failure`, and Python's implicit `return None` becomes `Success(None)`.
- `datasets.dfy`: a dataset is a sequence of (row, label) samples, so X and y stay row-aligned. `Splitter` stands for `train_test_split` and returns (remainder, held-out side). `IsPartitioner` is the only assumption about it: every sample lands on exactly one side, with its multiplicity.
- `parsers.dfy`: the job description, `"".join` with its length and concatenation lemmas, the user-code outcome (`LoadFailed`, `Raised`, `Exited`, `Returned`), the error type and the four resolvers.
- `partition_laws.dfy`: `TwoStage` is an independent reference that performs each split once. The replay law shows that the resolvers agree with it. The partition and disjointness laws follow.
- `error_laws.dfy`: source checks, error wrapping, and which user code each path runs.

User code and the splitter are function-valued parameters of the model. The
replay and partition laws therefore rest on two assumptions, listed under
"## Left out": the split seed is an integer, and the extraction code returns
the same data every time it is called. "No user code is run" is stated as
independence from the user-code environment: the result is the same for any
two `Runner`s.

Behaviour of the code that the model keeps:

- The source check is on the list (`not source`), not on the joined text. So `["", ""]` passes the check, and the main unit is loaded from the empty text (`ErrorLaws.EmptyLinesPassSourceCheck`).
- The errors raised are `UserError('Source is empty')` and `UserError('User code exception', exception_message=...)`.
- In `return_main_data_from_json`, the `try` covers the call of `extract_main_dataset` and the unpacking of its result into `X, y`. A wrongly shaped result is therefore wrapped on the main path, but reaches the caller raw on the test and holdout `source` paths.
- Only `Exception` subclasses are wrapped. Loading the code happens before the `try`, so a load failure is not wrapped. `SystemExit`, `KeyboardInterrupt` and other non-`Exception` exits are not caught either (`ErrorLaws.MainUnwrappedFailures`).

## Model

| member | source | states |
|---|---|---|
| `Parsers.TestMethodOf` | xcessiv/parsers.py:82-94 | test dispatch: `split_from_main` and `source` are recognised exactly when the method string equals them; every other string is "other" |
| `Parsers.MetaMethodOf` | xcessiv/parsers.py:118-140 | meta dispatch: `holdout_split` and `holdout_source` are recognised exactly when the method string equals them; every other string is "other" |
| `Parsers.Join` | xcessiv/parsers.py:23 | `"".join(lines)` is empty exactly when every line is empty, and it is at least as long as each line |
| `Parsers.JoinLength` | xcessiv/parsers.py:23 | the joined text has as many characters as all the lines together |
| `Parsers.JoinAppend` | xcessiv/parsers.py:23 | joining two runs of lines equals joining each run and concatenating the results, so the lines appear in order with nothing between them |
| `Parsers.ResolveMain` | xcessiv/parsers.py:20-34 | fails with `Source is empty` exactly when the source is null or an empty list. Otherwise it succeeds exactly when `extract_main_dataset` returns, and then with that data. An `Exception` from the callable becomes `UserError('User code exception')` with its message. A load failure or a non-`Exception` exit is passed through unwrapped |
| `Parsers.ResolveTrain` | xcessiv/parsers.py:48-68 | fails exactly when the main data fails, with the same error; under the partition assumption train is a sub-multiset of the main data |
| `Parsers.RunUnwrapped` | xcessiv/parsers.py:94-104 | a missing, null or empty source fails with `Source is empty`. Otherwise it succeeds exactly when the named callable returns, and then with that data. Any load failure or exception from user code is passed through unwrapped |
| `Parsers.ResolveTest` | xcessiv/parsers.py:82-104 | returns nothing exactly when the method is neither `split_from_main` nor `source`; under `split_from_main` it fails exactly when the main data fails, with main's own error, and the test set is a sub-multiset of main |
| `Parsers.ResolveHoldout` | xcessiv/parsers.py:118-150 | returns nothing exactly when the method is neither `holdout_split` nor `holdout_source`; under `holdout_split` it fails exactly when the main data fails, with main's own error, and the holdout set is a sub-multiset of main |
| `PartitionLaws.TwoStage` | xcessiv/parsers.py:50-66 | the single two-stage partition has a test side exactly when the test split is active and a holdout side exactly when the holdout split is active |
| `PartitionLaws.TwoStageIsPartition` | xcessiv/parsers.py:50-66 | the final remainder, the test side and the holdout side together are the main dataset as a multiset |
| `PartitionLaws.ResolversShareOnePartition` | xcessiv/parsers.py:48-138 | replay law: train, test (under `split_from_main`) and holdout (under `holdout_split`) are the pieces of one two-stage partition of main, with the test split first |
| `PartitionLaws.TrainIsMainWithoutSplits` | xcessiv/parsers.py:48-68 | with neither `split_from_main` nor `holdout_split`, train is the main data unchanged, errors included |
| `PartitionLaws.TrainTestPartition` | xcessiv/parsers.py:50-92 | under `split_from_main` without a holdout split, train and test together are main as a multiset, and their lengths add up to main's |
| `PartitionLaws.TrainTestHoldoutPartition` | xcessiv/parsers.py:48-138 | with both splits active, train, test and holdout together are main as a multiset, and their lengths add up to main's |
| `PartitionLaws.TrainHoldoutPartition` | xcessiv/parsers.py:118-138 | under `holdout_split` without a test split, train and holdout together are main as a multiset, and their lengths add up to main's |
| `PartitionLaws.TrainHoldoutDisjoint` | xcessiv/parsers.py:118-138 | under `holdout_split` with any test method, train and holdout together fit inside main; if main repeats no sample, they share none |
| `PartitionLaws.TestDisjointFromTrainAndHoldout` | xcessiv/parsers.py:82-92 | under `split_from_main` with a duplicate-free main, the test set shares no sample with train, nor with holdout when that split is active |
| `ErrorLaws.EmptyMainSourceRunsNoCode` | xcessiv/parsers.py:20-21 | a null or empty main source fails with `Source is empty` in the main, train and split-based test and holdout resolvers, whatever the user code does |
| `ErrorLaws.EmptyLinesPassSourceCheck` | xcessiv/parsers.py:20-25 | a non-empty list of empty lines passes the check, and the main unit is loaded from the empty text |
| `ErrorLaws.MainRunsOnlyMainUnit` | xcessiv/parsers.py:23-28 | main and train depend on the user code only through `extract_main_dataset`, loaded from the joined main source |
| `ErrorLaws.UserCodeErrorWrapping` | xcessiv/parsers.py:27-30 | an `Exception` from the main callable becomes `UserError('User code exception', message)` in main, train, and the split-based test and holdout resolvers; one from the test or holdout callable is passed through unwrapped |
| `ErrorLaws.MainUnwrappedFailures` | xcessiv/parsers.py:24-30 | a failure while loading the main unit, and a non-`Exception` exit of its callable, reach main, train, and the split-based test and holdout resolvers unwrapped |
| `ErrorLaws.MainReturnsExtraction` | xcessiv/parsers.py:27-34 | without either split, train is exactly the data `extract_main_dataset` returned |
| `ErrorLaws.TestSourceReturnsExtraction` | xcessiv/parsers.py:94-104 | under test method `source`, the result is what `extract_test_dataset` returned. Any load failure or exception reaches the caller unwrapped |
| `ErrorLaws.HoldoutSourceReturnsExtraction` | xcessiv/parsers.py:140-150 | under meta method `holdout_source`, the result is what `extract_holdout_dataset` returned. Any load failure or exception reaches the caller unwrapped |
| `ErrorLaws.MissingTestSourceRunsNoCode` | xcessiv/parsers.py:94-97 | test method `source` with a missing or empty source fails with `Source is empty`, whatever the user code does |
| `ErrorLaws.MissingHoldoutSourceRunsNoCode` | xcessiv/parsers.py:140-143 | meta method `holdout_source` with a missing or empty source fails with `Source is empty`, whatever the user code does |
| `ErrorLaws.TestSourceIgnoresMain` | xcessiv/parsers.py:94-104 | test method `source` ignores the main section and the splitter; it depends only on `extract_test_dataset` |
| `ErrorLaws.HoldoutSourceIgnoresMain` | xcessiv/parsers.py:140-150 | meta method `holdout_source` ignores the main and test sections and the splitter; it depends only on `extract_holdout_dataset` |

## Left out

- `return_estimator_from_json` (xcessiv/parsers.py:153-164) passes its input straight to dynamic loading and has no logic of its own.
- `import_object_from_string_code` and executing user code are not modelled. xcessiv/functions.py is not part of this model. Both are represented by the `Runner` parameter: given source text and a callable name, it either fails to load (`LoadFailed`), raises an `Exception` (`Raised`), exits with a `BaseException` that is not an `Exception` (`Exited`), or returns a dataset (`Returned`).
- The internals of scikit-learn's `train_test_split` are not modelled: stratified shuffling, the random generator, rounding a float `test_size` to a row count, and failing when a class has too few members. `Splitter` is a parameter. Only the multiset partition (`IsPartitioner`) is assumed, so stratification, subset sizes and the split's own exceptions are not stated. That includes the exact row counts in scenarios such as "100 rows at ratio 0.2 give 80/20".
- `np.array` coercion is treated as the identity. Numeric dtypes are not modelled. Features are sequences of reals and labels are integers.
- Extraction code that returns X and y of different lengths cannot be expressed: a dataset stores (row, label) pairs.
- JSON deserialisation and the `KeyError`s for missing required keys are left out, including a missing `main_dataset.source` key. The job description is a total datatype. Every `source` is null or a list of lines. In the test and meta sections, an absent key is modelled as null, because the code treats the two alike.
- Python truthiness of `source` values other than null and lists, such as a bare string, is not modelled.
- PartitionLaws.ResolversShareOnePartition: assumes an integer `split_seed`/`seed`. A JSON null there makes `train_test_split` draw from numpy's global generator, so the three resolvers would re-sample independently and the law would not hold of the program. The model's `Seed` is an integer and cannot express null.
- PartitionLaws.ResolversShareOnePartition: assumes extraction code that returns the same data on every call. Each resolver re-runs `extract_main_dataset`, and user code that reads a clock, randomness or changing files breaks the replay law. The `Runner` parameter is a function and cannot express such code. The same assumption underlies the train/test/holdout partition and disjointness lemmas.
- `Raised` stands for every `Exception` subclass raised by the extraction callable or by unpacking its result. The exception's type is not modelled, only its message.
