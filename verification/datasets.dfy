/** Datasets and the splitter that partitions them.

    A dataset is the pair (X, y) of features and labels, kept row-aligned by
    storing one (row, label) sample per position. The splitter stands for
    scikit-learn's `train_test_split(X, y, test_size, random_state, stratify=y)`:
    it is a parameter of the model, and the only thing assumed of it is that
    it partitions its input (`IsPartitioner`). Being a Dafny function value it
    is deterministic: equal (data, ratio, seed) give equal halves. */
module Datasets {

  import opened Wrappers

  type Row = seq<real>
  type Label = int
  type Sample = (Row, Label)
  type Dataset = seq<Sample>

  /** `test_size` and `random_state`, passed through untouched; the seed is
      an integer, so a call is reproducible (a null seed is not modelled). */
  type Ratio = real
  type Seed = int

  /** Returns (remainder, held-out side): the (X, y) and (X_test, y_test)
      halves of one `train_test_split` call. */
  type Splitter = (Dataset, Ratio, Seed) -> (Dataset, Dataset)

  /** Every sample of the input lands on exactly one side, as often as it
      occurs in the input. */
  ghost predicate IsPartitioner(split: Splitter) {
    forall d, ratio, seed ::
      multiset(split(d, ratio, seed).0) + multiset(split(d, ratio, seed).1) == multiset(d)
  }

  /** The partition assumption is consistent and admits real splits: a
      splitter that holds out the second half of every dataset meets it. */
  lemma PartitionerExists()
    ensures exists split: Splitter :: IsPartitioner(split)
  {
    var halve: Splitter := (d: Dataset, ratio: Ratio, seed: Seed) => (d[..|d| / 2], d[|d| / 2..]);
    forall d: Dataset, ratio: Ratio, seed: Seed
      ensures multiset(halve(d, ratio, seed).0) + multiset(halve(d, ratio, seed).1) == multiset(d)
    {
      assert d[..|d| / 2] + d[|d| / 2..] == d;
    }
    assert IsPartitioner(halve);
  }

  /** No sample occurs twice, so position and content identify a row. */
  ghost predicate NoDuplicates(d: Dataset) {
    forall s :: multiset(d)[s] <= 1
  }

  /** Multiset of an optional dataset; an absent side contributes nothing. */
  function Samples(d: Option<Dataset>): multiset<Sample>
  {
    match d
    case None => multiset{}
    case Some(s) => multiset(s)
  }
}
