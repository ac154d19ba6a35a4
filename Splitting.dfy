/**
  `split_and_load_into_theano` of scripts/train.py: the row indices 0..n-1 are
  shuffled, a k-fold scheme turns them into runs, the configured run is chosen
  and X and Y are gathered (numpy.take along axis 0) by its Train, Valid and
  Test index sequences.
  The generator's shuffle and the k-fold scheme are code this model cannot
  see; both arrive as function parameters.
*/
module Splitting {
  import opened Wrappers
  import opened Datasets

  datatype Error =
    | IndexError           // numpy.take or list indexing outside the sequence
    | RunNumberOutOfRange  // a run number outside 1..|runs|

  /** One cross-validation run: three index sequences into the rows. */
  datatype Run = Run(train: seq<int>, valid: seq<int>, test: seq<int>)

  /** The three gathered parts of the selected run. */
  datatype Splits<X, Y> = Splits(train: Dataset<X, Y>, valid: Dataset<X, Y>, test: Dataset<X, Y>)

  /** numpy.arange(n). */
  function Range(n: nat): (r: seq<int>)
    ensures |r| == n
    ensures forall i :: 0 <= i < n ==> r[i] == i
  {
    seq(n, i => i)
  }

  /** What RandomState.shuffle guarantees: it permutes whatever it is given. */
  ghost predicate IsShuffle(shuffle: seq<int> -> seq<int>) {
    forall s :: multiset(shuffle(s)) == multiset(s)
  }

  /** The shuffled `idxs`: the generator applied to 0..n-1. */
  function ShuffledIndices(n: nat, shuffle: seq<int> -> seq<int>): (idxs: seq<int>)
    requires IsShuffle(shuffle)
    ensures |idxs| == n && multiset(idxs) == multiset(Range(n))
  {
    var idxs := shuffle(Range(n));
    assert |idxs| == |multiset(idxs)| == |multiset(Range(n))| == n;
    idxs
  }

  /** A permutation of 0..n-1 holds every index below n and nothing else, each once. */
  lemma PermutationOfRange(idxs: seq<int>, n: nat)
    requires multiset(idxs) == multiset(Range(n))
    ensures |idxs| == n
    ensures forall k :: 0 <= k < |idxs| ==> 0 <= idxs[k] < n
    ensures forall v :: 0 <= v < n ==> v in idxs
    ensures forall k, m :: 0 <= k < m < |idxs| ==> idxs[k] != idxs[m]
  {
    assert |idxs| == |multiset(idxs)| == |multiset(Range(n))| == n;
    forall k | 0 <= k < |idxs| ensures 0 <= idxs[k] < n {
      assert idxs[k] in multiset(idxs);
      assert idxs[k] in Range(n);
    }
    forall v | 0 <= v < n ensures v in idxs {
      assert Range(n)[v] == v;
      assert v in multiset(Range(n));
    }
    forall k, m | 0 <= k < m < |idxs| ensures idxs[k] != idxs[m] {
      if idxs[k] == idxs[m] {
        var v := idxs[k];
        CountAtLeastTwo(idxs, k, m);
        RangeCountOne(n, v);
        assert false;
      }
    }
  }

  /** A value at two positions occurs at least twice. */
  lemma CountAtLeastTwo(s: seq<int>, k: nat, m: nat)
    requires k < m < |s| && s[k] == s[m]
    ensures multiset(s)[s[k]] >= 2
  {
    assert s == s[..k] + [s[k]] + s[k + 1..m] + [s[m]] + s[m + 1..];
  }

  /** Each value occurs in 0..n-1 at most once. */
  lemma {:induction false} RangeCountOne(n: nat, v: int)
    ensures multiset(Range(n))[v] <= 1
  {
    if n > 0 {
      assert Range(n) == Range(n - 1) + [n - 1];
      RangeCountOne(n - 1, v);
      if v == n - 1 {
        assert v !in Range(n - 1);
      }
    }
  }

  /** kf.runs[run_n - 1] with the configuration's 1-indexed run number. */
  function SelectRun(runs: seq<Run>, runNumber: int): (r: Result<Run, Error>)
    ensures r.Ok? <==> 1 <= runNumber <= |runs|
    ensures r.Ok? ==> r.value == runs[runNumber - 1]
    ensures r.Err? ==> r.error == RunNumberOutOfRange
  {
    if 1 <= runNumber <= |runs| then Ok(runs[runNumber - 1]) else Err(RunNumberOutOfRange)
  }

  /** kf.runs[run_n - 1] under Python's list indexing, where a negative index counts from the end. */
  function SelectRunAsWritten(runs: seq<Run>, runNumber: int): (r: Result<Run, Error>)
    ensures r.Ok? <==> 1 - |runs| <= runNumber <= |runs|
    ensures r.Ok? ==> r.value == runs[PyIndex(runNumber - 1, |runs|)]
    ensures r.Err? ==> r.error == IndexError
  {
    var k := runNumber - 1;
    if InBounds(k, |runs|) then Ok(runs[PyIndex(k, |runs|)]) else Err(IndexError)
  }

  /** Run number 0, which the 1-indexed configuration does not mean, silently picks the last run. */
  lemma RunNumberZeroPicksLastRun(runs: seq<Run>)
    requires |runs| > 0
    ensures SelectRun(runs, 0).Err?
    ensures SelectRunAsWritten(runs, 0) == Ok(runs[|runs| - 1])
  {
  }

  /** On the configured range 1..|runs| the written lookup and the checked one agree. */
  lemma SelectRunAgrees(runs: seq<Run>, runNumber: int)
    requires 1 <= runNumber <= |runs|
    ensures SelectRunAsWritten(runs, runNumber) == SelectRun(runs, runNumber)
  {
  }

  /** numpy accepts an index k into n elements when -n <= k < n. */
  predicate InBounds(k: int, n: nat) {
    -(n as int) <= k < n
  }

  /** The position an accepted index denotes: a negative one counts from the end. */
  function PyIndex(k: int, n: nat): (p: nat)
    requires InBounds(k, n)
    ensures p < n
    ensures p == k || p == k + n
  {
    if k < 0 then k + n else k
  }

  /** Every index of `idx` is accepted for n elements. */
  predicate AllInBounds(idx: seq<int>, n: nat) {
    forall k :: 0 <= k < |idx| ==> InBounds(idx[k], n)
  }

  /** numpy.take(a, idx, axis=0) in its default 'raise' mode. */
  function Take<T>(a: seq<T>, idx: seq<int>): (r: Result<seq<T>, Error>)
    ensures r.Ok? <==> AllInBounds(idx, |a|)
    ensures r.Ok? ==> |r.value| == |idx|
    ensures r.Ok? ==> forall k :: 0 <= k < |idx| ==> r.value[k] == a[PyIndex(idx[k], |a|)]
    ensures r.Err? ==> r.error == IndexError
  {
    if idx == [] then Ok([])
    else if !InBounds(idx[0], |a|) then Err(IndexError)
    else
      var rest :- Take(a, idx[1..]);
      Ok([a[PyIndex(idx[0], |a|)]] + rest)
  }

  /** g holds, in order, the X rows and the labels that `idx` names. */
  ghost predicate GatheredBy<X, Y>(g: Dataset<X, Y>, d: Dataset<X, Y>, idx: seq<int>)
    requires AllInBounds(idx, |d.x|) && AllInBounds(idx, |d.y|)
  {
    |g.x| == |idx| && |g.y| == |idx| &&
    forall k :: 0 <= k < |idx| ==>
      g.x[k] == d.x[PyIndex(idx[k], |d.x|)] && g.y[k] == d.y[PyIndex(idx[k], |d.y|)]
  }

  /** The two numpy.take calls of one part: X and Y gathered by the same indices. */
  function Gather<X, Y>(d: Dataset<X, Y>, idx: seq<int>): (r: Result<Dataset<X, Y>, Error>)
    ensures r.Ok? <==> AllInBounds(idx, |d.x|) && AllInBounds(idx, |d.y|)
    ensures r.Ok? ==> Aligned(r.value) && GatheredBy(r.value, d, idx)
    ensures r.Err? ==> r.error == IndexError
  {
    var x :- Take(d.x, idx);
    var y :- Take(d.y, idx);
    Ok(Dataset(x, y))
  }

  /** Gathering the two columns separately equals gathering whole (X, Y) rows. */
  lemma GatherTakesRows<X, Y>(d: Dataset<X, Y>, idx: seq<int>)
    requires Aligned(d) && AllInBounds(idx, |d.x|)
    ensures Take(Zip(d.x, d.y), idx).Ok? && Gather(d, idx).Ok?
    ensures Zip(Gather(d, idx).value.x, Gather(d, idx).value.y) == Take(Zip(d.x, d.y), idx).value
  {
  }

  /** Every index of the run fits both columns. */
  predicate RunFits<X, Y>(d: Dataset<X, Y>, run: Run) {
    AllInBounds(run.train, |d.x|) && AllInBounds(run.valid, |d.x|) && AllInBounds(run.test, |d.x|) &&
    AllInBounds(run.train, |d.y|) && AllInBounds(run.valid, |d.y|) && AllInBounds(run.test, |d.y|)
  }

  /** train, valid and test are the rows of d that the run's own index sequences name, X and Y aligned. */
  ghost predicate SplitOf<X, Y>(s: Splits<X, Y>, d: Dataset<X, Y>, run: Run)
    requires RunFits(d, run)
  {
    GatheredBy(s.train, d, run.train) && GatheredBy(s.valid, d, run.valid) &&
    GatheredBy(s.test, d, run.test) &&
    Aligned(s.train) && Aligned(s.valid) && Aligned(s.test)
  }

  /** The six numpy.take calls for the selected run. */
  function GatherRun<X, Y>(d: Dataset<X, Y>, run: Run): (r: Result<Splits<X, Y>, Error>)
    ensures r.Ok? <==> RunFits(d, run)
    ensures r.Ok? ==> SplitOf(r.value, d, run)
    ensures r.Err? ==> r.error == IndexError
  {
    var train :- Gather(d, run.train);
    var valid :- Gather(d, run.valid);
    var test :- Gather(d, run.test);
    Ok(Splits(train, valid, test))
  }

  /** The runs the k-fold scheme builds from the shuffled indices. */
  function Runs(n: nat, shuffle: seq<int> -> seq<int>, kfold: (seq<int>, int) -> seq<Run>, folds: int): seq<Run>
    requires IsShuffle(shuffle)
  {
    kfold(ShuffledIndices(n, shuffle), folds)
  }

  /** The whole split with the checked run lookup: shuffle, choose the run, gather its three parts. */
  function SplitAndLoad<X, Y>(d: Dataset<X, Y>, shuffle: seq<int> -> seq<int>,
                              kfold: (seq<int>, int) -> seq<Run>, folds: int, runNumber: int)
    : (r: Result<Splits<X, Y>, Error>)
    requires IsShuffle(shuffle)
    ensures var runs := Runs(|d.x|, shuffle, kfold, folds);
      r.Ok? <==> 1 <= runNumber <= |runs| && RunFits(d, runs[runNumber - 1])
    ensures var runs := Runs(|d.x|, shuffle, kfold, folds);
      r.Ok? ==> SplitOf(r.value, d, runs[runNumber - 1])
    ensures var runs := Runs(|d.x|, shuffle, kfold, folds);
      !(1 <= runNumber <= |runs|) ==> r == Err(RunNumberOutOfRange)
  {
    var run :- SelectRun(Runs(|d.x|, shuffle, kfold, folds), runNumber);
    GatherRun(d, run)
  }

  /** The whole split as written: the run is looked up with Python's list indexing. */
  function SplitAndLoadAsWritten<X, Y>(d: Dataset<X, Y>, shuffle: seq<int> -> seq<int>,
                                       kfold: (seq<int>, int) -> seq<Run>, folds: int, runNumber: int)
    : (r: Result<Splits<X, Y>, Error>)
    requires IsShuffle(shuffle)
    ensures var runs := Runs(|d.x|, shuffle, kfold, folds);
      r.Ok? <==> InBounds(runNumber - 1, |runs|) && RunFits(d, runs[PyIndex(runNumber - 1, |runs|)])
    ensures var runs := Runs(|d.x|, shuffle, kfold, folds);
      r.Ok? ==> SplitOf(r.value, d, runs[PyIndex(runNumber - 1, |runs|)])
    ensures r.Err? ==> r.error == IndexError
  {
    var run :- SelectRunAsWritten(Runs(|d.x|, shuffle, kfold, folds), runNumber);
    GatherRun(d, run)
  }

  /** For every run number in 1..|runs| the split as written and the checked split agree. */
  lemma SplitAndLoadAgrees<X, Y>(d: Dataset<X, Y>, shuffle: seq<int> -> seq<int>,
                                 kfold: (seq<int>, int) -> seq<Run>, folds: int, runNumber: int)
    requires IsShuffle(shuffle)
    requires 1 <= runNumber <= |Runs(|d.x|, shuffle, kfold, folds)|
    ensures SplitAndLoadAsWritten(d, shuffle, kfold, folds, runNumber) ==
            SplitAndLoad(d, shuffle, kfold, folds, runNumber)
  {
  }

  /**
    Run number 0: the checked split rejects it, while the split as written
    gathers the last run; a number past |runs| is an IndexError as written.
  */
  lemma SplitRunNumberOutside<X, Y>(d: Dataset<X, Y>, shuffle: seq<int> -> seq<int>,
                                    kfold: (seq<int>, int) -> seq<Run>, folds: int)
    requires IsShuffle(shuffle)
    requires |Runs(|d.x|, shuffle, kfold, folds)| > 0
    ensures var runs := Runs(|d.x|, shuffle, kfold, folds);
      SplitAndLoad(d, shuffle, kfold, folds, 0) == Err(RunNumberOutOfRange) &&
      SplitAndLoadAsWritten(d, shuffle, kfold, folds, 0) == GatherRun(d, runs[|runs| - 1]) &&
      SplitAndLoadAsWritten(d, shuffle, kfold, folds, |runs| + 1) == Err(IndexError)
  {
  }
}
