/**
  `load_dataset_and_preprocess` of scripts/train.py: use the preprocessed
  file when it exists, otherwise preprocess the raw tracks and write the
  result; then split whichever (X, Y) was obtained.
*/
module Pipeline {
  import opened Wrappers
  import opened Datasets
  import opened Preprocessing
  import opened Splitting
  import opened Cache

  /** One row of the raw features table: a spectrogram and its target label. */
  datatype Track<F, L> = Track(spectrogram: seq<seq<F>>, target: L)

  /** The raw features table; its spectrogram column has shape frames × features. */
  datatype RawTable<F, L> = RawTable(frames: nat, features: nat, tracks: seq<Track<F, L>>)

  /** The spectrogram column, a tracks × frames × features array. */
  function Spectrograms<F, L>(tracks: seq<Track<F, L>>): (X: seq<seq<seq<F>>>)
    ensures |X| == |tracks|
    ensures forall t :: 0 <= t < |tracks| ==> X[t] == tracks[t].spectrogram
  {
    Column(tracks, (track: Track<F, L>) => track.spectrogram)
  }

  /** The target column. */
  function Targets<F, L>(tracks: seq<Track<F, L>>): (Y: seq<L>)
    ensures |Y| == |tracks|
    ensures forall t :: 0 <= t < |tracks| ==> Y[t] == tracks[t].target
  {
    Column(tracks, (track: Track<F, L>) => track.target)
  }

  /** Every spectrogram has the column's declared shape. */
  predicate WellShaped<F, L>(raw: RawTable<F, L>) {
    Shaped(Spectrograms(raw.tracks), raw.frames, raw.features)
  }

  /** The compute branch's (X, Y): the raw table's columns, preprocessed. */
  function PreprocessRaw<F, L>(raw: RawTable<F, L>): (d: Dataset<seq<F>, L>)
    requires WellShaped(raw)
    ensures Aligned(d) && |d.x| == |raw.tracks| * raw.frames
    ensures forall i :: 0 <= i < |d.x| ==> |d.x[i]| == raw.features
  {
    var X := Spectrograms(raw.tracks);
    PreprocessKeepsWidth(X, Targets(raw.tracks), raw.frames, raw.features);
    Preprocess(X, Targets(raw.tracks), raw.frames)
  }

  /**
    Cache or compute, then split. A present file is used as it is and left
    untouched; an absent one is created holding exactly the preprocessed
    (X, Y). Either way the split receives the (X, Y) the file now holds.
  */
  method LoadDatasetAndPreprocess<F, L>(store: Store<seq<F>, L>, raw: RawTable<F, L>,
                                        shuffle: seq<int> -> seq<int>,
                                        kfold: (seq<int>, int) -> seq<Run>, folds: int, runNumber: int)
    returns (r: Result<Splits<seq<F>, L>, Error>)
    requires store.data.None? ==> WellShaped(raw)
    requires IsShuffle(shuffle)
    modifies store
    ensures old(store.data).Some? ==> store.data == old(store.data)
    ensures old(store.data).None? ==>
      store.data == Some(Zip(PreprocessRaw(raw).x, PreprocessRaw(raw).y))
    ensures store.data.Some?
    ensures r == SplitAndLoad(ReadPreprocessed(store.data.value), shuffle, kfold, folds, runNumber)
    ensures old(store.data).None? ==> r == SplitAndLoad(PreprocessRaw(raw), shuffle, kfold, folds, runNumber)
  {
    var d: Dataset<seq<F>, L>;
    if store.data.Some? {  // os.path.isfile(preprocessed_path)
      d := ReadPreprocessed(store.data.value);
    } else {
      d := PreprocessRaw(raw);
      SavePreprocessed(d.x, d.y, store);
      assert d.y[..|d.x|] == d.y;
      UnzipZip(d.x, d.y);
    }
    r := SplitAndLoad(d, shuffle, kfold, folds, runNumber);
  }
}
