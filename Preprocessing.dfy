/**
  `preprocess` of scripts/train.py without its standardisation step: a
  tracks × frames × features array becomes a sequence of frame rows (a
  row-major reshape) and each track's label is repeated once per frame.
*/
module Preprocessing {
  import opened Datasets

  /** Every track holds `frames` frames (the array's second dimension). */
  predicate HasFrames<F>(X: seq<seq<seq<F>>>, frames: nat) {
    forall t :: 0 <= t < |X| ==> |X[t]| == frames
  }

  /** The array's full shape: |X| tracks of `frames` frames of `features` values each. */
  predicate Shaped<F>(X: seq<seq<seq<F>>>, frames: nat, features: nat) {
    HasFrames(X, frames) &&
    forall t, f :: 0 <= t < |X| && 0 <= f < frames ==> |X[t][f]| == features
  }

  /** numpy.reshape of X to (tracks * frames, features): the tracks' frames, concatenated in order. */
  function Reshape<F>(X: seq<seq<seq<F>>>, frames: nat): (rows: seq<seq<F>>)
    requires HasFrames(X, frames)
    ensures |rows| == |X| * frames
  {
    if X == [] then [] else X[0] + Reshape(X[1..], frames)
  }

  /** numpy.repeat(Y, frames, axis=0): each label, `frames` times in a row. */
  function Repeat<L>(Y: seq<L>, frames: nat): (labels: seq<L>)
    ensures |labels| == |Y| * frames
  {
    if Y == [] then [] else seq(frames, _ => Y[0]) + Repeat(Y[1..], frames)
  }

  /** The reshaped X and the repeated Y. */
  function Preprocess<F, L>(X: seq<seq<seq<F>>>, Y: seq<L>, frames: nat): (d: Dataset<seq<F>, L>)
    requires HasFrames(X, frames)
    ensures |d.x| == |X| * frames && |d.y| == |Y| * frames
    ensures |X| == |Y| ==> Aligned(d)
  {
    Dataset(Reshape(X, frames), Repeat(Y, frames))
  }

  /** Frame f of track t lands on row t * frames + f. */
  lemma {:induction false} ReshapeAt<F>(X: seq<seq<seq<F>>>, frames: nat, t: nat, f: nat)
    requires HasFrames(X, frames)
    requires t < |X| && f < frames
    ensures t * frames + f < |Reshape(X, frames)|
    ensures Reshape(X, frames)[t * frames + f] == X[t][f]
  {
    if t > 0 {
      ReshapeAt(X[1..], frames, t - 1, f);
      assert (t - 1) * frames + f + frames == t * frames + f;
    }
  }

  /** Track t's label fills rows t * frames through t * frames + frames - 1. */
  lemma {:induction false} RepeatAt<L>(Y: seq<L>, frames: nat, t: nat, f: nat)
    requires t < |Y| && f < frames
    ensures t * frames + f < |Repeat(Y, frames)|
    ensures Repeat(Y, frames)[t * frames + f] == Y[t]
  {
    if t > 0 {
      RepeatAt(Y[1..], frames, t - 1, f);
      assert (t - 1) * frames + f + frames == t * frames + f;
    }
  }

  /** Row i splits into its track i / frames and its frame i % frames. */
  lemma RowSplit(i: nat, frames: nat, tracks: nat)
    requires i < tracks * frames
    ensures frames > 0
    ensures i / frames < tracks && i % frames < frames
    ensures (i / frames) * frames + i % frames == i
  {
  }

  /** Row i of the reshape is frame i % frames of track i / frames. */
  lemma ReshapeRow<F>(X: seq<seq<seq<F>>>, frames: nat, i: nat)
    requires HasFrames(X, frames)
    requires i < |X| * frames
    ensures i / frames < |X| && i % frames < frames
    ensures Reshape(X, frames)[i] == X[i / frames][i % frames]
  {
    var t, f := i / frames, i % frames;
    RowSplit(i, frames, |X|);
    ReshapeAt(X, frames, t, f);
  }

  /** The reshape is row-major: row i is frame i % frames of track i / frames. */
  lemma ReshapeRowMajor<F>(X: seq<seq<seq<F>>>, frames: nat)
    requires HasFrames(X, frames)
    ensures var rows := Reshape(X, frames);
      forall i :: 0 <= i < |rows| ==>
        i / frames < |X| && i % frames < frames && rows[i] == X[i / frames][i % frames]
  {
    var rows := Reshape(X, frames);
    forall i | 0 <= i < |rows|
      ensures i / frames < |X| && i % frames < frames && rows[i] == X[i / frames][i % frames]
    {
      ReshapeRow(X, frames, i);
    }
  }

  /** Label i of the repeat is the label of track i / frames. */
  lemma RepeatRow<L>(Y: seq<L>, frames: nat, i: nat)
    requires i < |Y| * frames
    ensures i / frames < |Y|
    ensures Repeat(Y, frames)[i] == Y[i / frames]
  {
    var t, f := i / frames, i % frames;
    RowSplit(i, frames, |Y|);
    RepeatAt(Y, frames, t, f);
  }

  /** Row i's label is the label of track i / frames. */
  lemma RepeatRowMajor<L>(Y: seq<L>, frames: nat)
    ensures var labels := Repeat(Y, frames);
      forall i :: 0 <= i < |labels| ==> i / frames < |Y| && labels[i] == Y[i / frames]
  {
    var labels := Repeat(Y, frames);
    forall i | 0 <= i < |labels| ensures i / frames < |Y| && labels[i] == Y[i / frames] {
      RepeatRow(Y, frames, i);
    }
  }

  /**
    With one label per track, feature row i and label i come from the same
    track: frame i % frames of track i / frames, and that track's label.
  */
  lemma PreprocessAligned<F, L>(X: seq<seq<seq<F>>>, Y: seq<L>, frames: nat)
    requires HasFrames(X, frames) && |X| == |Y|
    ensures var d := Preprocess(X, Y, frames);
      Aligned(d) && |d.x| == |X| * frames &&
      forall i :: 0 <= i < |d.x| ==>
        i / frames < |X| && i % frames < frames &&
        d.x[i] == X[i / frames][i % frames] && d.y[i] == Y[i / frames]
  {
    var d := Preprocess(X, Y, frames);
    forall i | 0 <= i < |d.x|
      ensures i / frames < |X| && i % frames < frames
      ensures d.x[i] == X[i / frames][i % frames] && d.y[i] == Y[i / frames]
    {
      ReshapeRow(X, frames, i);
      RepeatRow(Y, frames, i);
    }
  }

  /** Every flattened row keeps the original feature-vector length. */
  lemma PreprocessKeepsWidth<F, L>(X: seq<seq<seq<F>>>, Y: seq<L>, frames: nat, features: nat)
    requires Shaped(X, frames, features)
    ensures var rows := Preprocess(X, Y, frames).x;
      forall i :: 0 <= i < |rows| ==> |rows[i]| == features
  {
    var rows := Preprocess(X, Y, frames).x;
    forall i | 0 <= i < |rows| ensures |rows[i]| == features {
      ReshapeRow(X, frames, i);
    }
  }
}
