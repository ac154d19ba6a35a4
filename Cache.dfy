/**
  The preprocessed-features file of scripts/train.py: `save_preprocessed`
  appends one (X[i], Y[i]) row per feature row to a fresh table, and the read
  branch of `load_dataset_and_preprocess` splits the stored table back into
  its X and Y columns. The HDF5 file is an object holding either nothing (no
  file at the path) or the table's rows.
*/
module Cache {
  import opened Wrappers
  import opened Datasets

  /** The table being written, with the row buffer's append. */
  class Table<X, Y> {
    var rows: seq<Row<X, Y>>

    constructor ()
      ensures rows == []
    {
      rows := [];
    }

    /** Fill the row buffer with (x, y) and append it. */
    method Append(x: X, y: Y)
      modifies this
      ensures rows == old(rows) + [Row(x, y)]
    {
      rows := rows + [Row(x, y)];
    }
  }

  /** The file at the preprocessed-features path: absent, or holding a table. */
  class Store<X, Y> {
    var data: Option<seq<Row<X, Y>>>

    constructor (initial: Option<seq<Row<X, Y>>>)
      ensures data == initial
    {
      data := initial;
    }

    /** Opening the file for writing replaces whatever was there with the finished table. */
    method Write(rows: seq<Row<X, Y>>)
      modifies this
      ensures data == Some(rows)
    {
      data := Some(rows);
    }
  }

  /**
    `save_preprocessed`: row i of the new table is (xs[i], ys[i]) for every
    feature row i; labels past |xs| are not written. The source reads ys[i]
    for each such i, so it needs at least |xs| labels.
  */
  method SavePreprocessed<X, Y>(xs: seq<X>, ys: seq<Y>, store: Store<X, Y>)
    requires |xs| <= |ys|
    modifies store
    ensures store.data == Some(Zip(xs, ys[..|xs|]))
    ensures Unzip(store.data.value) == Dataset(xs, ys[..|xs|])
  {
    var table := new Table();
    for i := 0 to |xs|
      invariant table.rows == Zip(xs[..i], ys[..i])
    {
      ZipSnoc(xs[..i], ys[..i], xs[i], ys[i]);
      assert xs[..i + 1] == xs[..i] + [xs[i]];
      assert ys[..i + 1] == ys[..i] + [ys[i]];
      table.Append(xs[i], ys[i]);
    }
    assert xs[..|xs|] == xs;
    store.Write(table.rows);
    UnzipZip(xs, ys[..|xs|]);
  }

  /** The read branch: X and Y are the stored table's two columns. */
  function ReadPreprocessed<X, Y>(rows: seq<Row<X, Y>>): (d: Dataset<X, Y>)
    ensures Aligned(d) && |d.x| == |rows|
    ensures Zip(d.x, d.y) == rows
  {
    ZipUnzip(rows);
    Unzip(rows)
  }
}
