/**
  The shapes shared by the training script's stages: a dataset is an X column of
  feature rows beside a Y column of labels, and the preprocessed-features file
  stores the same data as a table of (X, Y) rows.
  Element types stay abstract: the feature values and labels are never inspected.
*/
module Datasets {

  /** An (X, Y) pair of parallel columns. */
  datatype Dataset<X, Y> = Dataset(x: seq<X>, y: seq<Y>)

  /** Row i of X belongs with label i of Y. */
  predicate Aligned<X, Y>(d: Dataset<X, Y>) {
    |d.x| == |d.y|
  }

  /** One record of the preprocessed table: a feature row and its label. */
  datatype Row<X, Y> = Row(x: X, y: Y)

  /** The table whose row i is (xs[i], ys[i]). */
  function Zip<X, Y>(xs: seq<X>, ys: seq<Y>): (rows: seq<Row<X, Y>>)
    requires |xs| == |ys|
    ensures |rows| == |xs|
    ensures forall i :: 0 <= i < |rows| ==> rows[i].x == xs[i] && rows[i].y == ys[i]
  {
    if xs == [] then [] else [Row(xs[0], ys[0])] + Zip(xs[1..], ys[1..])
  }

  /** The column that `field` projects out of each record, in record order. */
  function Column<R, C>(records: seq<R>, field: R -> C): (column: seq<C>)
    ensures |column| == |records|
    ensures forall i :: 0 <= i < |records| ==> column[i] == field(records[i])
  {
    if records == [] then [] else [field(records[0])] + Column(records[1..], field)
  }

  /** The X column of a table. */
  function ColumnX<X, Y>(rows: seq<Row<X, Y>>): (xs: seq<X>)
    ensures |xs| == |rows|
    ensures forall i :: 0 <= i < |rows| ==> xs[i] == rows[i].x
  {
    Column(rows, (row: Row<X, Y>) => row.x)
  }

  /** The Y column of a table. */
  function ColumnY<X, Y>(rows: seq<Row<X, Y>>): (ys: seq<Y>)
    ensures |ys| == |rows|
    ensures forall i :: 0 <= i < |rows| ==> ys[i] == rows[i].y
  {
    Column(rows, (row: Row<X, Y>) => row.y)
  }

  /** Splitting a table into its two columns. */
  function Unzip<X, Y>(rows: seq<Row<X, Y>>): (d: Dataset<X, Y>)
    ensures Aligned(d) && |d.x| == |rows|
  {
    Dataset(ColumnX(rows), ColumnY(rows))
  }

  /** Writing two aligned columns as rows and reading the columns back gives them unchanged. */
  lemma UnzipZip<X, Y>(xs: seq<X>, ys: seq<Y>)
    requires |xs| == |ys|
    ensures Unzip(Zip(xs, ys)) == Dataset(xs, ys)
  {
  }

  /** Reading a table's columns and writing them as rows gives the table unchanged. */
  lemma ZipUnzip<X, Y>(rows: seq<Row<X, Y>>)
    ensures Zip(Unzip(rows).x, Unzip(rows).y) == rows
  {
  }

  /** Appending one row at the end of the columns appends it at the end of the table. */
  lemma ZipSnoc<X, Y>(xs: seq<X>, ys: seq<Y>, x: X, y: Y)
    requires |xs| == |ys|
    ensures Zip(xs + [x], ys + [y]) == Zip(xs, ys) + [Row(x, y)]
  {
  }
}
