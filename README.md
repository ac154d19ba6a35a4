# Genretron dataset shaping, in Dafny

This project models the deterministic dataset pipeline of Genretron's training
script (`scripts/train.py`). That pipeline turns a table of audio tracks into
train, validation and test sets for a genre classifier:

1. **Preprocess**: a tracks × frames × features spectrogram array becomes one
   feature row per frame (a row-major reshape). Each track's target label is
   repeated once per frame (`Preprocessing`).
2. **Split**: the row indices `0..n-1` are shuffled and handed to a k-fold
   scheme. The 1-indexed run number picks one run, and X and Y are gathered
   by that run's Train, Valid and Test index sequences (`Splitting`).
3. **Cache**: the preprocessed (X, Y) is written as a table of `(X[i], Y[i])`
   rows, one appended per feature row. Reading it back splits the table into
   its X and Y columns (`Datasets`, `Cache`).
4. **Cache or compute**: a present preprocessed file is used as it is.
   Otherwise the raw tracks are preprocessed and the result is written. The
   split is then applied in both cases (`Pipeline`).

Feature values and labels are abstract type parameters, so the model has no
floating point. The generator's shuffle is the function parameter `shuffle`,
and the only thing assumed of it is that it permutes its argument. The k-fold
scheme is the function parameter `kfold`. The preprocessed file is a `Store`
object, which holds either nothing (no file at the path) or a sequence of rows.

Files: `Wrappers.dfy` (Option, Result), `Datasets.dfy`, `Preprocessing.dfy`,
`Splitting.dfy`, `Cache.dfy`, `Pipeline.dfy`.

## Model

| member | source | states |
|---|---|---|
| `Preprocessing.Reshape` | scripts/train.py:35 | the reshaped array has tracks × frames rows |
| `Preprocessing.Repeat` | scripts/train.py:36 | the repeated labels number labels × frames |
| `Preprocessing.Preprocess` | scripts/train.py:33-42 | X_flat has tracks × frames rows and Y_flat has labels × frames; with one label per track, the two have the same length |
| `Preprocessing.ReshapeAt` | scripts/train.py:35 | frame f of track t is row t × frames + f |
| `Preprocessing.ReshapeRow` | scripts/train.py:35 | any single row i below tracks × frames is frame i % frames of track i / frames |
| `Preprocessing.ReshapeRowMajor` | scripts/train.py:35 | row i is frame i % frames of track i / frames (row-major order) |
| `Preprocessing.RepeatAt` | scripts/train.py:36 | track t's label fills the `frames` consecutive rows that start at t × frames, in track order |
| `Preprocessing.RepeatRow` | scripts/train.py:36 | any single label i below labels × frames is the label of track i / frames |
| `Preprocessing.RepeatRowMajor` | scripts/train.py:36 | label i is the label of track i / frames |
| `Preprocessing.PreprocessAligned` | scripts/train.py:35-36 | feature row i and label i both come from track i / frames |
| `Preprocessing.PreprocessKeepsWidth` | scripts/train.py:35 | every flattened row keeps the original feature-vector length |
| `Splitting.Range` | scripts/train.py:46 | arange(n) holds 0..n-1 in order |
| `Splitting.ShuffledIndices` | scripts/train.py:46-47 | the shuffled indices have length n and the same multiset as 0..n-1 |
| `Splitting.PermutationOfRange` | scripts/train.py:46-47 | a permutation of 0..n-1 holds only indices below n, holds every one of them, and holds each exactly once |
| `Splitting.SelectRun` | scripts/train.py:53 | a run number selects `runs[run_n - 1]` exactly when 1 <= run_n <= \|runs\|; any other number is an error |
| `Splitting.SelectRunAsWritten` | scripts/train.py:53 | under Python list indexing the lookup succeeds for 1 - \|runs\| <= run_n <= \|runs\|, and non-positive numbers count from the end |
| `Splitting.RunNumberZeroPicksLastRun` | scripts/train.py:53 | run number 0 is rejected by the checked lookup but selects the last run as written |
| `Splitting.SelectRunAgrees` | scripts/train.py:53 | the written and the checked lookups agree on every run number in 1..\|runs\| |
| `Splitting.PyIndex` | scripts/train.py:55-60 | an accepted index denotes a position below n: itself, or itself plus n when negative |
| `Splitting.Take` | scripts/train.py:55 | numpy.take succeeds exactly when every index lies in [-n, n); then the result has one element per index, the element that index names, and otherwise the result is IndexError |
| `Splitting.Gather` | scripts/train.py:55-56 | the X and Y gathers succeed exactly when every index fits both columns; the parts then have equal lengths and element k of each is the row that index k names |
| `Splitting.GatherTakesRows` | scripts/train.py:55-60 | gathering the X and Y columns separately and zipping them gives the same result as gathering whole (X, Y) rows |
| `Splitting.GatherRun` | scripts/train.py:55-60 | the six gathers of a run succeed exactly when all of its Train, Valid and Test indices fit both columns; train, valid and test are then each gathered by the run's own indices, X and Y aligned in each; otherwise the result is IndexError |
| `Splitting.SplitAndLoadAsWritten` | scripts/train.py:45-69 | the split with the lookup as written succeeds exactly when run_n - 1 is a valid Python index into the runs and the run it names fits both columns; the parts are then that run's gathers, and every failure is an IndexError |
| `Splitting.SplitAndLoad` | scripts/train.py:45-69 | the split with the checked lookup succeeds exactly when 1 <= run_n <= \|runs\| and run run_n fits both columns; the parts are then that run's gathers, X and Y aligned; a run number outside 1..\|runs\| is RunNumberOutOfRange |
| `Splitting.SplitAndLoadAgrees` | scripts/train.py:45-69 | for every run number in 1..\|runs\| the split as written and the checked split give the same result |
| `Splitting.SplitRunNumberOutside` | scripts/train.py:53 | with run number 0 the checked split is RunNumberOutOfRange while the split as written gathers the last run; run number \|runs\| + 1 is an IndexError as written |
| `Datasets.Zip` | scripts/train.py:81-84 | row i of the table is (X[i], Y[i]), one row per feature row |
| `Datasets.Column` | scripts/train.py:96-97 | a column holds one entry per record, the projected field of each record, in record order |
| `Datasets.ColumnX` | scripts/train.py:96 | the X column holds, in order, the X field of each table row |
| `Datasets.ColumnY` | scripts/train.py:97 | the Y column holds, in order, the Y field of each table row |
| `Datasets.Unzip` | scripts/train.py:96-97 | the read-back X and Y columns are as long as the table |
| `Datasets.UnzipZip` | scripts/train.py:81-97 | writing X and Y as rows and reading the columns back gives X and Y unchanged |
| `Datasets.ZipUnzip` | scripts/train.py:93-97 | reading a table's columns and zipping them gives the table unchanged |
| `Datasets.ZipSnoc` | scripts/train.py:80-84 | appending one (x, y) row extends the table by exactly that row, at the end |
| `Cache.Table.constructor` | scripts/train.py:79 | a freshly created table has no rows |
| `Cache.Table.Append` | scripts/train.py:84 | an append adds one row at the end of the table and changes nothing else |
| `Cache.Store.Write` | scripts/train.py:73-86 | after writing, the file holds exactly the table that was built |
| `Cache.SavePreprocessed` | scripts/train.py:72-86 | the file ends up holding exactly \|X\| rows, in order, with row i equal to (X[i], Y[i]); reading it back gives X and the first \|X\| labels |
| `Cache.ReadPreprocessed` | scripts/train.py:91-97 | the read-back X and Y are aligned, and zipping them gives back the stored table |
| `Pipeline.Spectrograms` | scripts/train.py:105 | the spectrogram column holds each track's spectrogram, in order |
| `Pipeline.Targets` | scripts/train.py:106 | the target column holds each track's label, in order |
| `Pipeline.PreprocessRaw` | scripts/train.py:104-107 | preprocessing the raw table gives aligned X and Y with tracks × frames rows, each row with the declared feature length |
| `Pipeline.LoadDatasetAndPreprocess` | scripts/train.py:89-111 | a present file is left unchanged and used as stored, and the raw table need not be well shaped then; an absent one ends up holding exactly the preprocessed (X, Y); either way the split is applied to the (X, Y) that the file now holds; `os.path.isfile` (line 91) is `store.data.Some?` |

## Left out

- Standardisation (`StandardScaler` fit and transform, scripts/train.py:38-40): floating-point numerics in scikit-learn. `Preprocess` returns the reshaped rows without it.
- The k-fold scheme (`KFold`, scripts/train.py:18, 52): `cross_validation` is not part of this model. Its runs come from the parameter `kfold`, which receives the shuffled indices and the fold count. So nothing is claimed about disjoint or covering Train/Valid/Test sets, and the fold count is not validated.
- Specific shuffle results (`RandomState`, scripts/train.py:47, 150): the parameter `shuffle` is assumed only to permute its argument. Shuffling the fresh local `idxs` in place is modelled as applying `shuffle` to 0..n-1, because no other reference to that array exists.
- Theano shared variables (scripts/train.py:26-30, 62-69): these only copy the gathered arrays. `SplitAndLoad` returns the gathered datasets themselves.
- The classifier, its training loop, `LogisticRegression`, `MLP` and the activation table (scripts/train.py:15-17, 113-119, 155-178): these are symbolic numerics in modules that are not part of this model.
- Configuration, logging, output setup and the `__main__` block (scripts/train.py:121-152): these become the parameters `folds`, `runNumber`, `shuffle`, `store` and `raw`.
- HDF5 file handling (scripts/train.py:21-23, 73, 79, 86, 92-94, 99-101): the preprocessed file is an in-memory `Store`, and the raw table is a value passed in even when the cached branch does not read it. A missing or malformed file and a failed write are not modelled.
- The Float32 and Int32 column types and the `astype(numpy.int32)` cast (scripts/train.py:76-77, 106): element types stay abstract. This hides a rounding step: the stored table equals the preprocessed X only when X is already float32. Otherwise the run that computes the cache splits the unrounded X, and later runs that read the cache split the rounded X. `Cache.SavePreprocessed` and `Pipeline.LoadDatasetAndPreprocess` therefore promise an exact round trip that the source guarantees only for float32 features.
- `Cache.SavePreprocessed`: requires at least as many labels as feature rows. With fewer, the source raises IndexError partway through the loop, and the partly written file is not modelled.
- `Splitting.SplitAndLoad`, `Pipeline.LoadDatasetAndPreprocess`: the shuffle is assumed to permute (`IsShuffle`), as RandomState.shuffle does.
- The script validates neither the run number nor the array shapes. The run-number case is listed under Findings. No shape checks are modelled beyond numpy's own rectangular-array shape (`Shaped`, `WellShaped`).
- `Splitting.SplitAndLoad`, `Pipeline.LoadDatasetAndPreprocess`: these use the checked run lookup, not the one at scripts/train.py:53. They differ in two ways. For run numbers 1 - |runs| through 0, the source gathers run |runs| + run_n - 1, and the model returns RunNumberOutOfRange. For run numbers above |runs| or below 1 - |runs|, the source raises IndexError, and the model returns RunNumberOutOfRange. `Splitting.SplitAndLoadAsWritten` models the source's behaviour, and `Splitting.SplitAndLoadAgrees` shows that the two agree on 1..|runs|.

## Findings

| source | as written | input that shows it | evidently intended | confidence | as-written member | corrected member |
|---|---|---|---|---|---|---|
| scripts/train.py:53 | `kf.runs[run_n - 1]` uses Python list indexing, so a non-positive run number counts from the end of the list | RunNumber = 0 with any non-empty list of runs splits by the last run, with no error | the 1-indexed RunNumber must lie in 1..\|runs\|, and anything else is a configuration error | medium, not executed | `Splitting.SplitRunNumberOutside` | `Splitting.SplitAndLoad` |

This assumes the k-fold scheme's `runs` is a Python list. The `cross_validation` module is not part of this model.

At the lookup level, the as-written half is `Splitting.SelectRunAsWritten` with `Splitting.RunNumberZeroPicksLastRun`, and the corrected half is `Splitting.SelectRun`. At the split level, the as-written half is `Splitting.SplitAndLoadAsWritten` and the corrected half is `Splitting.SplitAndLoad`. The pipeline uses the corrected split. `Splitting.SelectRunAgrees` and `Splitting.SplitAndLoadAgrees` show that the two halves agree on every in-range run number.
