# EMO-DB data ingestion, modelled in Dafny

This project models the data-ingestion layer of a speech-emotion-recognition
pipeline over the Berlin Database of Emotional Speech (EMO-DB). That layer has
three parts:

- **Emotion labels.** `EMOTION_MAP` maps the seven EMO-DB emotion letters to
  the class indices 0..6. A sample's label is looked up from the 6th
  character of its file name.
- **File catalog and split.** The dataset lists the `.wav` names of a
  directory. The data module's `setup` sorts those names and cuts the list at
  `int(n * split_ratio)`. The prefix becomes the train dataset and the suffix
  the test dataset.
- **Batch assembly.** `pad_collate` right-pads every sample's time axis with
  zeros to the longest length in the batch. It stacks the samples and their
  labels in input order.

Files:

- `py_builtins.dfy` (module `PyBuiltins`) states the Python built-ins the code
  relies on. It gives string ordering by code point and `sorted` as insertion
  into a sorted list. It proves that a sorted arrangement is unique, so
  `sorted` ignores input order. It also gives `int()` truncation toward zero,
  and Python indexing and slicing bounds.
- `data_ingest.dfy` holds two modules. `DataIngest` models
  `src/SERonEmoDB/data_ingest/data_ingest.py`. `IngestScenarios` replays the
  three-file directory of `tests/test_ingest.py`.

Modelling choices:

- `split_ratio` is an exact fraction `num / den` with `den > 0`. Any `num` is
  allowed, so ratios outside [0, 1] follow Python's slicing rules. A negative
  cutoff counts from the end, and a cutoff past the end is clamped.
- A feature tensor is `Tensor2`: a `Features(time, rows)` of shape
  channels × time whose rows all have length `time`. The decoder, the
  transform and samples all use this type.
- Labels are `Option<nat>`, because `EMOTION_MAP.get` yields `None` for an
  unknown letter.
- Every Python exception on the modelled paths is an `Err` value:
  - `self.files[idx]` out of range gives `FileIndexOutOfRange`.
  - `fname[5]` on a name shorter than 6 characters gives `FileNameTooShort`.
  - `zip(*batch)` on an empty batch gives `EmptyBatch`.
  - `torch.stack` on samples whose channel counts differ gives `ChannelMismatch`.
  - `torch.tensor(labels)` with a `None` label gives `MissingLabel`.

The docstrings of `EmoDBDataset` and `__getitem__`
(`src/SERonEmoDB/data_ingest/data_ingest.py:80-81`, `:104`) promise "an
integer emotion class index", and `tests/test_ingest.py:33` checks
`label in EMOTION_MAP.values()`. The code does not keep that promise for an
unknown letter: `EMOTION_MAP.get(letter)` (`data_ingest.py:114`) returns
`None`. The model follows the code, so a label is `Option<nat>`. Such a
`None` label does not reach the loss silently: `pad_collate` then fails
(`MissingLabel`), because `torch.tensor` cannot build a tensor that holds
`None`.

## Model

| member | source | states |
|---|---|---|
| `DataIngest.LookupEmotion` | src/SERonEmoDB/data_ingest/data_ingest.py:24-32 | `EMOTION_MAP.get(code)` is present exactly for the seven letters W L E A F T N. When present, the index is below 7 and maps back to the letter (`EmotionCode`). |
| `DataIngest.EmotionMapIsBijection` | src/SERonEmoDB/data_ingest/data_ingest.py:24-32 | The keys are exactly the seven letters and the values exactly {0..6}. The map is injective, and `EmotionCode` inverts it. |
| `DataIngest.ParseLabel` | src/SERonEmoDB/data_ingest/data_ingest.py:113-114 | A name shorter than 6 characters is an IndexError. Otherwise the label is present iff `fname[5]` is a map key, and it is the index whose code is `fname[5]`. |
| `DataIngest.ParseLabelReadsSixthCharOnly` | src/SERonEmoDB/data_ingest/data_ingest.py:113-114 | Two names of length at least 6 with the same 6th character get the same label. |
| `DataIngest.ParseLabelOfEmoDBName` | src/SERonEmoDB/data_ingest/data_ingest.py:113-114 | Round trip: a name with emotion `k`'s code at position 5 parses to label `k`. |
| `DataIngest.ParsedLabelIsMapValue` | tests/test_ingest.py:32-33 | Every label that parses is one of `EMOTION_MAP.values()`. |
| `DataIngest.WavFiles` | src/SERonEmoDB/data_ingest/data_ingest.py:88 | The filtered list holds each `.wav` name as often as the listing does and no other name. |
| `DataIngest.WavFilesOfConcat` | src/SERonEmoDB/data_ingest/data_ingest.py:88 | Filtering commutes with concatenation, so the listing order is kept. |
| `DataIngest.WavFilesKeepsWavListing` | src/SERonEmoDB/data_ingest/data_ingest.py:88 | A listing made only of `.wav` names is returned unchanged. |
| `DataIngest.WavFilesIgnoresOrder` | src/SERonEmoDB/data_ingest/data_ingest.py:148 | Reordering the listing does not change which names (with multiplicity) pass the filter. |
| `DataIngest.NewDataset` | src/SERonEmoDB/data_ingest/data_ingest.py:84-89 | Stores the directory and the transform (default `None`). An explicit `files_list` is kept as given, even an empty one. With `None` (the default), the files are the `.wav` names of the listing. |
| `DataIngest.EmoDBDataset.Len` | src/SERonEmoDB/data_ingest/data_ingest.py:91-92 | `__len__` is the number of files, and the indices that select a file are exactly `[-len, len)`. |
| `DataIngest.GetItem` | src/SERonEmoDB/data_ingest/data_ingest.py:106-117 | Fails iff `idx` is outside Python's range `[-n, n)` (`FileIndexOutOfRange`) or the chosen name is shorter than 6 (`FileNameTooShort`). Otherwise the features are the transformed (or raw) decoding of that name, and the label is present iff the 6th character is a code. |
| `DataIngest.Cutoff` | src/SERonEmoDB/data_ingest/data_ingest.py:150 | For a ratio in [0, 1], `int(n * ratio)` is `floor(n * num / den)` and lies in 0..n. A ratio of at least 1 gives at least n, and a ratio of at most 0 gives at most 0. |
| `DataIngest.SplitFiles` | src/SERonEmoDB/data_ingest/data_ingest.py:149-152 | For every ratio, train followed by test is the input list. For a ratio in [0, 1], train has `floor(n * ratio)` names. Ratio 0 leaves train empty and ratio 1 leaves test empty. |
| `DataIngest.SetupSplit` | src/SERonEmoDB/data_ingest/data_ingest.py:148-152 | Train followed by test is `sorted` of the `.wav` names. For a ratio in [0, 1], train has `floor(n * ratio)` of them. |
| `DataIngest.SplitOfSortedIsOrdered` | src/SERonEmoDB/data_ingest/data_ingest.py:151-152 | Cutting a sorted list gives two sorted parts, and every train name sorts before every test name. |
| `DataIngest.SetupSplitPartitions` | src/SERonEmoDB/data_ingest/data_ingest.py:148-152 | The sizes of train and test add up to the number of `.wav` names, and their multisets add up to the `.wav` catalog, so every name lands in exactly one part. Both parts are sorted, with every train name before every test name. |
| `DataIngest.SetupSplitTrainSize` | src/SERonEmoDB/data_ingest/data_ingest.py:148-152 | For a ratio in [0, 1], train has `floor(n * ratio)` of the n `.wav` names. Ratio 0 gives an empty train and ratio 1 an empty test. |
| `DataIngest.SetupSplitIgnoresListingOrder` | src/SERonEmoDB/data_ingest/data_ingest.py:147-152 | Any permutation of the directory listing yields the same train and test lists. |
| `DataIngest.EmoDataModule.constructor` | src/SERonEmoDB/data_ingest/data_ingest.py:133-138 | Stores the directory, batch size (default 32), transform (default `None`) and ratio (default 4/5). No datasets exist yet. |
| `DataIngest.EmoDataModule.Setup` | src/SERonEmoDB/data_ingest/data_ingest.py:140-156 | Assigns the train and test datasets from the sorted split, with the module's directory and transform. Their lengths add up to the number of `.wav` names. |
| `DataIngest.MaxTime` | src/SERonEmoDB/data_ingest/data_ingest.py:171-172 | `max_len` is at least every sample's time length and equal to some sample's. |
| `DataIngest.PadRow` | src/SERonEmoDB/data_ingest/data_ingest.py:174 | Padding one channel to `n` gives a row of length `n` that starts with the original row and is zero after it. |
| `DataIngest.Pad` | src/SERonEmoDB/data_ingest/data_ingest.py:173-174 | `F.pad(f, (0, n - T))` gives a rank-2 tensor of time length `n`. It keeps every channel, starts each row with the original row, and fills the rest with zeros. |
| `DataIngest.UnpadInvertsPadding` | src/SERonEmoDB/data_ingest/data_ingest.py:174 | Round trip: cutting a padded sample back to its own length gives the sample. |
| `DataIngest.PaddingFullLengthIsIdentity` | src/SERonEmoDB/data_ingest/data_ingest.py:174 | A sample already at `max_len` is unchanged by padding. |
| `DataIngest.PadCollate` | src/SERonEmoDB/data_ingest/data_ingest.py:158-178 | Fails with `EmptyBatch`, then `ChannelMismatch`, then `MissingLabel`, exactly in those cases. Otherwise `x` and `y` have one entry per sample. `x[i]` is sample `i` zero-padded to a common length, which is at least every input length and equal to one of them. `y[i]` is sample `i`'s label. |
| `PyBuiltins.Sorted` | src/SERonEmoDB/data_ingest/data_ingest.py:148 | `sorted(names)` is ordered by Python string comparison and is a permutation of its input. |
| `PyBuiltins.SortedUnique` | src/SERonEmoDB/data_ingest/data_ingest.py:148 | Two sorted lists with the same elements are equal. |
| `PyBuiltins.SortedIsOnlySortedPermutation` | src/SERonEmoDB/data_ingest/data_ingest.py:148 | `sorted(s)` is the only sorted permutation of `s`. |
| `PyBuiltins.SortedIgnoresOrder` | src/SERonEmoDB/data_ingest/data_ingest.py:148 | `sorted` gives the same list for any permutation of its input. |
| `PyBuiltins.StrLeIsLexicographic` | src/SERonEmoDB/data_ingest/data_ingest.py:148 | `StrLe`, Python's `str` comparison `a <= b`, holds iff `a` is a prefix of `b`, or `a` has the smaller code point at the first position where the two differ. |
| `PyBuiltins.EndsWith` | src/SERonEmoDB/data_ingest/data_ingest.py:88 | `s.endswith(suffix)` holds iff `s` is some string followed by `suffix` (case-sensitive). |
| `PyBuiltins.Index` | src/SERonEmoDB/data_ingest/data_ingest.py:106 | `files[idx]` succeeds iff `-n <= idx < n`. A non-negative index selects from the front, a negative one counts from the end, and anything else is the IndexError. |
| `PyBuiltins.SliceBound` | src/SERonEmoDB/data_ingest/data_ingest.py:151-152 | The position that `files[:k]` and `files[k:]` cut at lies in `0..n`: `k` itself when in range, `n` when `k > n`, and `n + k` clamped at 0 when `k < 0`. |
| `PyBuiltins.TruncDiv` | src/SERonEmoDB/data_ingest/data_ingest.py:150 | `int(p / d)` truncates toward zero: it is the floor for `p >= 0` and the ceiling for `p < 0`. |
| `IngestScenarios.TestListingSorted` | tests/test_ingest.py:17-21 | The three test names `01a01Wa.wav`, `01a01La.wav`, `01a01Na.wav` sort as L, N, W. |
| `IngestScenarios.TestListingHalfSplit` | tests/test_ingest.py:43-53 | At ratio 1/2 the three files give train `[01a01La.wav]` and test `[01a01Na.wav, 01a01Wa.wav]`. |
| `IngestScenarios.DataModuleSplitScenario` | tests/test_ingest.py:36-53 | For any transform and any order in which the file system lists the three files, a data module with batch size 1 and ratio 1/2 has train length 1 and test length 2 after `Setup`. |
| `IngestScenarios.WholeDirectoryDatasetLabels` | tests/test_ingest.py:24-33 | For any order in which the file system lists the three files, the dataset over the whole directory has length 3. Every item loads with a label in `EMOTION_MAP.values()`, for any decoder and transform. |

## Left out

- Audio decoding and resampling (`torchaudio.load`, `Resample`) are foreign
  library calls. They are the `Loader` parameter of `GetItem`. Decode
  failures are not modelled.
- The feature transforms (`nn.Identity`, MFCC) are floating-point numerics
  in a library. The transform is an uninterpreted `Tensor2 -> Tensor2`.
  `feature_extraction.py` is not part of this model.
- `os.listdir` and `os.path.join` are file-system calls. The directory
  listing is an input sequence of names, in whatever order the file system
  returns it.
- `DataIngest.Cutoff`: `split_ratio` is an exact fraction. Floating-point
  rounding of `n * split_ratio` is not modelled, so for some `n` the float
  product may fall just below an integer that the exact product reaches.
  Non-finite ratios (`int(nan)`) are not modelled either.
- `DataIngest.PadCollate`: features are channels × time tensors of integers.
  Tensors of other ranks, and other element types, are not modelled. Zero
  padding is purely structural, so it needs no floats.
- `DataIngest.GetItem`: the source applies the transform when `self.transform`
  is truthy (`data_ingest.py:116`). The model applies it when it is
  `Some`. The two differ only for a transform object that Python treats as
  false, which neither `nn.Identity` nor `MFCC` is.
- `train_dataloader` / `val_dataloader` cover DataLoader shuffling, batching
  and 19 worker processes. That is concurrency and library plumbing.
- The classifier (`models/model.py`) and the abstract base classes and types
  under `contracts/` have no ingestion logic. They are not part of this
  model.
- The commented-out Kaggle download is dead code that does network and
  archive I/O.
- The `stage` argument of `setup` is ignored by the source and is not
  modelled.
