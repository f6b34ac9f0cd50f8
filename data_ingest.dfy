/**
 * EMO-DB data ingestion: the emotion-code table, label parsing from a file
 * name, the `.wav` catalog, the deterministic train/test split of the data
 * module, and the batch assembler that right-pads every sample's time axis.
 *
 * Audio decoding, resampling and the feature transform are not modelled as
 * computations: decoding a file of the dataset's directory is a parameter
 * (`Loader`) and the transform is an arbitrary function on features.
 */
module DataIngest {
  import opened PyBuiltins

  // ---------------------------------------------------------------------
  // Errors the ingestion code can raise
  // ---------------------------------------------------------------------

  datatype IngestError =
    | FileIndexOutOfRange  // `self.files[idx]` raises IndexError
    | FileNameTooShort     // `fname[5]` raises IndexError
    | EmptyBatch           // `feats, labels = zip(*[])` raises ValueError
    | ChannelMismatch      // `torch.stack` of differently shaped samples fails
    | MissingLabel         // `torch.tensor(labels)` fails on a `None` label

  datatype Result<+T> = Ok(value: T) | Err(error: IngestError)

  // ---------------------------------------------------------------------
  // EMOTION_MAP
  // ---------------------------------------------------------------------

  const NumClasses: nat := 7

  /** EMO-DB emotion letters (German initials) to class indices. */
  const EmotionMap: map<char, nat> :=
    map['W' := 0, 'L' := 1, 'E' := 2, 'A' := 3, 'F' := 4, 'T' := 5, 'N' := 6]

  /** The letter whose class index is `k`: the inverse of `EmotionMap`. */
  function EmotionCode(k: nat): (c: char)
    requires k < NumClasses
  {
    "WLEAFTN"[k]
  }

  /** `EMOTION_MAP.get(code)`: an unknown letter gives `None`, not an error. */
  function LookupEmotion(code: char): (r: Option<nat>)
    ensures r.Some? <==> code in "WLEAFTN"
    ensures r.Some? ==> r.value < NumClasses && EmotionCode(r.value) == code
  {
    if code in EmotionMap then Some(EmotionMap[code]) else None
  }

  /** The seven codes map to the seven indices 0..6, one index per code. */
  lemma EmotionMapIsBijection()
    ensures EmotionMap.Keys == set k | 0 <= k < NumClasses :: EmotionCode(k)
    ensures EmotionMap.Values == {0, 1, 2, 3, 4, 5, 6}
    ensures forall a, b :: a in EmotionMap && b in EmotionMap && EmotionMap[a] == EmotionMap[b] ==> a == b
    ensures forall k :: 0 <= k < NumClasses ==> EmotionMap[EmotionCode(k)] == k
  {
    var codes := set k | 0 <= k < NumClasses :: EmotionCode(k);
    assert EmotionCode(0) == 'W' && EmotionCode(1) == 'L' && EmotionCode(2) == 'E';
    assert EmotionCode(3) == 'A' && EmotionCode(4) == 'F' && EmotionCode(5) == 'T';
    assert EmotionCode(6) == 'N';
    assert EmotionMap.Keys == codes;
    assert EmotionMap['W'] == 0 && EmotionMap['L'] == 1 && EmotionMap['E'] == 2;
    assert EmotionMap['A'] == 3 && EmotionMap['F'] == 4 && EmotionMap['T'] == 5;
    assert EmotionMap['N'] == 6;
  }

  // ---------------------------------------------------------------------
  // Label parsing (`EmoDBDataset.__getitem__`)
  // ---------------------------------------------------------------------

  /** `EMOTION_MAP.get(fname[5])`: the label is read from the 6th character. */
  function ParseLabel(fname: string): (r: Result<Option<nat>>)
    ensures r.Err? <==> |fname| < 6
    ensures r.Err? ==> r.error == FileNameTooShort
    ensures r.Ok? ==> (r.value.Some? <==> fname[5] in EmotionMap)
    ensures r.Ok? && r.value.Some? ==>
              r.value.value < NumClasses && EmotionCode(r.value.value) == fname[5]
  {
    if |fname| < 6 then Err(FileNameTooShort)
    else Ok(LookupEmotion(fname[5]))
  }

  /** Only the 6th character of the name matters. */
  lemma ParseLabelReadsSixthCharOnly(f: string, g: string)
    requires |f| >= 6 && |g| >= 6 && f[5] == g[5]
    ensures ParseLabel(f) == ParseLabel(g)
  {
  }

  /** A name that carries emotion `k` at position 5 parses back to `k`. */
  lemma ParseLabelOfEmoDBName(prefix: string, k: nat, rest: string)
    requires |prefix| == 5 && k < NumClasses
    ensures ParseLabel(prefix + [EmotionCode(k)] + rest) == Ok(Some(k))
  {
  }

  /** Every label that parses is one of EMOTION_MAP's values. */
  lemma ParsedLabelIsMapValue(fname: string)
    requires ParseLabel(fname).Ok? && ParseLabel(fname).value.Some?
    ensures ParseLabel(fname).value.value in EmotionMap.Values
  {
  }

  // ---------------------------------------------------------------------
  // File catalog: `[f for f in os.listdir(d) if f.endswith('.wav')]`
  // ---------------------------------------------------------------------

  predicate IsWav(f: string)
  {
    EndsWith(f, ".wav")
  }

  /** The `.wav` names of a directory listing, in listing order. */
  function WavFiles(listing: seq<string>): (r: seq<string>)
    ensures |r| <= |listing|
    ensures forall f {:trigger multiset(r)[f]} ::
              multiset(r)[f] == if IsWav(f) then multiset(listing)[f] else 0
  {
    if listing == [] then []
    else
      assert listing == [listing[0]] + listing[1..];
      (if IsWav(listing[0]) then [listing[0]] else []) + WavFiles(listing[1..])
  }

  /** A listing of `.wav` names only is kept as it is. */
  lemma {:induction false} WavFilesKeepsWavListing(listing: seq<string>)
    requires forall i :: 0 <= i < |listing| ==> IsWav(listing[i])
    ensures WavFiles(listing) == listing
  {
    if listing != [] {
      WavFilesKeepsWavListing(listing[1..]);
      assert listing == [listing[0]] + listing[1..];
    }
  }

  /** Filtering keeps the listing's order: it commutes with concatenation. */
  lemma {:induction false} WavFilesOfConcat(a: seq<string>, b: seq<string>)
    ensures WavFiles(a + b) == WavFiles(a) + WavFiles(b)
    decreases |a|
  {
    if a != [] {
      WavFilesOfConcat(a[1..], b);
      assert (a + b)[1..] == a[1..] + b;
      assert (a + b)[0] == a[0];
    } else {
      assert a + b == b;
    }
  }

  /** Only the presence and multiplicity of names decides the `.wav` catalog. */
  lemma WavFilesIgnoresOrder(a: seq<string>, b: seq<string>)
    requires multiset(a) == multiset(b)
    ensures multiset(WavFiles(a)) == multiset(WavFiles(b))
  {
  }

  // ---------------------------------------------------------------------
  // Samples and datasets (`EmoDBDataset`)
  // ---------------------------------------------------------------------

  /** A feature tensor of shape channels x time. */
  datatype Features = Features(time: nat, rows: seq<seq<int>>)

  /** Every channel has exactly `time` entries, as in any tensor. */
  predicate Rectangular(f: Features)
  {
    forall c :: 0 <= c < |f.rows| ==> |f.rows[c]| == f.time
  }

  /** A tensor of rank 2: every channel has the same length. */
  type Tensor2 = f: Features | Rectangular(f) witness Features(0, [])

  /** The optional feature transform (identity or MFCC), left uninterpreted. */
  type Transform = Tensor2 -> Tensor2

  /** Decode `os.path.join(dataDir, fname)` and resample it to 16 kHz. */
  type Loader = (string, string) -> Tensor2

  /** A labelled sample: features and `EMOTION_MAP.get` of the code, maybe `None`. */
  type Sample = (Tensor2, Option<nat>)

  datatype EmoDBDataset = EmoDBDataset(dataDir: string, files: seq<string>, transform: Option<Transform>)
  {
    /** `__len__`: the number of files, so the valid indices are `[-n, n)`. */
    function Len(): (n: nat)
      ensures n == |files|
      ensures forall i: int :: Index(files, i).Some? <==> -(n as int) <= i < n
    {
      |files|
    }
  }

  /**
   * `EmoDBDataset(data_dir, files_list=None, transform=None)`: an explicit
   * list is kept as given (an empty one included); without one, the `.wav`
   * names of the directory listing are used in listing order.
   */
  function NewDataset(dataDir: string, listing: seq<string>, filesList: Option<seq<string>> := None,
                      transform: Option<Transform> := None): (ds: EmoDBDataset)
    ensures ds.dataDir == dataDir
    ensures ds.transform == transform
    ensures filesList.Some? ==> ds.files == filesList.value
    ensures filesList.None? ==>
              forall f {:trigger multiset(ds.files)[f]} ::
                multiset(ds.files)[f] == if IsWav(f) then multiset(listing)[f] else 0
  {
    EmoDBDataset(dataDir, if filesList.Some? then filesList.value else WavFiles(listing), transform)
  }

  /**
   * `__getitem__(idx)`: pick the name (Python indexing), decode it, parse the
   * label from its 6th character and apply the transform when there is one.
   */
  function GetItem(ds: EmoDBDataset, idx: int, load: Loader): (r: Result<Sample>)
    ensures r.Err? <==> !(-|ds.files| <= idx < |ds.files|) || |ds.files[if idx < 0 then |ds.files| + idx else idx]| < 6
    ensures !(-|ds.files| <= idx < |ds.files|) ==> r == Err(FileIndexOutOfRange)
    ensures -|ds.files| <= idx < |ds.files| && r.Err? ==> r == Err(FileNameTooShort)
    ensures r.Ok? ==>
              var fname := ds.files[if idx < 0 then |ds.files| + idx else idx];
              var waveform := load(ds.dataDir, fname);
              && r.value.0 == (if ds.transform.Some? then ds.transform.value(waveform) else waveform)
              && (r.value.1.Some? <==> fname[5] in EmotionMap)
              && (r.value.1.Some? ==> r.value.1.value < NumClasses && EmotionCode(r.value.1.value) == fname[5])
  {
    match Index(ds.files, idx)
    case None => Err(FileIndexOutOfRange)
    case Some(fname) =>
      var waveform := load(ds.dataDir, fname);
      var features := if ds.transform.Some? then ds.transform.value(waveform) else waveform;
      match ParseLabel(fname)
      case Err(e) => Err(e)
      case Ok(emotion) => Ok((features, emotion))
  }

  // ---------------------------------------------------------------------
  // The train/test split of `EmoDataModule.setup`
  // ---------------------------------------------------------------------

  /** `split_ratio` as an exact fraction `num / den`. */
  datatype Ratio = Ratio(num: int, den: nat)
  type SplitRatio = r: Ratio | r.den > 0 witness Ratio(4, 5)

  /** `int(n * split_ratio)`: the product truncated toward zero. */
  function Cutoff(n: nat, ratio: SplitRatio): (k: int)
    ensures 0 <= ratio.num <= ratio.den ==> 0 <= k <= n && k == (n * ratio.num) / ratio.den
    ensures ratio.num >= ratio.den ==> k >= n
    ensures ratio.num <= 0 ==> k <= 0
  {
    ScaledFloorBounds(n, ratio.num, ratio.den);
    TruncDiv(n * ratio.num, ratio.den)
  }

  /** `files[:k], files[k:]` for `k = int(n * split_ratio)`. */
  function SplitFiles(files: seq<string>, ratio: SplitRatio): (r: (seq<string>, seq<string>))
    ensures r.0 + r.1 == files
    ensures 0 <= ratio.num <= ratio.den ==> |r.0| == (|files| * ratio.num) / ratio.den
    ensures ratio.num <= 0 && |files| > 0 ==> |r.0| < |files|
    ensures ratio.num == 0 ==> r.0 == []
    ensures ratio.num >= ratio.den ==> r.1 == []
  {
    var k := SliceBound(Cutoff(|files|, ratio), |files|);
    assert files[..k] + files[k..] == files;
    (files[..k], files[k..])
  }

  /** The train and test file lists `setup` computes from a directory listing. */
  function SetupSplit(listing: seq<string>, ratio: SplitRatio): (r: (seq<string>, seq<string>))
    ensures r.0 + r.1 == Sorted(WavFiles(listing))
    ensures 0 <= ratio.num <= ratio.den ==> |r.0| == (|Sorted(WavFiles(listing))| * ratio.num) / ratio.den
  {
    SplitFiles(Sorted(WavFiles(listing)), ratio)
  }

  /** Cutting a sorted list leaves two sorted parts, the first before the second. */
  lemma SortedCutIsOrdered(files: seq<string>, k: nat)
    requires IsSorted(files) && k <= |files|
    ensures IsSorted(files[..k]) && IsSorted(files[k..])
    ensures forall i, j :: 0 <= i < k && 0 <= j < |files| - k ==> StrLe(files[..k][i], files[k..][j])
  {
    forall i, j | 0 <= i < k && 0 <= j < |files| - k ensures StrLe(files[..k][i], files[k..][j]) {
      assert files[..k][i] == files[i] && files[k..][j] == files[k + j];
    }
    forall i, j | 0 <= i < j < |files| - k ensures StrLe(files[k..][i], files[k..][j]) {
      assert files[k..][i] == files[k + i] && files[k..][j] == files[k + j];
    }
  }

  /** Cutting a sorted list leaves two sorted parts, train before test. */
  lemma SplitOfSortedIsOrdered(files: seq<string>, ratio: SplitRatio)
    requires IsSorted(files)
    ensures IsSorted(SplitFiles(files, ratio).0) && IsSorted(SplitFiles(files, ratio).1)
    ensures var (train, test) := SplitFiles(files, ratio);
            forall i, j :: 0 <= i < |train| && 0 <= j < |test| ==> StrLe(train[i], test[j])
  {
    var (train, test) := SplitFiles(files, ratio);
    var k := |train|;
    assert train == files[..k] && test == files[k..] by {
      assert files == train + test;
    }
    SortedCutIsOrdered(files, k);
  }

  /**
   * The split is a partition of the `.wav` names: since train followed by
   * test is the whole sorted list (`SetupSplit`), every name lands in exactly
   * one part, and every train name sorts before every test name.
   */
  lemma SetupSplitPartitions(listing: seq<string>, ratio: SplitRatio)
    ensures |SetupSplit(listing, ratio).0| + |SetupSplit(listing, ratio).1| == |WavFiles(listing)|
    ensures multiset(SetupSplit(listing, ratio).0) + multiset(SetupSplit(listing, ratio).1)
            == multiset(WavFiles(listing))
    ensures IsSorted(SetupSplit(listing, ratio).0) && IsSorted(SetupSplit(listing, ratio).1)
    ensures var (train, test) := SetupSplit(listing, ratio);
            forall i, j :: 0 <= i < |train| && 0 <= j < |test| ==> StrLe(train[i], test[j])
  {
    var all := Sorted(WavFiles(listing));
    var (train, test) := SetupSplit(listing, ratio);
    assert all == train + test;
    assert multiset(all) == multiset(train) + multiset(test);
    assert |all| == |multiset(all)| == |multiset(WavFiles(listing))| == |WavFiles(listing)|;
    SplitOfSortedIsOrdered(all, ratio);
  }

  /** Train has `floor(n * ratio)` names for a ratio in [0, 1]. */
  lemma SetupSplitTrainSize(listing: seq<string>, ratio: SplitRatio)
    requires 0 <= ratio.num <= ratio.den
    ensures |SetupSplit(listing, ratio).0| == (|WavFiles(listing)| * ratio.num) / ratio.den
    ensures ratio.num == 0 ==> SetupSplit(listing, ratio).0 == []
    ensures ratio.num == ratio.den ==> SetupSplit(listing, ratio).1 == []
  {
    var all := Sorted(WavFiles(listing));
    assert |all| == |multiset(all)| == |WavFiles(listing)|;
  }

  /** Any reordering of the directory listing yields the same split. */
  lemma SetupSplitIgnoresListingOrder(a: seq<string>, b: seq<string>, ratio: SplitRatio)
    requires multiset(a) == multiset(b)
    ensures SetupSplit(a, ratio) == SetupSplit(b, ratio)
  {
    WavFilesIgnoresOrder(a, b);
    SortedIgnoresOrder(WavFiles(a), WavFiles(b));
  }

  // ---------------------------------------------------------------------
  // Arithmetic helpers for the cutoff
  // ---------------------------------------------------------------------

  /** Sign and size of `floor(n * m / d)` against `n`, for the cutoff. */
  lemma ScaledFloorBounds(n: nat, m: int, d: nat)
    requires d > 0
    ensures 0 <= m ==> 0 <= n * m
    ensures m <= 0 ==> n * m <= 0
    ensures 0 <= m <= d ==> (n * m) / d <= n
    ensures d <= m ==> n <= (n * m) / d
  {
    var p := n * m;
    if 0 <= m {
      MulMonotone(n, 0, m);
      var k := p / d;
      assert k * d <= p < (k + 1) * d;
      if m <= d {
        MulMonotone(n, m, d);
        assert (n + 1) * d == n * d + d;
        LeByDivision(k, n, d);
      }
      if d <= m {
        MulMonotone(n, d, m);
        LeByDivision(n, k, d);
      }
    } else {
      MulMonotone(n, m, 0);
    }
  }

  lemma MulMonotone(n: nat, a: int, b: int)
    requires a <= b
    ensures n * a <= n * b
  {
    assert n * b - n * a == n * (b - a);
  }

  lemma LeByDivision(a: int, b: int, d: nat)
    requires d > 0 && a * d < (b + 1) * d
    ensures a <= b
  {
    if a > b {
      MulMonotone(d, b + 1, a);
    }
  }

  // ---------------------------------------------------------------------
  // Batch assembly: `EmoDataModule.pad_collate`
  // ---------------------------------------------------------------------

  /** The stacked batch: `x` is batch x channels x max_len, `y` the labels. */
  datatype Batch = Batch(x: seq<Tensor2>, y: seq<int>)

  /** `max(f.shape[-1] for f in feats)`. */
  function MaxTime(batch: seq<Sample>): (m: nat)
    requires |batch| > 0
    ensures forall i :: 0 <= i < |batch| ==> batch[i].0.time <= m
    ensures exists i :: 0 <= i < |batch| && batch[i].0.time == m
  {
    if |batch| == 1 then batch[0].0.time
    else
      var rest := MaxTime(batch[1..]);
      assert forall i :: 1 <= i < |batch| ==> batch[i] == batch[1..][i - 1];
      if batch[0].0.time >= rest then batch[0].0.time
      else
        var j :| 0 <= j < |batch[1..]| && batch[1..][j].0.time == rest;
        assert batch[j + 1].0.time == rest;
        rest
  }

  /** `F.pad(row, (0, n - len(row)))`: zeros on the right up to length `n`. */
  function PadRow(row: seq<int>, n: nat): (r: seq<int>)
    requires |row| <= n
    ensures |r| == n
    ensures r[..|row|] == row
    ensures forall t :: |row| <= t < n ==> r[t] == 0
  {
    row + seq(n - |row|, _ => 0)
  }

  /** Pad the time axis of every channel of `f` to `n`. */
  function Pad(f: Features, n: nat): (p: Tensor2)
    requires Rectangular(f) && f.time <= n
    ensures p.time == n
    ensures IsPaddingOf(p, f)
  {
    Features(n, seq(|f.rows|, c requires 0 <= c < |f.rows| => PadRow(f.rows[c], n)))
  }

  /**
   * `p` is `f` right-padded with zeros: same channels, each of length
   * `p.time`, starting with `f`'s row and zero afterwards.
   */
  predicate IsPaddingOf(p: Features, f: Features)
  {
    && f.time <= p.time
    && |p.rows| == |f.rows|
    && Rectangular(p)
    && forall c :: 0 <= c < |p.rows| ==>
         && p.rows[c][..f.time] == f.rows[c]
         && forall t :: f.time <= t < p.time ==> p.rows[c][t] == 0
  }

  /** Cutting every channel back to `time` entries. */
  function Unpad(p: Features, time: nat): Features
    requires Rectangular(p) && time <= p.time
  {
    Features(time, seq(|p.rows|, c requires 0 <= c < |p.rows| => p.rows[c][..time]))
  }

  /** Padding loses nothing: cutting a padded sample back gives the sample. */
  lemma UnpadInvertsPadding(p: Features, f: Features)
    requires Rectangular(f) && IsPaddingOf(p, f)
    ensures Unpad(p, f.time) == f
  {
  }

  /** A sample that is already `max_len` long is left unchanged. */
  lemma PaddingFullLengthIsIdentity(p: Features, f: Features)
    requires Rectangular(f) && IsPaddingOf(p, f) && p.time == f.time
    ensures p == f
  {
    forall c | 0 <= c < |f.rows| ensures p.rows[c] == f.rows[c] {
      assert p.rows[c] == p.rows[c][..f.time];
    }
  }

  /** All samples have the channel count of the first. */
  predicate SameChannels(batch: seq<Sample>)
  {
    forall i :: 0 <= i < |batch| ==> |batch[i].0.rows| == |batch[0].0.rows|
  }

  /** No sample's label is `None`. */
  predicate AllLabelled(batch: seq<Sample>)
  {
    forall i :: 0 <= i < |batch| ==> batch[i].1.Some?
  }

  /**
   * `pad_collate(batch)`: pad every sample to the longest time length in the
   * batch, stack them in input order, and stack the labels in the same order.
   * Fails on an empty batch, on samples with differing channel counts, and on
   * a sample whose label is `None`, in that order.
   */
  function PadCollate(batch: seq<Sample>): (r: Result<Batch>)
    ensures |batch| == 0 ==> r == Err(EmptyBatch)
    ensures |batch| > 0 && !SameChannels(batch) ==> r == Err(ChannelMismatch)
    ensures |batch| > 0 && SameChannels(batch) && !AllLabelled(batch) ==> r == Err(MissingLabel)
    ensures r.Ok? <==> |batch| > 0 && SameChannels(batch) && AllLabelled(batch)
    ensures r.Ok? ==>
              && |r.value.x| == |batch| == |r.value.y|
              && (forall i :: 0 <= i < |batch| ==> IsPaddingOf(r.value.x[i], batch[i].0))
              && (forall i :: 0 <= i < |batch| ==> Some(r.value.y[i]) == batch[i].1)
              && (forall i, j :: 0 <= i < |batch| && 0 <= j < |batch| ==>
                    r.value.x[i].time == r.value.x[j].time >= batch[j].0.time)
              && (exists j :: 0 <= j < |batch| && r.value.x[0].time == batch[j].0.time)
  {
    if |batch| == 0 then Err(EmptyBatch)
    else
      var maxLen := MaxTime(batch);
      var padded := seq(|batch|, i requires 0 <= i < |batch| => Pad(batch[i].0, maxLen));
      if !SameChannels(batch) then Err(ChannelMismatch)
      else if !AllLabelled(batch) then Err(MissingLabel)
      else
        var labels := seq(|batch|, i requires 0 <= i < |batch| && batch[i].1.Some? => batch[i].1.value);
        Ok(Batch(padded, labels))
  }

  // ---------------------------------------------------------------------
  // `EmoDataModule`: the object that holds the split datasets
  // ---------------------------------------------------------------------

  class EmoDataModule {
    var dataDir: string
    var batchSize: int
    var transform: Option<Transform>
    var splitRatio: SplitRatio
    /** `train_ds` / `test_ds`: absent until `setup` has run. */
    var trainDs: Option<EmoDBDataset>
    var testDs: Option<EmoDBDataset>

    /** `EmoDataModule(data_dir, batch_size=32, transform=None, split_ratio=0.8)`. */
    constructor (dataDir: string, batchSize: int := 32, transform: Option<Transform> := None,
                 splitRatio: SplitRatio := Ratio(4, 5))
      ensures this.dataDir == dataDir && this.batchSize == batchSize
      ensures this.transform == transform && this.splitRatio == splitRatio
      ensures trainDs.None? && testDs.None?
    {
      this.dataDir := dataDir;
      this.batchSize := batchSize;
      this.transform := transform;
      this.splitRatio := splitRatio;
      trainDs := None;
      testDs := None;
    }

    /**
     * `setup()`: sort the `.wav` names of the directory listing, give the
     * first `int(n * split_ratio)` to the train dataset and the rest to the
     * test dataset, both with the module's directory and transform.
     */
    method Setup(listing: seq<string>)
      modifies this`trainDs, this`testDs
      ensures trainDs == Some(EmoDBDataset(dataDir, SetupSplit(listing, splitRatio).0, transform))
      ensures testDs == Some(EmoDBDataset(dataDir, SetupSplit(listing, splitRatio).1, transform))
      ensures trainDs.value.Len() + testDs.value.Len() == |WavFiles(listing)|
    {
      var allFiles := Sorted(WavFiles(listing));
      var n := |allFiles|;
      var cutoff := SliceBound(Cutoff(n, splitRatio), n);
      var trainFiles := allFiles[..cutoff];
      var testFiles := allFiles[cutoff..];
      trainDs := Some(NewDataset(dataDir, listing, Some(trainFiles), transform));
      testDs := Some(NewDataset(dataDir, listing, Some(testFiles), transform));
      SetupSplitPartitions(listing, splitRatio);
    }
  }
}

/**
 * The three-file directory of the ingestion tests (anger, boredom, neutral
 * recordings of speaker 01, text a01), checked against the model.
 */
module IngestScenarios {
  import opened PyBuiltins
  import opened DataIngest

  const TestListing: seq<string> := ["01a01Wa.wav", "01a01La.wav", "01a01Na.wav"]

  /** The same names sorted: boredom (L), neutral (N), anger (W). */
  const SortedTestListing: seq<string> := ["01a01La.wav", "01a01Na.wav", "01a01Wa.wav"]

  lemma TestListingIsAllWav()
    ensures WavFiles(TestListing) == TestListing
  {
  }

  lemma SortedTestListingIsSorted()
    ensures IsSorted(SortedTestListing)
    ensures multiset(SortedTestListing) == multiset(TestListing)
  {
  }

  lemma TestListingSorted()
    ensures Sorted(WavFiles(TestListing)) == SortedTestListing
  {
    TestListingIsAllWav();
    SortedTestListingIsSorted();
    SortedIsOnlySortedPermutation(TestListing, SortedTestListing);
  }

  /** A 50 % split of the three files gives one training and two test files. */
  lemma TestListingHalfSplit()
    ensures SetupSplit(TestListing, Ratio(1, 2)).0 == ["01a01La.wav"]
    ensures SetupSplit(TestListing, Ratio(1, 2)).1 == ["01a01Na.wav", "01a01Wa.wav"]
  {
    TestListingSorted();
  }

  /** Every name of the test directory carries a known emotion letter. */
  lemma TestNameIsLabelled(f: string)
    requires f in multiset(TestListing)
    ensures |f| >= 6 && f[5] in EmotionMap
  {
    assert f in TestListing;
  }

  /** An index whose name carries a known letter loads with a label among the map's values. */
  lemma LabelledItem(ds: EmoDBDataset, i: nat, load: Loader)
    requires i < |ds.files| && |ds.files[i]| >= 6 && ds.files[i][5] in EmotionMap
    ensures var r := GetItem(ds, i, load);
            r.Ok? && r.value.1.Some? && r.value.1.value in EmotionMap.Values
  {
    EmotionMapIsBijection();
  }

  /**
   * The data module on that directory with ratio 0.5 and batch size 1, for
   * any transform and whatever order the file system lists the files in.
   */
  method DataModuleSplitScenario(transform: Option<Transform>, listing: seq<string>)
      returns (trainLen: nat, testLen: nat)
    requires multiset(listing) == multiset(TestListing)
    ensures trainLen == 1 && testLen == 2
  {
    var dm := new EmoDataModule("tmp", batchSize := 1, transform := transform, splitRatio := Ratio(1, 2));
    dm.Setup(listing);
    SetupSplitIgnoresListingOrder(listing, TestListing, Ratio(1, 2));
    TestListingHalfSplit();
    trainLen := dm.trainDs.value.Len();
    testLen := dm.testDs.value.Len();
  }

  /**
   * The dataset over the whole directory has three samples, each labelled,
   * whatever order the file system lists the files in.
   */
  lemma WholeDirectoryDatasetLabels(load: Loader, transform: Option<Transform>, listing: seq<string>)
    requires multiset(listing) == multiset(TestListing)
    ensures NewDataset("tmp", listing, transform := transform).Len() == 3
    ensures forall i :: 0 <= i < 3 ==>
              var r := GetItem(NewDataset("tmp", listing, transform := transform), i, load);
              r.Ok? && r.value.1.Some? && r.value.1.value in EmotionMap.Values
  {
    var ds := NewDataset("tmp", listing, transform := transform);
    assert ds.files == WavFiles(listing);
    WavFilesIgnoresOrder(listing, TestListing);
    TestListingIsAllWav();
    assert |ds.files| == |multiset(ds.files)| == |TestListing|;
    forall i | 0 <= i < 3
      ensures var r := GetItem(ds, i, load);
              r.Ok? && r.value.1.Some? && r.value.1.value in EmotionMap.Values
    {
      assert ds.files[i] in multiset(TestListing);
      TestNameIsLabelled(ds.files[i]);
      LabelledItem(ds, i, load);
    }
  }
}
