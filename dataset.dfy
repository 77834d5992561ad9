/** `DeepfakeDataset` of the training code: the item list built from the `real/`
    and `fake/` folders, and the fixed-length window `__getitem__` cuts out of
    each clip before the mel transform. File listing, audio reading, the
    resampler and the random source are parameters. */
module Dataset {
  import opened Wrappers
  import opened Ints
  import AudioPreprocessor
  import PreprocessAudio

  const TARGET_LEN: nat := 48000
  const REAL_LABEL: int := 0
  const FAKE_LABEL: int := 1

  datatype Item = Item(path: string, target: int)

  /** The scan: every file under `real/` labelled 0, then every file under `fake/` labelled 1. */
  function Scanned(realFiles: seq<string>, fakeFiles: seq<string>): (items: seq<Item>)
    ensures |items| == |realFiles| + |fakeFiles|
    ensures forall i :: 0 <= i < |realFiles| ==> items[i] == Item(realFiles[i], REAL_LABEL)
    ensures forall i :: 0 <= i < |fakeFiles| ==> items[|realFiles| + i] == Item(fakeFiles[i], FAKE_LABEL)
  {
    seq(|realFiles|, i requires 0 <= i < |realFiles| => Item(realFiles[i], REAL_LABEL))
    + seq(|fakeFiles|, i requires 0 <= i < |fakeFiles| => Item(fakeFiles[i], FAKE_LABEL))
  }

  /** How many items carry `target`. */
  function CountLabel(items: seq<Item>, target: int): nat {
    if |items| == 0 then 0
    else CountLabel(items[..|items| - 1], target) + (if items[|items| - 1].target == target then 1 else 0)
  }

  lemma {:induction false} CountLabelAppend(a: seq<Item>, b: seq<Item>, target: int)
    ensures CountLabel(a + b, target) == CountLabel(a, target) + CountLabel(b, target)
  {
    if |b| > 0 {
      assert (a + b)[..|a + b| - 1] == a + b[..|b| - 1];
      CountLabelAppend(a, b[..|b| - 1], target);
    } else {
      assert a + b == a;
    }
  }

  lemma {:induction false} CountUniform(items: seq<Item>, target: int)
    requires forall i :: 0 <= i < |items| ==> items[i].target == target
    ensures CountLabel(items, target) == |items|
    ensures CountLabel(items, 1 - target) == 0
  {
    if |items| > 0 {
      CountUniform(items[..|items| - 1], target);
    }
  }

  /** Counting the labels of a scan gives back the folder sizes. */
  lemma ScannedCounts(realFiles: seq<string>, fakeFiles: seq<string>)
    ensures CountLabel(Scanned(realFiles, fakeFiles), REAL_LABEL) == |realFiles|
    ensures CountLabel(Scanned(realFiles, fakeFiles), FAKE_LABEL) == |fakeFiles|
  {
    var r := seq(|realFiles|, i requires 0 <= i < |realFiles| => Item(realFiles[i], REAL_LABEL));
    var f := seq(|fakeFiles|, i requires 0 <= i < |fakeFiles| => Item(fakeFiles[i], FAKE_LABEL));
    CountLabelAppend(r, f, REAL_LABEL);
    CountLabelAppend(r, f, FAKE_LABEL);
    CountUniform(r, REAL_LABEL);
    CountUniform(f, FAKE_LABEL);
  }

  class DeepfakeDataset {
    var items: seq<Item>
    var augment: bool

    /** `__init__`: the given items, unless there are none (absent or empty), in which
        case both folders are scanned in the nested loops. */
    constructor (realFiles: seq<string>, fakeFiles: seq<string>, given: Option<seq<Item>>, augment: bool)
      ensures items == (if given.Some? && |given.value| > 0 then given.value else Scanned(realFiles, fakeFiles))
      ensures this.augment == augment
    {
      var list := if given.Some? then given.value else [];
      if |list| == 0 {
        var labels := [("real", REAL_LABEL), ("fake", FAKE_LABEL)];
        for k := 0 to 2
          invariant list == (if k == 0 then [] else if k == 1 then Scanned(realFiles, [])
                             else Scanned(realFiles, fakeFiles))
        {
          var files := if k == 0 then realFiles else fakeFiles;
          var target := labels[k].1;
          ghost var before := list;
          for j := 0 to |files|
            invariant list == before + seq(j, i requires 0 <= i < j => Item(files[i], target))
          {
            list := list + [Item(files[j], target)];
          }
          if k == 0 {
            assert list == Scanned(realFiles, []);
          } else {
            assert list == Scanned(realFiles, fakeFiles);
          }
        }
      }
      items := list;
      this.augment := augment;
    }

    /** `__len__`. */
    function Len(): (n: nat)
      reads this
      ensures n == |items|
    {
      |items|
    }
  }

  // ------------------------------------------------------------ the window

  /** Where the crop starts for a clip of `n >= 48000` samples: a drawn offset in
      augment mode (`randint(0, n - 48000 + 1)`, the draw reduced into that range),
      the centre otherwise. */
  function CropStart(n: nat, augment: bool, draw: nat): (start: nat)
    requires n >= TARGET_LEN
    ensures start + TARGET_LEN <= n
    ensures !augment ==> start == (n - TARGET_LEN) / 2
  {
    if augment then draw % (n - TARGET_LEN + 1) else Max((n - TARGET_LEN) / 2, 0)
  }

  /** The 48 000-sample window of `__getitem__`, before gain and noise. */
  function Window(wav: seq<real>, augment: bool, draw: nat): (w: seq<real>)
    ensures |w| == TARGET_LEN
    ensures |wav| < TARGET_LEN ==> w == wav + seq(TARGET_LEN - |wav|, _ => 0.0)
    ensures |wav| >= TARGET_LEN ==> w == wav[CropStart(|wav|, augment, draw) .. CropStart(|wav|, augment, draw) + TARGET_LEN]
  {
    if |wav| < TARGET_LEN then wav + seq(TARGET_LEN - |wav|, _ => 0.0)
    else
      var start := CropStart(|wav|, augment, draw);
      wav[start .. start + TARGET_LEN]
  }

  /** The evaluation crop is centred: the samples dropped on the left and on the
      right differ by at most one. */
  lemma EvalCropCentred(n: nat)
    requires n >= TARGET_LEN
    ensures var start := CropStart(n, false, 0);
            var right := n - (start + TARGET_LEN);
            right == start || right == start + 1
  {
  }

  /** Each augment draw picks an in-bounds offset, and every offset can be drawn. */
  lemma AugmentStartRange(n: nat, start: nat)
    requires n >= TARGET_LEN && start <= n - TARGET_LEN
    ensures CropStart(n, true, start) == start
  {
  }

  /** `__getitem__` up to the mel transform: average the channels first, resample
      second (the opposite order from `preprocess_audio.py`), and no silence trim. */
  function ItemWaveform(resample: (seq<seq<real>>, int, int) -> seq<seq<real>>,
                        chans: seq<seq<real>>, sr: int, sampleRate: int, augment: bool, draw: nat)
    : (w: seq<real>)
    requires PreprocessAudio.ResamplerLawful(resample) && PreprocessAudio.IsSignal(chans)
    ensures |w| == TARGET_LEN
  {
    var mono := if |chans| > 1 then [PreprocessAudio.MeanOverChannels(chans)] else chans;
    var resampled := if sr != sampleRate then resample(mono, sr, sampleRate) else mono;
    Window(resampled[0], augment, draw)
  }

  /** The training window and the app's window differ: a clip of 48 002 samples that
      is loud only at its first sample keeps that sample in the app (first 48 000,
      after a trim that removes nothing at the start) but loses it in the centred
      evaluation crop, which starts at sample 1. */
  lemma TrainingCropDiffersFromApp()
    ensures var wav := [1.0] + seq(TARGET_LEN + 1, _ => 0.0);
            Window(wav, false, 0) != AudioPreprocessor.PadOrCrop(wav, TARGET_LEN)
  {
    var wav := [1.0] + seq(TARGET_LEN + 1, _ => 0.0);
    assert Window(wav, false, 0)[0] == wav[1] == 0.0;
    assert AudioPreprocessor.PadOrCrop(wav, TARGET_LEN)[0] == 1.0;
  }
}
