/** The image-pair source that reads rectified pairs from a list of files:
    the list is split into left and right halves, the pairs are served in
    order and the sequence starts over after the last pair, and each pair
    comes with the calibration file to use for it. Images are not loaded here:
    a pair is given by its two paths. */
module FileList {
  import opened Common

  /** Where a pair's calibration comes from: a JSON file, or the fallback
      intrinsics made up from the image size. */
  datatype Calibration = CalibrationFile(path: Path) | DefaultCalibration

  /** The result of one `get_next_pair`, images given by their paths. */
  datatype FramePair = FramePair(leftPath: Path, rightPath: Path, calibration: Calibration)

  const CalibrationFileName := "stereodemo_calibration.json"

  /** The calibration file that sits next to the left image. */
  function SiblingCalibration(left: Path): (p: Path)
    ensures Parent(p) == Parent(left)
    ensures Name(p) == CalibrationFileName
  {
    Join(Parent(left), CalibrationFileName)
  }

  /** The calibration choice of `get_next_pair`: a path the user gave always
      wins (whether or not it exists); otherwise the calibration file next to
      the left image if it exists, and the default calibration if not. */
  function ChooseCalibration(user: Option<Path>, left: Path, files: set<Path>): (c: Calibration)
    ensures user.Some? ==> c == CalibrationFile(user.value)
    ensures c == DefaultCalibration <==> user.None? && SiblingCalibration(left) !in files
    ensures user.None? && c.CalibrationFile? ==> c.path == SiblingCalibration(left) && c.path in files
  {
    match user
    case Some(p) => CalibrationFile(p)
    case None =>
      var sibling := SiblingCalibration(left);
      if sibling in files then CalibrationFile(sibling) else DefaultCalibration
  }

  /** The first half of the file list holds the left images and the second
      half the right images. */
  function SplitHalves<T>(fileList: seq<T>): (halves: (seq<T>, seq<T>))
    requires |fileList| % 2 == 0
    ensures |halves.0| == |halves.1| == |fileList| / 2
    ensures halves.0 + halves.1 == fileList
  {
    var n := |fileList| / 2;
    (fileList[..n], fileList[n..])
  }

  /** The index `get_next_pair` reads both paths at: the stored one, or 0
      once the stored one has run past the last pair. */
  function UsedIndex(index: nat, n: nat): (i: nat)
    ensures n >= 1 ==> i < n
    ensures index < n ==> i == index
    ensures index >= n ==> i == 0
  {
    if index >= n then 0 else index
  }

  /** The `index` field after k successful calls on a fresh source of n pairs. */
  function IndexAfter(n: nat, k: nat): nat
  {
    if k == 0 then 0 else UsedIndex(IndexAfter(n, k - 1), n) + 1
  }

  /** Call number k (counting from 0) serves pair `k % n`, and leaves the
      index at `k % n + 1`, which lies in `1..n`. */
  lemma {:induction false} CallsCycle(n: nat, k: nat)
    requires n >= 1
    ensures UsedIndex(IndexAfter(n, k), n) == k % n
    ensures IndexAfter(n, k + 1) == k % n + 1
    ensures 1 <= IndexAfter(n, k + 1) <= n
  {
    if k > 0 {
      CallsCycle(n, k - 1);
      var i := IndexAfter(n, k);
      assert i == (k - 1) % n + 1;
      if (k - 1) % n + 1 == n {
        ModWrap(k - 1, n);
      } else {
        ModStep(k - 1, n);
      }
    }
  }

  /** Euclidean division is unique: `a == q * n + r` with `0 <= r < n`
      fixes `a % n` and `a / n`. */
  lemma DivModUnique(a: int, n: int, q: int, r: int)
    requires n >= 1 && 0 <= r < n && a == q * n + r
    ensures a % n == r && a / n == q
  {
    var q', r' := a / n, a % n;
    assert a == q' * n + r';
    assert (q' - q) * n == r - r' by {
      assert q' * n - q * n == (q' - q) * n;
    }
    if q' > q {
      MulAtLeast(q' - q, n);
    } else if q' < q {
      MulAtLeast(q - q', n);
    }
  }

  lemma MulAtLeast(d: int, n: int)
    requires d >= 1 && n >= 1
    ensures d * n >= n
  {
    assert d * n == (d - 1) * n + n;
    assert (d - 1) * n >= 0;
  }

  lemma ModWrap(m: nat, n: nat)
    requires n >= 1 && m % n + 1 == n
    ensures (m + 1) % n == 0
  {
    var q := m / n;
    assert m == q * n + m % n;
    assert (q + 1) * n == q * n + n;
    DivModUnique(m + 1, n, q + 1, 0);
  }

  lemma ModStep(m: nat, n: nat)
    requires n >= 1 && m % n + 1 < n
    ensures (m + 1) % n == m % n + 1
  {
    var q := m / n;
    assert m == q * n + m % n;
    DivModUnique(m + 1, n, q, m % n + 1);
  }

  /** After the first n calls the pairs repeat with period n. */
  lemma CallsRepeat(n: nat, k: nat)
    requires n >= 1
    ensures UsedIndex(IndexAfter(n, k + n), n) == UsedIndex(IndexAfter(n, k), n)
  {
    CallsCycle(n, k);
    CallsCycle(n, k + n);
    ModPeriod(k, n);
  }

  lemma ModPeriod(k: nat, n: nat)
    requires n >= 1
    ensures (k + n) % n == k % n
  {
    var q := k / n;
    assert k == q * n + k % n;
    assert (q + 1) * n == q * n + n;
    DivModUnique(k + n, n, q + 1, k % n);
  }

  /** `FileListSource`: serves the pairs of `file_list` round-robin. */
  class FileListSource {
    var leftImagesPath: seq<Path>
    var rightImagesPath: seq<Path>
    var index: nat
    var userProvidedCalibrationPath: Option<Path>
    /** The number of calls to `GetNextPair` that returned a pair. */
    ghost var calls: nat

    ghost predicate Valid()
      reads this
    {
      && |leftImagesPath| == |rightImagesPath|
      && (|leftImagesPath| == 0 ==> calls == 0)
      && index == IndexAfter(|leftImagesPath|, calls)
    }

    /** `__init__`; an odd-length list fails the source's assertion. */
    constructor (fileList: seq<Path>, calibration: Option<Path>)
      requires |fileList| % 2 == 0
      ensures Valid() && calls == 0
      ensures leftImagesPath == fileList[..|fileList| / 2]
      ensures rightImagesPath == fileList[|fileList| / 2..]
      ensures index == 0
      ensures userProvidedCalibrationPath == calibration
    {
      var halves := SplitHalves(fileList);
      leftImagesPath := halves.0;
      rightImagesPath := halves.1;
      index := 0;
      userProvidedCalibrationPath := calibration;
      calls := 0;
    }

    /** `get_next_pair`: wrap the index if it has run past the last pair,
        serve the left and right paths at that one index with the calibration
        chosen for the left path, and step the index. An empty list raises
        IndexError at the left lookup, after the index has been reset to 0. */
    method GetNextPair(fs: FileSystem) returns (r: Result<FramePair>)
      requires Valid()
      modifies this`index, this`calls
      ensures Valid()
      ensures |leftImagesPath| == 0 ==> r == Err(IndexError) && index == 0 && calls == old(calls)
      ensures |leftImagesPath| >= 1 ==>
        var used := UsedIndex(old(index), |leftImagesPath|);
        && used == old(calls) % |leftImagesPath|
        && r == Ok(FramePair(leftImagesPath[used], rightImagesPath[used],
                             ChooseCalibration(userProvidedCalibrationPath, leftImagesPath[used], fs.files)))
        && index == used + 1
        && 1 <= index <= |leftImagesPath|
        && calls == old(calls) + 1
    {
      if index >= |leftImagesPath| {
        index := 0;
      }
      if index >= |leftImagesPath| {
        assert |leftImagesPath| == 0 && calls == 0;
        r := Err(IndexError);
        return;
      }
      CallsCycle(|leftImagesPath|, calls);
      var leftPath := leftImagesPath[index];
      var calibration := ChooseCalibration(userProvidedCalibrationPath, leftPath, fs.files);
      var rightPath := rightImagesPath[index];
      index := index + 1;
      calls := calls + 1;
      r := Ok(FramePair(leftPath, rightPath, calibration));
    }
  }
}
