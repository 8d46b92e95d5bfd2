/**
 * The latent-capsule batch loader of the flow trainer: a cursor over a
 * directory of `train_size` files named `<base>_%03d.pt`, each holding one
 * latent-capsule tensor that is flattened into a row of `N_DIM` entries.
 *
 * The directory's contents are a parameter (file name to flattened tensor);
 * a row is an abstract sequence of entries of type `V`.
 */
module LatentLoader {
  import opened Results
  import PyFormat
  import Arith

  /** The exceptions `next_batch` can raise while loading rows. */
  datatype LoadError =
    | FileNotFound(name: string)              // torch.load of a file the directory lacks
    | RowSizeMismatch(index: int, size: nat)  // torch.cat of a row that is not N_DIM long

  /** The exception `batch_range` raises: `math` is used but never imported. */
  datatype RangeError = NameError

  /** A half-open range of file indices `[lo, hi)`. */
  datatype Span = Span(lo: int, hi: int)

  /** The file that holds latent row `i`: `base + "_%03d.pt" % i`. */
  function LatentFileName(base: string, i: int): string {
    base + "_" + PyFormat.FormatInt(i, 3) + ".pt"
  }

  /**
   * A latent file name is the base name and '_', then at least three
   * characters from which the index reads back, then ".pt".
   */
  lemma LatentFileNameShape(base: string, i: int)
    ensures var name := LatentFileName(base, i);
      |name| >= |base| + 7 &&
      name[..|base| + 1] == base + "_" &&
      name[|name| - 3..] == ".pt" &&
      PyFormat.ParseInt(name[|base| + 1..|name| - 3]) == i
  {
    var digits := PyFormat.FormatInt(i, 3);
    var name := base + "_" + digits + ".pt";
    assert name[|base| + 1..|name| - 3] == digits;
    PyFormat.FormatIntReadsBack(i, 3);
  }

  /** Distinct indices are stored in distinct files. */
  lemma LatentFileNameInjective(base: string, i: int, j: int)
    requires LatentFileName(base, i) == LatentFileName(base, j)
    ensures i == j
  {
    LatentFileNameShape(base, i);
    LatentFileNameShape(base, j);
  }

  /** The cursor after `next_batch(b)` from cursor `s` over `n` files. */
  function NextStart(s: int, b: int, n: nat): (r: int)
    ensures r == 0 || r < n
    ensures s + b < n ==> r == s + b
    ensures s + b >= n ==> r == 0
    ensures 0 <= s && 0 <= b ==> 0 <= r
  {
    if s + b >= n then 0 else s + b
  }

  /**
   * The index range `next_batch(b)` reads from cursor `s` over `n` files.
   * A positive `b` reads at most `b` indices from `s`, clamped to `n`; the
   * range ends where the next call starts unless the cursor wraps, and a
   * wrapping call from inside the directory reads up to its end. `b == 0`
   * reads `[0, n + 1)`, one index past the last file.
   */
  function BatchSpan(s: int, b: int, n: nat): (r: Span)
    ensures b == 0 ==> r == Span(0, n + 1)
    ensures b != 0 ==> r.lo == s && r.hi <= n && r.hi <= s + b
    ensures b != 0 && s + b < n ==> r.hi == NextStart(s, b, n)
    ensures b > 0 && s < n ==> r.lo < r.hi
    ensures b > 0 && s < n <= s + b ==> r.hi == n && NextStart(s, b, n) == 0
  {
    var end := if s + b < n then s + b else n;
    if b == 0 then Span(0, n + 1) else Span(s, end)
  }

  /**
   * The rows loaded for indices `[lo, hi)` in increasing order, or the
   * exception raised at the first index whose file is missing or whose
   * flattened tensor is not `nDim` long.
   */
  function LoadRows<V>(files: map<string, seq<V>>, base: string, nDim: nat, lo: int, hi: int)
    : Result<seq<seq<V>>, LoadError>
    decreases hi - lo
  {
    if lo >= hi then Ok([])
    else
      var name := LatentFileName(base, lo);
      if name !in files then Err(FileNotFound(name))
      else if |files[name]| != nDim then Err(RowSizeMismatch(lo, |files[name]|))
      else Prepend([files[name]], LoadRows(files, base, nDim, lo + 1, hi))
  }

  /** Rows already loaded followed by the outcome of loading the rest. */
  function Prepend<V>(rows: seq<seq<V>>, rest: Result<seq<seq<V>>, LoadError>): Result<seq<seq<V>>, LoadError> {
    match rest
    case Ok(more) => Ok(rows + more)
    case Err(e) => Err(e)
  }

  /** Every index of `[lo, hi)` has a file holding a row of `nDim` entries. */
  ghost predicate Loadable<V>(files: map<string, seq<V>>, base: string, nDim: nat, lo: int, hi: int) {
    forall i :: lo <= i < hi ==> LatentFileName(base, i) in files && |files[LatentFileName(base, i)]| == nDim
  }

  /** Loading succeeds exactly when every index of the range is loadable. */
  lemma {:induction false} LoadRowsSucceedsIff<V>(files: map<string, seq<V>>, base: string, nDim: nat, lo: int, hi: int)
    ensures LoadRows(files, base, nDim, lo, hi).Ok? <==> Loadable(files, base, nDim, lo, hi)
    decreases hi - lo
  {
    if lo < hi {
      LoadRowsSucceedsIff(files, base, nDim, lo + 1, hi);
    }
  }

  /** Row `k` of `rows` is the `nDim`-entry contents of the file for index `lo + k`. */
  ghost predicate RowsFromFiles<V>(rows: seq<seq<V>>, files: map<string, seq<V>>, base: string, nDim: nat, lo: int) {
    forall k :: 0 <= k < |rows| ==> RowFromFile(rows[k], files, base, nDim, lo + k)
  }

  ghost predicate RowFromFile<V>(row: seq<V>, files: map<string, seq<V>>, base: string, nDim: nat, i: int) {
    LatentFileName(base, i) in files && row == files[LatentFileName(base, i)] && |row| == nDim
  }

  /**
   * A successful load returns `hi - lo` rows, row `k` being the contents of
   * the file for index `lo + k`, each `nDim` long.
   */
  lemma {:induction false} LoadRowsContents<V>(files: map<string, seq<V>>, base: string, nDim: nat, lo: int, hi: int)
    requires LoadRows(files, base, nDim, lo, hi).Ok?
    ensures |LoadRows(files, base, nDim, lo, hi).value| == if lo <= hi then hi - lo else 0
    ensures RowsFromFiles(LoadRows(files, base, nDim, lo, hi).value, files, base, nDim, lo)
    decreases hi - lo
  {
    if lo < hi {
      LoadRowsContents(files, base, nDim, lo + 1, hi);
      var rows := LoadRows(files, base, nDim, lo, hi).value;
      var rest := LoadRows(files, base, nDim, lo + 1, hi).value;
      assert rows == [files[LatentFileName(base, lo)]] + rest;
      assert RowFromFile(rows[0], files, base, nDim, lo);
      forall k | 1 <= k < |rows|
        ensures RowFromFile(rows[k], files, base, nDim, lo + k)
      {
        assert rows[k] == rest[k - 1];
        assert RowFromFile(rest[k - 1], files, base, nDim, lo + 1 + (k - 1));
      }
    }
  }

  /** The file names of a directory holding exactly the files `0 .. n - 1`. */
  ghost function DatasetNames(base: string, n: nat): set<string> {
    set i | 0 <= i < n :: LatentFileName(base, i)
  }

  /**
   * With `batch_size == 0` the loader reads index `n` as well; a directory
   * holding exactly the files `0 .. n - 1` (well formed) makes that call
   * raise FileNotFound for the file of index `n`.
   */
  lemma {:induction false} WholeDatasetReadsOnePast<V>(files: map<string, seq<V>>, base: string, nDim: nat, n: nat, lo: int)
    requires files.Keys == DatasetNames(base, n)
    requires Loadable(files, base, nDim, 0, n)
    requires 0 <= lo <= n
    ensures LoadRows(files, base, nDim, lo, n + 1) == Err(FileNotFound(LatentFileName(base, n)))
    decreases n - lo
  {
    if LatentFileName(base, n) in files {
      var i :| 0 <= i < n && LatentFileName(base, i) == LatentFileName(base, n);
      LatentFileNameInjective(base, i, n);
      assert false;
    }
    if lo < n {
      WholeDatasetReadsOnePast(files, base, nDim, n, lo + 1);
    }
  }

  /** Loading one more row onto those already loaded. */
  lemma PrependSnoc<V>(rows: seq<seq<V>>, row: seq<V>, rest: Result<seq<seq<V>>, LoadError>)
    ensures Prepend(rows, Prepend([row], rest)) == Prepend(rows + [row], rest)
  {
    if rest.Ok? {
      assert rows + ([row] + rest.value) == (rows + [row]) + rest.value;
    }
  }

  /** Loads the rows of `[lo, hi)` one file at a time, as `next_batch`'s loop does. */
  method LoadRange<V>(files: map<string, seq<V>>, base: string, nDim: nat, lo: int, hi: int)
    returns (r: Result<seq<seq<V>>, LoadError>)
    ensures r == LoadRows(files, base, nDim, lo, hi)
  {
    var batch: seq<seq<V>> := [];
    var i := lo;
    assert Prepend(batch, LoadRows(files, base, nDim, i, hi)) == LoadRows(files, base, nDim, i, hi) by {
      if LoadRows(files, base, nDim, i, hi).Ok? {
        assert batch + LoadRows(files, base, nDim, i, hi).value == LoadRows(files, base, nDim, i, hi).value;
      }
    }
    while i < hi
      invariant lo <= i
      invariant LoadRows(files, base, nDim, lo, hi) == Prepend(batch, LoadRows(files, base, nDim, i, hi))
      decreases hi - i
    {
      var name := LatentFileName(base, i);
      if name !in files {
        return Err(FileNotFound(name));
      }
      var row := files[name];
      if |row| != nDim {
        return Err(RowSizeMismatch(i, |row|));
      }
      PrependSnoc(batch, row, LoadRows(files, base, nDim, i + 1, hi));
      batch := batch + [row];
      i := i + 1;
    }
    assert batch + [] == batch;
    return Ok(batch);
  }

  /** Ceiling of `n / b` for a nonzero `b`, exactly. */
  function CeilDiv(n: int, b: int): (r: int)
    requires b != 0
    ensures b > 0 ==> (r - 1) * b < n <= r * b
    ensures b < 0 ==> r * b <= n < (r - 1) * b
  {
    if b > 0 then CeilDivPositive(n, b) else CeilDivPositive(-n, -b)
  }

  function CeilDivPositive(n: int, b: int): (r: int)
    requires b > 0
    ensures (r - 1) * b < n <= r * b
  {
    var q := (-n) / b;
    assert q * b <= -n < (q + 1) * b;
    -q
  }

  /**
   * The loader over a directory of `trainSize` latent files. Its one piece
   * of state is the cursor `startPos`.
   */
  class DataLoader<V> {
    const baseFilename: string
    const nDim: nat
    const trainSize: nat
    var startPos: int

    /** The cursor is at the start or inside the directory. */
    ghost predicate Valid()
      reads this
    {
      startPos == 0 || startPos < trainSize
    }

    /** `trainSize` stands for the count of files the source reads from the directory listing. */
    constructor (baseFilename: string, nDim: nat, trainSize: nat)
      ensures Valid()
      ensures this.baseFilename == baseFilename && this.nDim == nDim && this.trainSize == trainSize
      ensures startPos == 0
    {
      this.baseFilename := baseFilename;
      this.nDim := nDim;
      this.trainSize := trainSize;
      startPos := 0;
    }

    /**
     * Advances the cursor by `batchSize` (back to 0 once it reaches
     * `trainSize`) and loads the rows of the range the old cursor selects.
     * The cursor moves even when loading then raises.
     */
    method NextBatch(batchSize: int, files: map<string, seq<V>>) returns (r: Result<seq<seq<V>>, LoadError>)
      modifies this`startPos
      ensures Valid()
      ensures startPos == NextStart(old(startPos), batchSize, trainSize)
      ensures var span := BatchSpan(old(startPos), batchSize, trainSize);
        r == LoadRows(files, baseFilename, nDim, span.lo, span.hi)
    {
      var start := startPos;
      startPos := startPos + batchSize;
      if startPos >= trainSize {
        startPos := 0;
      }
      var end := if start + batchSize < trainSize then start + batchSize else trainSize;
      if batchSize == 0 {
        start := 0;
        end := trainSize + 1;
      }
      r := LoadRange(files, baseFilename, nDim, start, end);
    }

    /** `batch_range` as written: any nonzero batch size reaches the unimported `math`. */
    function BatchRangeAsWritten(batchSize: int): (r: Result<int, RangeError>)
      ensures r.Ok? <==> batchSize == 0
      ensures r.Ok? ==> r.value == 1
    {
      if batchSize == 0 then Ok(1) else Err(NameError)
    }

    /**
     * `batch_range` as intended: one batch for the whole-dataset size 0,
     * otherwise the number of batches of `batchSize` needed to cover the
     * directory, `ceil(trainSize / batchSize)`.
     */
    function BatchRange(batchSize: int): (r: int)
      ensures batchSize == 0 ==> r == 1
      ensures batchSize > 0 ==> (r - 1) * batchSize < trainSize <= r * batchSize
      ensures batchSize < 0 ==> r * batchSize <= trainSize < (r - 1) * batchSize
    {
      if batchSize == 0 then 1 else CeilDiv(trainSize, batchSize)
    }
  }

  /**
   * On a directory of 100 files, `batch_range(20)` as written raises
   * NameError, where five batches of 20 were meant.
   */
  lemma BatchRangeRaises<V>(loader: DataLoader<V>)
    requires loader.trainSize == 100
    ensures loader.BatchRangeAsWritten(20) == Err(NameError)
    ensures loader.BatchRange(20) == 5
  {
  }

  /** The cursor after `k` calls of `next_batch(b)` from a fresh loader over `n` files. */
  function CursorAfter(b: int, n: nat, k: nat): int {
    if k == 0 then 0 else NextStart(CursorAfter(b, n, k - 1), b, n)
  }

  /**
   * Repeated `next_batch(b)` calls from a fresh loader tile the directory:
   * before the wrap, call `k` starts at `k * b` and reads `[k * b, min((k + 1) * b, n))`.
   */
  lemma {:induction false} EpochTiles(b: int, n: nat, k: nat)
    requires b > 0 && k < CeilDiv(n, b)
    ensures CursorAfter(b, n, k) == k * b
    ensures BatchSpan(k * b, b, n) == Span(k * b, if (k + 1) * b < n then (k + 1) * b else n)
  {
    var c := CeilDiv(n, b);
    assert k * b < n by {
      Arith.MulMono(k, c - 1, b);
      assert b * k == k * b && b * (c - 1) == (c - 1) * b;
    }
    if k > 0 {
      EpochTiles(b, n, k - 1);
      Arith.MulPred(k, b);
    }
    Arith.MulPred(k + 1, b);
  }

  /**
   * After `ceil(n / b)` calls (the intended `batch_range(b)`) the cursor is
   * back at 0, and the last of them read up to the end of the directory.
   */
  lemma EpochWraps(b: int, n: nat)
    requires b > 0 && n > 0
    ensures CeilDiv(n, b) >= 1
    ensures CursorAfter(b, n, CeilDiv(n, b)) == 0
    ensures BatchSpan(CursorAfter(b, n, CeilDiv(n, b) - 1), b, n).hi == n
  {
    var c := CeilDiv(n, b);
    assert c >= 1 by {
      if c <= 0 { Arith.MulMono(c, 0, b); }
    }
    EpochTiles(b, n, c - 1);
    assert (c - 1) * b + b == c * b;
  }

  /**
   * On a directory that holds every file `0 .. n - 1` with rows of `nDim`
   * entries, a positive batch from a cursor in `[0, n)` loads without error
   * and returns one row per index of its range, in index order.
   */
  lemma PositiveBatchLoads<V>(files: map<string, seq<V>>, base: string, nDim: nat, n: nat, s: int, b: int)
    requires Loadable(files, base, nDim, 0, n)
    requires 0 <= s < n && b > 0
    ensures var span := BatchSpan(s, b, n);
      LoadRows(files, base, nDim, span.lo, span.hi).Ok? &&
      |LoadRows(files, base, nDim, span.lo, span.hi).value| == span.hi - span.lo > 0
  {
    var span := BatchSpan(s, b, n);
    LoadRowsSucceedsIff(files, base, nDim, span.lo, span.hi);
    LoadRowsContents(files, base, nDim, span.lo, span.hi);
  }
}
