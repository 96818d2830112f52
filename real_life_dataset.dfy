// The real-life dataset: a matrix of feature rows and a matrix of target rows, each padded
// with zero rows and cut into fixed-length sequences, then served by index.
//
// The two matrices are passed in as values; reading them from their pickle files is not
// part of this model.
module RealLifeDataset {
  import opened Wrappers
  import opened Tensors
  import MetricsTwin

  /** A matrix as numpy holds it: its rows and its number of columns (known even with no rows). */
  datatype Table = Table(rows: seq<seq<real>>, width: nat)

  /** One sequence: `seqLen` consecutive rows. */
  type Sequence = seq<seq<real>>

  /**
   * The errors the constructor and the indexing can raise: `divmod` by zero, `np.zeros` with a
   * negative row count, a `reshape` whose `-1` cannot be inferred because the rows are empty,
   * a `reshape` of a row count that `seqLen` does not divide, and an index outside the
   * sequences.
   */
  datatype DataError = ZeroDivision | NegativeDimensions | AmbiguousReshape | SizeMismatch | IndexOutOfRange

  /** The number of zero rows appended: `seqLen - red`, with `red` the remainder of the row count. */
  function Padding(n: nat, seqLen: nat): (pad: nat)
    requires seqLen > 0
    ensures 0 < pad <= seqLen
    ensures pad == seqLen <==> n % seqLen == 0
  {
    seqLen - n % seqLen
  }

  /** The number of sequences after padding: `nb_sequences + 1`, one more than whole sequences fit. */
  function SequenceCount(n: nat, seqLen: nat): (count: nat)
    requires seqLen > 0
    ensures count * seqLen == n + Padding(n, seqLen)
  {
    var q := n / seqLen;
    var r := n % seqLen;
    assert n == q * seqLen + r;
    assert (q + 1) * seqLen == q * seqLen + seqLen;
    q + 1
  }

  /** `np.concatenate([rows, np.zeros((pad, width))])`: the rows followed by `pad` zero rows. */
  function PadRows(t: Table, pad: nat): (r: seq<seq<real>>)
    ensures |r| == |t.rows| + pad
    ensures r[..|t.rows|] == t.rows
    ensures forall i :: |t.rows| <= i < |r| ==> r[i] == Zeros(t.width)
  {
    t.rows + seq(pad, _ => Zeros(t.width))
  }

  /** A table padded by the remainder of its own row count. */
  function Padded(t: Table, seqLen: nat): seq<seq<real>>
    requires seqLen > 0
  {
    PadRows(t, Padding(|t.rows|, seqLen))
  }

  /** A whole multiple of a positive factor is at least that factor away from 0. */
  lemma MulAwayFromZero(d: int, k: nat)
    requires k > 0
    ensures d >= 1 ==> d * k >= k
    ensures d <= -1 ==> d * k + k <= 0
  {
  }

  /** Division is unique: `q * k + c` with `0 <= c < k` has quotient `q` and remainder `c`. */
  lemma DivUnique(q: int, k: nat, c: int)
    requires k > 0 && 0 <= c < k
    ensures (q * k + c) / k == q && (q * k + c) % k == c
  {
    var n := q * k + c;
    var m, r := n / k, n % k;
    assert n == m * k + r;
    assert (m - q) * k == c - r;
    MulAwayFromZero(m - q, k);
  }

  lemma MulDivCancel(q: nat, k: nat)
    requires k > 0
    ensures (q * k) % k == 0 && (q * k) / k == q
  {
    DivUnique(q, k, 0);
  }

  /**
   * `reshape((-1, seqLen, width))` of rows of `width` values: consecutive sequences of `seqLen`
   * rows. numpy cannot infer the `-1` of an array without elements (width 0), and refuses a row
   * count that `seqLen` does not divide.
   */
  function Reshape(rows: seq<seq<real>>, seqLen: nat, width: nat): (r: Result<seq<Sequence>, DataError>)
    requires seqLen > 0
    ensures r.Ok? <==> width > 0 && |rows| % seqLen == 0
    ensures width == 0 ==> r == Err(AmbiguousReshape)
    ensures width > 0 && |rows| % seqLen != 0 ==> r == Err(SizeMismatch)
    ensures r.Ok? ==> |r.value| * seqLen == |rows|
    ensures r.Ok? ==> forall i :: 0 <= i < |r.value| ==> |r.value[i]| == seqLen
    ensures r.Ok? ==> MetricsTwin.Flatten(r.value) == rows
  {
    if width == 0 then Err(AmbiguousReshape)
    else if |rows| % seqLen != 0 then Err(SizeMismatch)
    else
      var n := |rows| / seqLen;
      assert |rows| == n * seqLen;
      MetricsTwin.FlattenChunks(rows, seqLen, n);
      Ok(MetricsTwin.Chunks(rows, seqLen, n))
  }

  /**
   * `np.concatenate([rows, zeros]).reshape((-1, seqLen, width))` of one table padded by its own
   * remainder: the padded rows cut into consecutive sequences of `seqLen` rows.
   */
  function Sequences(t: Table, seqLen: int): (r: Result<seq<Sequence>, DataError>)
    ensures seqLen == 0 ==> r == Err(ZeroDivision)
    ensures seqLen < 0 ==> r == Err(NegativeDimensions)
    ensures seqLen > 0 ==> (r.Err? <==> t.width == 0) && (r.Err? ==> r.error == AmbiguousReshape)
    ensures r.Ok? ==> seqLen > 0 && |r.value| == |t.rows| / seqLen + 1
    ensures r.Ok? ==> forall i :: 0 <= i < |r.value| ==> |r.value[i]| == seqLen
    ensures r.Ok? ==> MetricsTwin.Flatten(r.value) == Padded(t, seqLen)
  {
    if seqLen == 0 then Err(ZeroDivision)
    else if seqLen < 0 then Err(NegativeDimensions)
    else
      var count := SequenceCount(|t.rows|, seqLen);
      MulDivCancel(count, seqLen);
      Reshape(Padded(t, seqLen), seqLen, t.width)
  }

  lemma MulStep(i: nat, k: nat)
    ensures (i + 1) * k == i * k + k
  {
  }

  lemma {:induction false} ChunkAt(rows: seq<seq<real>>, k: nat, n: nat, i: nat)
    requires |rows| == n * k && i < n
    ensures (i + 1) * k <= |rows|
    ensures MetricsTwin.Chunks(rows, k, n)[i] == rows[i * k..(i + 1) * k]
  {
    MulStep(n - 1, k);
    var rest := rows[k..];
    assert |rest| == (n - 1) * k;
    var c := MetricsTwin.Chunks(rows, k, n);
    assert c == [rows[..k]] + MetricsTwin.Chunks(rest, k, n - 1);
    if i == 0 {
      assert (i + 1) * k == k;
    } else {
      ChunkAt(rest, k, n - 1, i - 1);
      var lo := (i - 1) * k;
      MulStep(i - 1, k);
      MulStep(i, k);
      assert c[i] == rest[lo..lo + k];
      assert rest[lo..lo + k] == rows[k + lo..k + lo + k];
      assert k + lo == i * k;
    }
  }

  /** Sequence `i` is rows `i * seqLen` up to `(i + 1) * seqLen` of the padded rows. */
  lemma SequenceAt(t: Table, seqLen: nat, i: nat)
    requires seqLen > 0 && t.width > 0 && i < |t.rows| / seqLen + 1
    ensures (i + 1) * seqLen <= |Padded(t, seqLen)|
    ensures Sequences(t, seqLen).value[i] == Padded(t, seqLen)[i * seqLen..(i + 1) * seqLen]
  {
    var p := Padded(t, seqLen);
    var n := |p| / seqLen;
    MulDivCancel(SequenceCount(|t.rows|, seqLen), seqLen);
    assert Sequences(t, seqLen) == Reshape(p, seqLen, t.width);
    assert Reshape(p, seqLen, t.width).value == MetricsTwin.Chunks(p, seqLen, n);
    ChunkAt(p, seqLen, n, i);
  }

  /** When the row count is already a multiple of `seqLen`, the last sequence is all zeros. */
  lemma DivisibleAddsZeroSequence(t: Table, seqLen: nat, s: seq<Sequence>)
    requires Sequences(t, seqLen) == Ok(s) && |t.rows| % seqLen == 0
    ensures |s| > 0 && s[|s| - 1] == seq(seqLen, _ => Zeros(t.width))
  {
    var p := Padded(t, seqLen);
    var last := |s| - 1;
    SequenceAt(t, seqLen, last);
    assert |p| == (last + 1) * seqLen;
    assert (last + 1) * seqLen == last * seqLen + seqLen;
    forall j | 0 <= j < seqLen
      ensures s[last][j] == Zeros(t.width)
    {
      assert s[last][j] == p[last * seqLen + j];
    }
  }

  /** The dataset object: the feature sequences and the target sequences. */
  datatype Dataset = Dataset(x: seq<Sequence>, y: seq<Sequence>) {
    /** `__len__`: the number of feature sequences. */
    function Length(): nat {
      |x|
    }

    /**
     * `__getitem__`: the feature and target sequences at `item`, where a negative index counts
     * from the end, as numpy indexing does; the features are indexed first.
     */
    function GetItem(item: int): (r: Result<(Sequence, Sequence), DataError>)
      ensures r.Ok? <==> -|x| <= item < |x| && -|y| <= item < |y|
      ensures r.Ok? && item >= 0 ==> r.value == (x[item], y[item])
      ensures r.Ok? && item < 0 ==> r.value == (x[|x| + item], y[|y| + item])
    {
      match (Index(x, item), Index(y, item))
      case (Ok(a), Ok(b)) => Ok((a, b))
      case (Err(e), _) => Err(e)
      case (_, Err(e)) => Err(e)
    }
  }

  /** Python indexing of a sequence, negative indices counting from the end. */
  function Index<T>(s: seq<T>, item: int): (r: Result<T, DataError>)
    ensures r.Ok? <==> -|s| <= item < |s|
    ensures r.Ok? ==> r.value == if item >= 0 then s[item] else s[|s| + item]
  {
    if 0 <= item < |s| then Ok(s[item])
    else if -|s| <= item < 0 then Ok(s[|s| + item])
    else Err(IndexOutOfRange)
  }

  /**
   * The constructor: the features first, then the targets. Both are padded with the number of
   * zero rows computed from the features' row count, so the targets reshape only when that
   * padding brings their own row count to a multiple of `seqLen`.
   */
  function Load(x: Table, y: Table, seqLen: int): (r: Result<Dataset, DataError>)
    ensures Sequences(x, seqLen).Err? ==> r == Err(Sequences(x, seqLen).error)
    ensures r.Ok? <==> && Sequences(x, seqLen).Ok? && y.width > 0
                       && (|y.rows| + Padding(|x.rows|, seqLen)) % seqLen == 0
    ensures r.Ok? ==> && r.value.x == Sequences(x, seqLen).value
                      && |r.value.y| * seqLen == |y.rows| + Padding(|x.rows|, seqLen)
                      && (forall i :: 0 <= i < |r.value.y| ==> |r.value.y[i]| == seqLen)
                      && MetricsTwin.Flatten(r.value.y) == PadRows(y, Padding(|x.rows|, seqLen))
  {
    match Sequences(x, seqLen)
    case Err(e) => Err(e)
    case Ok(xs) =>
      match Reshape(PadRows(y, Padding(|x.rows|, seqLen)), seqLen, y.width)
      case Err(e) => Err(e)
      case Ok(ys) => Ok(Dataset(xs, ys))
  }

  /**
   * Features and targets with the same number of rows give the same number of sequences, so
   * every index in range returns sequence `i` of both.
   */
  lemma {:induction false} LoadAligned(x: Table, y: Table, seqLen: nat, i: nat)
    requires seqLen > 0 && x.width > 0 && y.width > 0 && |x.rows| == |y.rows|
    requires i < |x.rows| / seqLen + 1
    ensures Load(x, y, seqLen).Ok?
    ensures var d := Load(x, y, seqLen).value;
            && d.Length() == |d.y| == |x.rows| / seqLen + 1
            && (i + 1) * seqLen <= |Padded(x, seqLen)|
            && d.GetItem(i) == Ok((Padded(x, seqLen)[i * seqLen..(i + 1) * seqLen],
                                   Padded(y, seqLen)[i * seqLen..(i + 1) * seqLen]))
  {
    var d := Load(x, y, seqLen).value;
    MulDivCancel(SequenceCount(|y.rows|, seqLen), seqLen);
    assert Load(x, y, seqLen) == Ok(Dataset(Sequences(x, seqLen).value, Sequences(y, seqLen).value));
    SequenceAt(x, seqLen, i);
    SequenceAt(y, seqLen, i);
  }

  /**
   * Targets whose row count leaves a different remainder from the features' are padded to a
   * row count `seqLen` does not divide, and their reshape fails.
   */
  lemma LoadMismatch(x: Table, y: Table, seqLen: nat)
    requires seqLen > 0 && x.width > 0 && y.width > 0
    requires |x.rows| % seqLen != |y.rows| % seqLen
    ensures Load(x, y, seqLen) == Err(SizeMismatch)
  {
    var a, b := |y.rows| % seqLen, |x.rows| % seqLen;
    var q := |y.rows| / seqLen;
    var padded := PadRows(y, Padding(|x.rows|, seqLen));
    PaddedRowCount(|y.rows|, |x.rows|, seqLen);
    ModOffset(q + 1, seqLen, a - b);
    assert Reshape(padded, seqLen, y.width) == Err(SizeMismatch);
    assert Sequences(x, seqLen).Ok?;
  }

  /** `ny` rows padded by the remainder of `nx`, against the next multiple of `k` above `ny`. */
  lemma PaddedRowCount(ny: nat, nx: nat, k: nat)
    requires k > 0
    ensures ny + Padding(nx, k) == (ny / k + 1) * k + (ny % k - nx % k)
  {
    assert ny == ny / k * k + ny % k;
    MulStep(ny / k, k);
  }

  /** A multiple of `k` shifted by less than `k` in either direction, but not by 0, is not a multiple of `k`. */
  lemma ModOffset(q: nat, k: nat, c: int)
    requires k > 0 && 0 < c + k && c < k && c != 0 && q * k + c >= 0
    ensures (q * k + c) % k != 0
  {
    if c > 0 {
      DivUnique(q, k, c);
    } else {
      assert q * k + c == (q - 1) * k + (k + c);
      DivUnique(q - 1, k, k + c);
    }
  }
}
