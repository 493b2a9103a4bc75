/** Feature maps as nested sequences, and the index arithmetic of `transpose(...).contiguous().view(...)`,
    `permute` and `torch.cat` along the channel axis. Only layout is modelled: values are opaque reals. */
module Tensors {

  /** One channel of a feature map: `[row][col]`. */
  type Grid = seq<seq<real>>

  /** One batch element: `[channel][row][col]`. */
  type Map = seq<Grid>

  predicate IsGrid(g: Grid, rows: nat, cols: nat) {
    |g| == rows && forall r :: 0 <= r < rows ==> |g[r]| == cols
  }

  predicate IsMap(m: Map, ch: nat, rows: nat, cols: nat) {
    |m| == ch && forall k :: 0 <= k < ch ==> IsGrid(m[k], rows, cols)
  }

  /** A `[batch, channel, row, col]` tensor with its shape; the shape is kept even for an empty batch. */
  datatype Tensor = Tensor(ch: nat, rows: nat, cols: nat, data: seq<Map>)

  predicate Shaped(t: Tensor) {
    forall b :: 0 <= b < |t.data| ==> IsMap(t.data[b], t.ch, t.rows, t.cols)
  }

  /** `y[:, lo:hi]`: the channels `lo` to `hi` of every batch element. */
  function Channels(t: Tensor, lo: nat, hi: nat): (r: Tensor)
    requires Shaped(t) && lo <= hi <= t.ch
    ensures Shaped(r) && r.ch == hi - lo && r.rows == t.rows && r.cols == t.cols && |r.data| == |t.data|
    ensures forall b, k :: 0 <= b < |t.data| && 0 <= k < hi - lo ==> r.data[b][k] == t.data[b][lo + k]
  {
    Tensor(hi - lo, t.rows, t.cols, seq(|t.data|, b requires 0 <= b < |t.data| => t.data[b][lo..hi]))
  }

  /** Row-major flattening of a list of lists: the memory order of a contiguous tensor. */
  function Concat<X>(xss: seq<seq<X>>): seq<X> {
    if xss == [] then [] else xss[0] + Concat(xss[1..])
  }

  predicate Uniform<X>(xss: seq<seq<X>>, w: nat) {
    forall i :: 0 <= i < |xss| ==> |xss[i]| == w
  }

  /** Element `j` of row `i` of rows that all have width `w` sits at `i*w + j` once flattened. */
  lemma {:induction false} ConcatIndex<X>(xss: seq<seq<X>>, w: nat, i: nat, j: nat)
    requires Uniform(xss, w) && i < |xss| && j < w
    ensures |Concat(xss)| == |xss| * w
    ensures i * w + j < |Concat(xss)| && Concat(xss)[i * w + j] == xss[i][j]
  {
    ConcatLength(xss, w);
    if i > 0 {
      ConcatIndex(xss[1..], w, i - 1, j);
      assert i * w + j == w + ((i - 1) * w + j);
    }
  }

  lemma {:induction false} ConcatLength<X>(xss: seq<seq<X>>, w: nat)
    requires Uniform(xss, w)
    ensures |Concat(xss)| == |xss| * w
  {
    if xss != [] {
      ConcatLength(xss[1..], w);
    }
  }

  /** `view(-1, w)` on contiguous memory: consecutive runs of `w` elements. */
  function Chunks<X>(xs: seq<X>, w: nat): (r: seq<seq<X>>)
    requires w > 0 && |xs| % w == 0
    ensures Uniform(r, w) && |r| * w == |xs|
    decreases |xs|
  {
    if xs == [] then []
    else
      ModStep(|xs|, w);
      var rest := Chunks(xs[w..], w);
      assert (|rest| + 1) * w == |rest| * w + w;
      [xs[..w]] + rest
  }

  /** A positive multiple of `w` is at least `w`, and removing `w` leaves a multiple of `w`. */
  lemma ModStep(n: nat, w: nat)
    requires w > 0 && n > 0 && n % w == 0
    ensures n >= w && (n - w) % w == 0
  {
    var q := n / w;
    assert n == q * w;
    assert q >= 1;
    MulMono(1, q, w);
    assert n - w == (q - 1) * w;
    DivModUnique(n - w, w, q - 1, 0);
  }

  /** Flattening and then viewing with the row width gives the rows back. */
  lemma {:induction false} ChunksConcat<X>(xss: seq<seq<X>>, w: nat)
    requires w > 0 && Uniform(xss, w)
    ensures |Concat(xss)| % w == 0 && Chunks(Concat(xss), w) == xss
  {
    ConcatLength(xss, w);
    DivModUnique(|xss| * w, w, |xss|, 0);
    if xss != [] {
      var flat := Concat(xss);
      assert flat == xss[0] + Concat(xss[1..]);
      assert flat[..w] == xss[0];
      assert flat[w..] == Concat(xss[1..]);
      ChunksConcat(xss[1..], w);
      assert Chunks(flat, w) == [xss[0]] + xss[1..];
    }
  }

  /** Viewing and then flattening gives the memory back. */
  lemma {:induction false} ConcatChunks<X>(xs: seq<X>, w: nat)
    requires w > 0 && |xs| % w == 0
    ensures Concat(Chunks(xs, w)) == xs
    decreases |xs|
  {
    if xs != [] {
      ModStep(|xs|, w);
      var rows := Chunks(xs, w);
      assert rows == [xs[..w]] + Chunks(xs[w..], w);
      assert rows[0] == xs[..w] && rows[1..] == Chunks(xs[w..], w);
      ConcatChunks(xs[w..], w);
      assert Concat(rows) == xs[..w] + xs[w..];
    }
  }

  /** `m.transpose(1,3).contiguous()` for one batch element: `[col][row][channel]`. */
  function Transposed(m: Map, ch: nat, rows: nat, cols: nat): (r: seq<seq<seq<real>>>)
    requires IsMap(m, ch, rows, cols)
    ensures |r| == cols && Uniform(r, rows)
    ensures forall c :: 0 <= c < cols ==> Uniform(r[c], ch)
  {
    seq(cols, c requires 0 <= c < cols => seq(rows, i requires 0 <= i < rows => seq(ch, k requires 0 <= k < ch => m[k][i][c])))
  }

  /** `.view(batch, -1, ch)` after the transpose: the instance list of one batch element. */
  function InstanceList(m: Map, ch: nat, rows: nat, cols: nat): seq<seq<real>>
    requires IsMap(m, ch, rows, cols)
  {
    Concat(Transposed(m, ch, rows, cols))
  }

  /** The instance index of cell (row `r`, col `c`): the column varies slowest. */
  function InstanceIndex(r: nat, c: nat, rows: nat): nat {
    c * rows + r
  }

  /** The cell an instance index came from. */
  function CellOf(j: nat, rows: nat): (rc: (nat, nat))
    requires rows > 0
  {
    (j % rows, j / rows)
  }

  /** Cell (r, c) maps to an instance index below `rows*cols`, and back to the same cell. */
  lemma IndexThenCell(rows: nat, cols: nat, r: nat, c: nat)
    requires r < rows && c < cols
    ensures InstanceIndex(r, c, rows) < rows * cols
    ensures CellOf(InstanceIndex(r, c, rows), rows) == (r, c)
  {
    MulMono(c + 1, cols, rows);
    DivModUnique(c * rows + r, rows, c, r);
  }

  /** Every instance index below `rows*cols` comes from a cell of the grid, and that cell maps back to it:
      with IndexThenCell, the flattening is a bijection between the grid cells and the instance indices. */
  lemma CellThenIndex(rows: nat, cols: nat, j: nat)
    requires j < rows * cols
    ensures rows > 0
    ensures CellOf(j, rows).0 < rows && CellOf(j, rows).1 < cols
    ensures InstanceIndex(CellOf(j, rows).0, CellOf(j, rows).1, rows) == j
  {
    if rows == 0 {
      assert false;
    }
    assert (j / rows) * rows <= j;
    MulLtCancel(j / rows, cols, rows);
  }

  lemma DivModUnique(n: nat, d: nat, q: nat, m: nat)
    requires d > 0 && m < d && n == q * d + m
    ensures n / d == q && n % d == m
  {
    var q', m' := n / d, n % d;
    if q' > q {
      MulMono(q + 1, q', d);
      assert false;
    } else if q' < q {
      MulMono(q' + 1, q, d);
      assert false;
    }
  }

  lemma MulMono(a: nat, b: nat, d: nat)
    requires a <= b
    ensures a * d <= b * d
  {
    assert b * d == a * d + (b - a) * d;
  }

  lemma MulLtCancel(a: nat, b: nat, d: nat)
    requires a * d < b * d
    ensures a < b
  {
    if a >= b {
      MulMono(b, a, d);
      assert false;
    }
  }

  /** The instance list holds `rows*cols` instances of `ch` values; the instance of cell (r, c) is at
      `c*rows + r` and holds that cell's channels in order. */
  lemma InstanceAt(m: Map, ch: nat, rows: nat, cols: nat, r: nat, c: nat)
    requires IsMap(m, ch, rows, cols) && r < rows && c < cols
    ensures |InstanceList(m, ch, rows, cols)| == rows * cols
    ensures InstanceIndex(r, c, rows) < rows * cols
    ensures InstanceList(m, ch, rows, cols)[InstanceIndex(r, c, rows)] == seq(ch, k requires 0 <= k < ch => m[k][r][c])
  {
    var t := Transposed(m, ch, rows, cols);
    ConcatIndex(t, rows, c, r);
    assert |t| * rows == rows * cols;
  }

  lemma InstanceListUniform(m: Map, ch: nat, rows: nat, cols: nat)
    requires IsMap(m, ch, rows, cols)
    ensures |InstanceList(m, ch, rows, cols)| == rows * cols
    ensures Uniform(InstanceList(m, ch, rows, cols), ch)
  {
    var l := InstanceList(m, ch, rows, cols);
    ConcatLength(Transposed(m, ch, rows, cols), rows);
    assert |l| == cols * rows;
    forall j | 0 <= j < |l|
      ensures |l[j]| == ch
    {
      CellThenIndex(rows, cols, j);
      var (r, c) := CellOf(j, rows);
      InstanceAt(m, ch, rows, cols, r, c);
    }
  }

  /** The flat memory of the transposed map, `rows*cols*ch` values, which `view` reinterprets. */
  function Memory(m: Map, ch: nat, rows: nat, cols: nat): seq<real>
    requires IsMap(m, ch, rows, cols)
  {
    Concat(InstanceList(m, ch, rows, cols))
  }

  /** Viewing the memory with the channel count as row width is the instance list. */
  lemma ViewMemory(m: Map, ch: nat, rows: nat, cols: nat)
    requires IsMap(m, ch, rows, cols) && ch > 0
    ensures |Memory(m, ch, rows, cols)| == rows * cols * ch
    ensures |Memory(m, ch, rows, cols)| % ch == 0
    ensures Chunks(Memory(m, ch, rows, cols), ch) == InstanceList(m, ch, rows, cols)
  {
    InstanceListUniform(m, ch, rows, cols);
    ConcatLength(InstanceList(m, ch, rows, cols), ch);
    ChunksConcat(InstanceList(m, ch, rows, cols), ch);
  }

  /** The instance lists of a whole batch: `[batch, rows*cols, ch]`. */
  function Instances(t: Tensor): (r: seq<seq<seq<real>>>)
    requires Shaped(t)
    ensures |r| == |t.data|
  {
    seq(|t.data|, b requires 0 <= b < |t.data| => InstanceList(t.data[b], t.ch, t.rows, t.cols))
  }

  /** `torch.stack(per_anchor, dim=1).transpose(2,4).contiguous().view(B, A, -1, ch).view(B, -1, ch)`
      for one batch element: the anchors' instance lists one after another. */
  function AnchorMajor(ms: seq<Map>, ch: nat, rows: nat, cols: nat): seq<seq<real>>
    requires forall a :: 0 <= a < |ms| ==> IsMap(ms[a], ch, rows, cols)
  {
    Concat(seq(|ms|, a requires 0 <= a < |ms| => InstanceList(ms[a], ch, rows, cols)))
  }

  /** Anchor `a`'s cell (r, c) lands at `a*rows*cols + c*rows + r`; there are `|ms|*rows*cols` instances. */
  lemma AnchorMajorAt(ms: seq<Map>, ch: nat, rows: nat, cols: nat, a: nat, r: nat, c: nat)
    requires forall a :: 0 <= a < |ms| ==> IsMap(ms[a], ch, rows, cols)
    requires a < |ms| && r < rows && c < cols
    ensures |AnchorMajor(ms, ch, rows, cols)| == |ms| * (rows * cols)
    ensures a * (rows * cols) + InstanceIndex(r, c, rows) < |AnchorMajor(ms, ch, rows, cols)|
    ensures AnchorMajor(ms, ch, rows, cols)[a * (rows * cols) + InstanceIndex(r, c, rows)]
         == seq(ch, k requires 0 <= k < ch => ms[a][k][r][c])
  {
    var lists := seq(|ms|, a requires 0 <= a < |ms| => InstanceList(ms[a], ch, rows, cols));
    forall x | 0 <= x < |ms|
      ensures |lists[x]| == rows * cols
    {
      InstanceListUniform(ms[x], ch, rows, cols);
    }
    InstanceAt(ms[a], ch, rows, cols, r, c);
    ConcatIndex(lists, rows * cols, a, InstanceIndex(r, c, rows));
  }

  /** `permute(0,1,3,4,2)` for one anchor of one batch element: `[row][col][channel]`, not flattened. */
  function Permuted(m: Map, ch: nat, rows: nat, cols: nat): (r: seq<seq<seq<real>>>)
    requires IsMap(m, ch, rows, cols)
    ensures |r| == rows && forall i :: 0 <= i < rows ==> |r[i]| == cols
    ensures forall i, c :: 0 <= i < rows && 0 <= c < cols ==> |r[i][c]| == ch
    ensures forall i, c, k :: 0 <= i < rows && 0 <= c < cols && 0 <= k < ch ==> r[i][c][k] == m[k][i][c]
  {
    seq(rows, i requires 0 <= i < rows => seq(cols, c requires 0 <= c < cols => seq(ch, k requires 0 <= k < ch => m[k][i][c])))
  }

  /** Pointwise `f` over a grid. */
  function MapGrid(g: Grid, f: real -> real): (r: Grid)
    ensures |r| == |g| && forall i :: 0 <= i < |g| ==> |r[i]| == |g[i]|
    ensures forall i, j :: 0 <= i < |g| && 0 <= j < |g[i]| ==> r[i][j] == f(g[i][j])
  {
    seq(|g|, i requires 0 <= i < |g| => seq(|g[i]|, j requires 0 <= j < |g[i]| => f(g[i][j])))
  }

  /** Pointwise sum of two grids of one shape. */
  function AddGrid(g: Grid, h: Grid, rows: nat, cols: nat): (r: Grid)
    requires IsGrid(g, rows, cols) && IsGrid(h, rows, cols)
    ensures IsGrid(r, rows, cols)
    ensures forall i, j :: 0 <= i < rows && 0 <= j < cols ==> r[i][j] == g[i][j] + h[i][j]
  {
    seq(rows, i requires 0 <= i < rows => seq(cols, j requires 0 <= j < cols => g[i][j] + h[i][j]))
  }

  /** `ncReLU`: `torch.cat([relu(x), -relu(-x)], 1)`, the positive parts and then the negative parts. */
  function NcRelu(m: Map): (r: Map)
    ensures |r| == 2 * |m|
  {
    seq(|m|, k requires 0 <= k < |m| => MapGrid(m[k], x => if x > 0.0 then x else 0.0))
    + seq(|m|, k requires 0 <= k < |m| => MapGrid(m[k], x => -(if -x > 0.0 then -x else 0.0)))
  }

  /** The doubled map loses nothing: channel `k` plus channel `k + |m|` is the input channel `k`.
      The first half is the positive part and the second the negative part: at most one is non-zero. */
  lemma NcReluSplits(m: Map, k: nat, i: nat, j: nat)
    requires k < |m| && i < |m[k]| && j < |m[k][i]|
    ensures |NcRelu(m)[k]| == |NcRelu(m)[k + |m|]| == |m[k]|
    ensures |NcRelu(m)[k][i]| == |NcRelu(m)[k + |m|][i]| == |m[k][i]|
    ensures NcRelu(m)[k][i][j] + NcRelu(m)[k + |m|][i][j] == m[k][i][j]
    ensures NcRelu(m)[k][i][j] >= 0.0 && NcRelu(m)[k + |m|][i][j] <= 0.0
    ensures NcRelu(m)[k][i][j] * NcRelu(m)[k + |m|][i][j] == 0.0
    ensures NcRelu(m)[k][i][j] == if m[k][i][j] > 0.0 then m[k][i][j] else 0.0
  {
    var n := NcRelu(m);
    assert n[k] == MapGrid(m[k], x => if x > 0.0 then x else 0.0);
    assert n[k + |m|] == MapGrid(m[k], x => -(if -x > 0.0 then -x else 0.0));
  }
}
