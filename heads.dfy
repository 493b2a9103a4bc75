/** What both detectors share after the trunk: the scale as a power of two, the prior grids of cell
    centres, the transcendental activations (left uninterpreted), and the decoding of a point type. */
module Heads {
  import opened Tensors

  /** 2 to an integer power: the accumulated stride of the backbone. */
  function Pow2(e: int): (r: real)
    ensures r > 0.0
    decreases if e < 0 then -e else e
  {
    if e == 0 then 1.0 else if e > 0 then 2.0 * Pow2(e - 1) else Pow2(e + 1) / 2.0
  }

  /** One more doubling doubles the power, on either side of zero. */
  lemma Pow2Succ(e: int)
    ensures Pow2(e + 1) == 2.0 * Pow2(e)
  {
    if e < 0 {
      assert Pow2(e) == Pow2(e + 1) / 2.0;
    }
  }

  /** `torch.sigmoid`, `torch.tanh`, `torch.exp` and `math.pi`, which the model does not compute. */
  datatype Activations = Activations(sigmoid: real -> real, tanh: real -> real, exp: real -> real, pi: real)

  /** What is known of the logistic function that the confidence channel relies on. */
  ghost predicate SigmoidInUnit(act: Activations) {
    forall x :: 0.0 <= act.sigmoid(x) <= 1.0
  }

  /** The prior of grid index `i`: `(i + 0.5) * scale`. */
  function Prior(i: nat, scale: real): real {
    (i as real + 0.5) * scale
  }

  /** The prior is the centre of the `scale`-wide pixel block that grid index `i` covers. */
  lemma PriorIsCellCentre(i: nat, scale: real)
    requires scale > 0.0
    ensures i as real * scale < Prior(i, scale) < (i + 1) as real * scale
    ensures Prior(i, scale) == (i as real * scale + (i + 1) as real * scale) / 2.0
  {
  }

  /** `priors_0`: every cell of row `r` holds the row prior. */
  function RowPriors(rows: nat, cols: nat, scale: real): (g: Grid)
    ensures IsGrid(g, rows, cols)
    ensures forall r, c :: 0 <= r < rows && 0 <= c < cols ==> g[r][c] == Prior(r, scale)
  {
    seq(rows, r requires 0 <= r < rows => seq(cols, _ => Prior(r, scale)))
  }

  /** `priors_1`: every cell of column `c` holds the column prior. */
  function ColPriors(rows: nat, cols: nat, scale: real): (g: Grid)
    ensures IsGrid(g, rows, cols)
    ensures forall r, c :: 0 <= r < rows && 0 <= c < cols ==> g[r][c] == Prior(c, scale)
  {
    seq(rows, _ => seq(cols, c requires 0 <= c < cols => Prior(c, scale)))
  }

  /** A point type's three decoded channels, before flattening: confidence, x and y. */
  function PointMap(m: Map, off: nat, ch: nat, rows: nat, cols: nat, scale: real, act: Activations): (p: Map)
    requires IsMap(m, ch, rows, cols) && off + 3 <= ch
    ensures IsMap(p, 3, rows, cols)
  {
    [MapGrid(m[off], act.sigmoid),
     AddGrid(m[off + 1], ColPriors(rows, cols, scale), rows, cols),
     AddGrid(m[off + 2], RowPriors(rows, cols, scale), rows, cols)]
  }

  /** The point instance of cell (r, c) is `[sigmoid(ch0), ch1 + column prior, ch2 + row prior]`
      of the point's channel block at that cell, stored at index `c*rows + r`. */
  lemma PointAt(m: Map, off: nat, ch: nat, rows: nat, cols: nat, scale: real, act: Activations, r: nat, c: nat)
    requires IsMap(m, ch, rows, cols) && off + 3 <= ch && r < rows && c < cols
    ensures var l := InstanceList(PointMap(m, off, ch, rows, cols, scale, act), 3, rows, cols);
      && |l| == rows * cols
      && InstanceIndex(r, c, rows) < rows * cols
      && l[InstanceIndex(r, c, rows)] == [act.sigmoid(m[off][r][c]), m[off + 1][r][c] + Prior(c, scale), m[off + 2][r][c] + Prior(r, scale)]
  {
    InstanceAt(PointMap(m, off, ch, rows, cols, scale, act), 3, rows, cols, r, c);
  }

  /** The point instances of a whole batch. */
  function PointInstances(y: Tensor, off: nat, scale: real, act: Activations): (r: seq<seq<seq<real>>>)
    requires Shaped(y) && off + 3 <= y.ch
    ensures |r| == |y.data|
  {
    seq(|y.data|, b requires 0 <= b < |y.data| =>
      InstanceList(PointMap(y.data[b], off, y.ch, y.rows, y.cols, scale, act), 3, y.rows, y.cols))
  }
}
