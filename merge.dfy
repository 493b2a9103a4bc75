/** The shape arithmetic of `up.forward` (both model files): upsample the coarse map 2x, pad it by the
    floor/ceil halves of the size difference, and concatenate the skip map in front of it. */
module Merge {
  import opened Wrappers
  import opened Layers

  /** The shape of one batch element: channels, rows, columns. */
  datatype Shape = Shape(ch: nat, rows: nat, cols: nat)

  /** `diff // 2`: Python's floor division (Dafny's division by a positive divisor also floors). */
  function PadBefore(diff: int): int {
    diff / 2
  }

  /** `math.ceil(diff / 2)`. */
  function PadAfter(diff: int): int {
    (diff + 1) / 2
  }

  /** The two pads add up to the difference, the one after is the larger by at most one, and it is the
      ceiling of the half: the negated floor of the negated half. A negative difference crops. */
  lemma PadSplit(diff: int)
    ensures PadBefore(diff) + PadAfter(diff) == diff
    ensures 0 <= PadAfter(diff) - PadBefore(diff) <= 1
    ensures PadAfter(diff) == -((-diff) / 2)
    ensures PadBefore(diff) as real <= diff as real / 2.0 <= PadAfter(diff) as real
  {
  }

  /** One side of the padded, upsampled coarse map: `2*size` plus both pads. */
  function PaddedSide(coarse: nat, skip: nat): int {
    var diff := skip - 2 * coarse;
    2 * coarse + PadBefore(diff) + PadAfter(diff)
  }

  /** The shape that enters the block's trailing convolutions: `torch.cat([x2, x1], dim=1)` of the skip
      map `x2` and the upsampled, padded coarse map `x1`. The padding always makes the two maps agree in
      rows and columns, so the concatenation is defined, and its width is the sum of the two widths. */
  function Merged(coarse: Shape, skip: Shape): (r: Shape)
    ensures r.rows == skip.rows && r.cols == skip.cols
    ensures r.ch == skip.ch + coarse.ch
  {
    PadSplit(skip.rows - 2 * coarse.rows);
    PadSplit(skip.cols - 2 * coarse.cols);
    var rows := PaddedSide(coarse.rows, skip.rows);
    var cols := PaddedSide(coarse.cols, skip.cols);
    Shape(skip.ch + coarse.ch, rows, cols)
  }

  /** The `U+<n>` token traced the up block's output as `n` plus the coarse width; that is the width of the
      real concatenation exactly when the skip map has `n` channels. */
  lemma MergedMatchesTrace(coarse: Shape, skip: Shape, n: int)
    ensures PrimOut(coarse.ch, Up(coarse.ch, n)) == Some(n + coarse.ch)
    ensures Merged(coarse, skip).ch == n + coarse.ch <==> skip.ch == n
  {
  }

  /** A coarse map of 32 channels on 10x10 under a skip map of 16 channels on 21x21: the 20x20 upsampled
      map is padded by 0 before and 1 after on each side, and 48 channels enter the trailing convolutions. */
  lemma MergedExample()
    ensures PadBefore(21 - 2 * 10) == 0 && PadAfter(21 - 2 * 10) == 1
    ensures Merged(Shape(32, 10, 10), Shape(16, 21, 21)) == Shape(48, 21, 21)
  {
  }
}
