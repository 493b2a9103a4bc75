/** Opaque layer descriptors: each carries only its channel signature and its shape parameters.
    Also the residual block and the conv+norm+ReLU group of model/yolo_box_detector.py. */
module Layers {
  import opened Wrappers

  /** The normalisation the `norm_type` option selects. */
  datatype Norm = BatchNorm | InstanceNorm | GroupNorm | WeightNorm | NoNorm

  /** `norm_type` as the anchor variant reads it: the four known names, anything else or nothing is no normalisation. */
  function NormNamed(name: Option<string>): (n: Norm)
    ensures n == BatchNorm <==> name == Some("batch_norm")
    ensures n == NoNorm <==> name !in {Some("batch_norm"), Some("instance_norm"), Some("group_norm"), Some("weight_norm")}
  {
    if name == Some("batch_norm") then BatchNorm
    else if name == Some("instance_norm") then InstanceNorm
    else if name == Some("group_norm") then GroupNorm
    else if name == Some("weight_norm") then WeightNorm
    else NoNorm
  }

  datatype Layer =
    | Conv2d(inCh: int, outCh: int, kernel: int, padding: int, dilation: int, weightNormed: bool)
    | BatchNorm2d(ch: int)
    | InstanceNorm2d(ch: int)
    | GroupNorm2d(groups: int, ch: int)
    | ReLU
    | NcReLU                              // [relu(x), -relu(-x)] along channels: doubles them
    | MaxPool2d                           // kernel 2, stride 2
    | AvgPool2d                           // kernel 2
    | ConvTranspose2d(inCh: int, outCh: int) // kernel 2, stride 2, no bias
    | ResBlock(inCh: int, outCh: int, transform: seq<Layer>, side: seq<Layer>)
    | Up(inCh: int, skipCh: int)          // bilinear 2x upsample, then concatenation with a skip map

  /** Channels after a non-block layer applied to `c` channels; None when the layer cannot take `c` channels.
      An up block yields its own channels plus the skip width its token declared. */
  function PrimOut(c: int, l: Layer): Option<int> {
    match l
    case Conv2d(i, o, _, _, _, _) => if c == i then Some(o) else None
    case BatchNorm2d(ch) => if c == ch then Some(c) else None
    case InstanceNorm2d(ch) => if c == ch then Some(c) else None
    case GroupNorm2d(_, ch) => if c == ch then Some(c) else None
    case ReLU => Some(c)
    case NcReLU => Some(2 * c)
    case MaxPool2d => Some(c)
    case AvgPool2d => Some(c)
    case ConvTranspose2d(i, o) => if c == i then Some(o) else None
    case ResBlock(_, _, _, _) => None
    case Up(i, s) => if c == i then Some(i + s) else None
  }

  /** Channels after a run of non-block layers. */
  function ChainPrims(c: int, ls: seq<Layer>): Option<int>
    decreases |ls|
  {
    if ls == [] then Some(c)
    else match PrimOut(c, ls[0])
      case None => None
      case Some(d) => ChainPrims(d, ls[1..])
  }

  /** Channels after one layer; a residual block computes `t + side(t)` with `t = transform(x)`,
      so its side must map the block's output width to itself. */
  function LayerOut(c: int, l: Layer): Option<int> {
    if l.ResBlock? then
      if c == l.inCh && ChainPrims(c, l.transform) == Some(l.outCh) && ChainPrims(l.outCh, l.side) == Some(l.outCh)
      then Some(l.outCh) else None
    else PrimOut(c, l)
  }

  /** Channels after a run of layers; None when some layer is wired to the wrong input width. */
  function ChainOut(c: int, ls: seq<Layer>): Option<int>
    decreases |ls|
  {
    if ls == [] then Some(c)
    else match LayerOut(c, ls[0])
      case None => None
      case Some(d) => ChainOut(d, ls[1..])
  }

  lemma {:induction false} ChainOutAppend(c: int, xs: seq<Layer>, ys: seq<Layer>)
    ensures ChainOut(c, xs + ys) == match ChainOut(c, xs) case None => None case Some(d) => ChainOut(d, ys)
    decreases |xs|
  {
    if xs == [] {
      assert xs + ys == ys;
    } else {
      assert (xs + ys)[0] == xs[0];
      assert (xs + ys)[1..] == xs[1..] + ys;
      match LayerOut(c, xs[0])
      case None =>
      case Some(d) => ChainOutAppend(d, xs[1..], ys);
    }
  }

  /** How many times `l` occurs in `ls`. */
  function Occurrences(l: Layer, ls: seq<Layer>): nat {
    if ls == [] then 0 else (if ls[0] == l then 1 else 0) + Occurrences(l, ls[1..])
  }

  lemma {:induction false} OccurrencesAppend(l: Layer, xs: seq<Layer>, ys: seq<Layer>)
    ensures Occurrences(l, xs + ys) == Occurrences(l, xs) + Occurrences(l, ys)
  {
    if xs == [] {
      assert xs + ys == ys;
    } else {
      assert (xs + ys)[1..] == xs[1..] + ys;
      OccurrencesAppend(l, xs[1..], ys);
    }
  }

  /** A layer that appears nowhere occurs zero times. */
  lemma {:induction false} OccurrencesAbsent(l: Layer, ls: seq<Layer>)
    requires forall j :: 0 <= j < |ls| ==> ls[j] != l
    ensures Occurrences(l, ls) == 0
  {
    if ls != [] {
      OccurrencesAbsent(l, ls[1..]);
    }
  }

  /** The normalisation layer(s) a block inserts for `norm` at `ch` channels; weight norm wraps the convolution instead. */
  function NormLayers(norm: Norm, ch: int): (r: seq<Layer>)
    ensures |r| <= 1 && ChainPrims(ch, r) == Some(ch) && Occurrences(ReLU, r) == 0
    ensures |r| == 1 <==> norm in {BatchNorm, InstanceNorm, GroupNorm}
  {
    match norm
    case BatchNorm => [BatchNorm2d(ch)]
    case InstanceNorm => [InstanceNorm2d(ch)]
    case GroupNorm => [GroupNorm2d(8, ch)]
    case WeightNorm => []
    case NoNorm => []
  }

  /** The output size torch gives a stride-1 convolution on a side of `size` pixels. */
  function ConvOutSize(size: int, kernel: int, padding: int, dilation: int): int {
    size + 2 * padding - dilation * (kernel - 1)
  }

  /** `convReLU`: a convolution with padding `dilation*(kernel//2)` followed by the configured
      normalisation and a ReLU. (`kernel / 2` with a positive divisor is Python's floor division.) */
  function ConvReLU(inCh: int, outCh: int, norm: Norm, dilation: int, kernel: int): (r: seq<Layer>)
    ensures 2 <= |r| <= 3 && r[|r| - 1] == ReLU
    ensures r[0].Conv2d? && r[0].inCh == inCh && r[0].outCh == outCh && r[0].kernel == kernel && r[0].dilation == dilation
    ensures r[0].weightNormed <==> norm == WeightNorm
    ensures r[1..|r| - 1] == NormLayers(norm, outCh)
    ensures r[0].padding == dilation * (kernel / 2)
    ensures ChainOut(inCh, r) == Some(outCh)
  {
    var conv := Conv2d(inCh, outCh, kernel, dilation * (kernel / 2), dilation, false);
    assert ChainOut(outCh, [ReLU]) == Some(outCh);
    assert [BatchNorm2d(outCh), ReLU][1..] == [ReLU];
    assert [InstanceNorm2d(outCh), ReLU][1..] == [ReLU];
    assert [GroupNorm2d(8, outCh), ReLU][1..] == [ReLU];
    if norm == BatchNorm then [conv, BatchNorm2d(outCh), ReLU]
    else if norm == InstanceNorm then [conv, InstanceNorm2d(outCh), ReLU]
    else if norm == GroupNorm then [conv, GroupNorm2d(8, outCh), ReLU]
    else if norm == WeightNorm then [conv.(weightNormed := true), ReLU]
    else [conv, ReLU]
  }

  /** The padding `convReLU` chooses keeps every odd kernel "same": the output side equals the input side. */
  lemma SamePadding(size: int, kernel: int, dilation: int)
    requires kernel % 2 == 1
    ensures ConvOutSize(size, kernel, dilation * (kernel / 2), dilation) == size
  {
    assert kernel - 1 == 2 * (kernel / 2);
    assert dilation * (kernel - 1) == 2 * (dilation * (kernel / 2));
  }

  /** What `nn.Conv2d(inCh, outCh, ...)` raises while it is built: its weight has the sizes `[outCh, inCh, k, k]`,
      and torch reports the first negative one. */
  function ConvRefusal(inCh: int, outCh: int): (r: Option<Error>)
    ensures r.None? <==> inCh >= 0 && outCh >= 0
  {
    if outCh < 0 then Some(NegativeDimension(outCh))
    else if inCh < 0 then Some(NegativeDimension(inCh))
    else None
  }

  /** What a block's normalisation layer raises while it is built for `ch` channels: group norm needs a multiple
      of its 8 groups, and the affine weight of batch and group norm a non-negative size. Instance norm (not
      affine) and weight norm build no tensor of that size. */
  function NormRefusal(norm: Norm, ch: int): (r: Option<Error>)
    ensures r.None? <==> !(norm == GroupNorm && ch % 8 != 0) && (norm in {BatchNorm, GroupNorm} ==> ch >= 0)
  {
    if norm == GroupNorm && ch % 8 != 0 then Some(GroupCount(ch))
    else if norm in {BatchNorm, GroupNorm} && ch < 0 then Some(NegativeDimension(ch))
    else None
  }

  /** What `ResBlock.__init__` raises before it has built anything usable: the ratio assertion, then the side's
      normalisation, which is built before its first convolution, then that convolution. */
  function ResBlockRefusal(inCh: int, outCh: int, norm: Norm): (r: Option<Error>)
    ensures r.None? <==> (inCh == outCh || outCh == 2 * inCh) && outCh >= 0 && !(norm == GroupNorm && outCh % 8 != 0)
    ensures r.Some? ==> r.value == (if inCh != outCh && outCh != 2 * inCh then ResBlockRatio(inCh, outCh)
                                    else if norm == GroupNorm && outCh % 8 != 0 then GroupCount(outCh)
                                    else NegativeDimension(outCh))
  {
    if inCh != outCh && outCh != 2 * inCh then Some(ResBlockRatio(inCh, outCh))
    else if NormRefusal(norm, outCh).Some? then NormRefusal(norm, outCh)
    else ConvRefusal(outCh, outCh)
  }

  /** `ResBlock.__init__`: a residual block, refused unless the output width equals the input width or doubles it,
      and refused where torch refuses one of its layers. A doubling block starts its transform with a concatenated
      ReLU and then leaves out the first ReLU of its side. */
  function MakeResBlock(inCh: int, outCh: int, dilation: int, norm: Norm, downsample: bool): (r: Result<Layer, Error>)
    ensures r.Ok? <==> (inCh == outCh || outCh == 2 * inCh) && outCh >= 0 && !(norm == GroupNorm && outCh % 8 != 0)
    ensures r.Err? ==> r.error == (if inCh != outCh && outCh != 2 * inCh then ResBlockRatio(inCh, outCh)
                                   else if norm == GroupNorm && outCh % 8 != 0 then GroupCount(outCh)
                                   else NegativeDimension(outCh))
    ensures r.Ok? ==> r.value.ResBlock? && r.value.inCh == inCh && r.value.outCh == outCh
    ensures r.Ok? ==> LayerOut(inCh, r.value) == Some(outCh)
    ensures r.Ok? ==> r.value.transform == (if inCh != outCh then [NcReLU] else []) + (if downsample then [AvgPool2d] else [])
    ensures r.Ok? ==> r.value.side == NormLayers(norm, outCh) + (if inCh == outCh then [ReLU] else [])
                                      + [Conv2d(outCh, outCh, 3, dilation, dilation, norm == WeightNorm)]
                                      + NormLayers(norm, outCh) + [ReLU, Conv2d(outCh, outCh, 3, 1, 1, norm == WeightNorm)]
    ensures r.Ok? ==> (inCh != outCh <==> |r.value.transform| > 0 && r.value.transform[0] == NcReLU)
    ensures r.Ok? ==> (downsample <==> AvgPool2d in r.value.transform)
    ensures r.Ok? ==> Occurrences(ReLU, r.value.side) == if inCh == outCh then 2 else 1
  {
    var refused := ResBlockRefusal(inCh, outCh, norm);
    if refused.Some? then Err(refused.value)
    else
      var transform := (if inCh != outCh then [NcReLU] else []) + (if downsample then [AvgPool2d] else []);
      var n := NormLayers(norm, outCh);
      var h0: seq<Layer> := if inCh == outCh then [ReLU] else [];
      var conv1 := Conv2d(outCh, outCh, 3, dilation, dilation, norm == WeightNorm);
      var conv2 := Conv2d(outCh, outCh, 3, 1, 1, norm == WeightNorm);
      var side := n + h0 + [conv1] + n + [ReLU, conv2];
      ResBlockFacts(inCh, outCh, downsample, transform, n, h0, conv1, conv2);
      Ok(ResBlock(inCh, outCh, transform, side))
  }

  lemma ResBlockFacts(inCh: int, outCh: int, downsample: bool, transform: seq<Layer>,
                      n: seq<Layer>, h0: seq<Layer>, conv1: Layer, conv2: Layer)
    requires inCh == outCh || outCh == 2 * inCh
    requires transform == (if inCh != outCh then [NcReLU] else []) + (if downsample then [AvgPool2d] else [])
    requires ChainPrims(outCh, n) == Some(outCh) && Occurrences(ReLU, n) == 0
    requires h0 == if inCh == outCh then [ReLU] else []
    requires conv1.Conv2d? && conv1.inCh == outCh && conv1.outCh == outCh
    requires conv2.Conv2d? && conv2.inCh == outCh && conv2.outCh == outCh
    ensures ChainPrims(inCh, transform) == Some(outCh)
    ensures ChainPrims(outCh, n + h0 + [conv1] + n + [ReLU, conv2]) == Some(outCh)
    ensures Occurrences(ReLU, n + h0 + [conv1] + n + [ReLU, conv2]) == if inCh == outCh then 2 else 1
  {
    ChainPrimsAppend(inCh, if inCh != outCh then [NcReLU] else [], if downsample then [AvgPool2d] else []);
    ChainPrimsAppend(outCh, n, h0);
    ChainPrimsAppend(outCh, n + h0, [conv1]);
    ChainPrimsAppend(outCh, n + h0 + [conv1], n);
    ChainPrimsAppend(outCh, n + h0 + [conv1] + n, [ReLU, conv2]);
    OccurrencesAppend(ReLU, n, h0);
    OccurrencesAppend(ReLU, n + h0, [conv1]);
    OccurrencesAppend(ReLU, n + h0 + [conv1], n);
    OccurrencesAppend(ReLU, n + h0 + [conv1] + n, [ReLU, conv2]);
    assert [conv1][1..] == [] && [conv2][1..] == [] && [ReLU, conv2][1..] == [conv2];
    assert Occurrences(ReLU, [conv1]) == 0 && Occurrences(ReLU, [conv2]) == 0;
    assert ChainPrims(outCh, [conv1]) == Some(outCh) && ChainPrims(outCh, [conv2]) == Some(outCh);
  }

  lemma {:induction false} ChainPrimsAppend(c: int, xs: seq<Layer>, ys: seq<Layer>)
    ensures ChainPrims(c, xs + ys) == match ChainPrims(c, xs) case None => None case Some(d) => ChainPrims(d, ys)
    decreases |xs|
  {
    if xs == [] {
      assert xs + ys == ys;
    } else {
      assert (xs + ys)[0] == xs[0];
      assert (xs + ys)[1..] == xs[1..] + ys;
      match PrimOut(c, xs[0])
      case None =>
      case Some(d) => ChainPrimsAppend(d, xs[1..], ys);
    }
  }
}
