/** `YoloBoxDetector` of model/yolo_box_detector.py: the partition of the final convolution's channels into
    anchor, line and point blocks, the scale counted from the tokens, the per-anchor box decoding and its
    anchor-major flattening, the pairing short-circuit, and `setForPairing`. */
module YoloDetector {
  import opened Wrappers
  import opened Tokens
  import opened Layers
  import opened Stages
  import opened Compiler
  import opened YoloLayers
  import opened Tensors
  import opened Heads
  import opened Trunk

  // ---------------------------------------------------------------- channel layout

  /** `numBBParams + numBBTypes`: confidence, x, y, rotation, height, width, then one logit per box type. */
  function BoxWidth(numBBTypes: nat): nat {
    6 + numBBTypes
  }

  /** `numLineParams + numBBTypes`: confidence, x, y, rotation, scale, then one logit per box type. */
  function LineWidth(numBBTypes: nat): nat {
    5 + numBBTypes
  }

  /** `numOutBB + numOutLine + numOutPoint`, the width of the final convolution. */
  function NumOut(numBBTypes: nat, anchors: nat, lines: nat, points: nat): nat {
    (numBBTypes + 6) * anchors + (numBBTypes + 5) * lines + points * 3
  }

  function AnchorOffset(numBBTypes: nat, i: nat): nat {
    i * BoxWidth(numBBTypes)
  }

  function LineOffset(numBBTypes: nat, anchors: nat, i: nat): nat {
    i * LineWidth(numBBTypes) + anchors * BoxWidth(numBBTypes)
  }

  /** The point offset as the source computes it: it skips the anchor blocks but not the line blocks. */
  function PointOffsetAsWritten(numBBTypes: nat, anchors: nat, i: nat): nat {
    i * 3 + anchors * BoxWidth(numBBTypes)
  }

  /** The point offset that the width of the final convolution provides for: after the line blocks. */
  function PointOffset(numBBTypes: nat, anchors: nat, lines: nat, i: nat): nat {
    i * 3 + anchors * BoxWidth(numBBTypes) + lines * LineWidth(numBBTypes)
  }

  /** The block that owns a channel, and the channel's slot in it. */
  datatype Owner = BoxSlot(anchor: nat, slot: nat) | LineSlot(line: nat, slot: nat) | PointSlot(point: nat, slot: nat)

  function OwnerOf(numBBTypes: nat, anchors: nat, lines: nat, k: nat): Owner {
    var boxes := anchors * BoxWidth(numBBTypes);
    var lineEnd := boxes + lines * LineWidth(numBBTypes);
    if k < boxes then BoxSlot(k / BoxWidth(numBBTypes), k % BoxWidth(numBBTypes))
    else if k < lineEnd then LineSlot((k - boxes) / LineWidth(numBBTypes), (k - boxes) % LineWidth(numBBTypes))
    else PointSlot((k - lineEnd) / 3, (k - lineEnd) % 3)
  }

  lemma NumOutSplit(numBBTypes: nat, anchors: nat, lines: nat, points: nat)
    ensures NumOut(numBBTypes, anchors, lines, points)
         == anchors * BoxWidth(numBBTypes) + lines * LineWidth(numBBTypes) + points * 3
  {
  }

  /** Slot `s` of anchor `i`'s block lies inside the output and is owned by that anchor at that slot. */
  lemma BoxSlotOwned(numBBTypes: nat, anchors: nat, lines: nat, points: nat, i: nat, s: nat)
    requires i < anchors && s < BoxWidth(numBBTypes)
    ensures AnchorOffset(numBBTypes, i) + s < NumOut(numBBTypes, anchors, lines, points)
    ensures OwnerOf(numBBTypes, anchors, lines, AnchorOffset(numBBTypes, i) + s) == BoxSlot(i, s)
  {
    var w := BoxWidth(numBBTypes);
    MulMono(i + 1, anchors, w);
    DivModUnique(i * w + s, w, i, s);
  }

  /** Slot `s` of line `i`'s block lies after every anchor block, inside the output, and is owned by that line. */
  lemma LineSlotOwned(numBBTypes: nat, anchors: nat, lines: nat, points: nat, i: nat, s: nat)
    requires i < lines && s < LineWidth(numBBTypes)
    ensures anchors * BoxWidth(numBBTypes) <= LineOffset(numBBTypes, anchors, i) + s < NumOut(numBBTypes, anchors, lines, points)
    ensures OwnerOf(numBBTypes, anchors, lines, LineOffset(numBBTypes, anchors, i) + s) == LineSlot(i, s)
  {
    var w := LineWidth(numBBTypes);
    MulMono(i + 1, lines, w);
    DivModUnique(i * w + s, w, i, s);
  }

  /** Slot `s` of point `i`'s block, placed after the line blocks, lies inside the output and is owned by that point. */
  lemma PointSlotOwned(numBBTypes: nat, anchors: nat, lines: nat, points: nat, i: nat, s: nat)
    requires i < points && s < 3
    ensures anchors * BoxWidth(numBBTypes) + lines * LineWidth(numBBTypes) <= PointOffset(numBBTypes, anchors, lines, i) + s
    ensures PointOffset(numBBTypes, anchors, lines, i) + s < NumOut(numBBTypes, anchors, lines, points)
    ensures OwnerOf(numBBTypes, anchors, lines, PointOffset(numBBTypes, anchors, lines, i) + s) == PointSlot(i, s)
  {
    DivModUnique(i * 3 + s, 3, i, s);
  }

  /** Every output channel belongs to an existing anchor, line or point block at its own slot: with the
      three lemmas above, the blocks partition `[0, numOut)`. */
  lemma BlocksCover(numBBTypes: nat, anchors: nat, lines: nat, points: nat, k: nat)
    requires k < NumOut(numBBTypes, anchors, lines, points)
    ensures match OwnerOf(numBBTypes, anchors, lines, k)
      case BoxSlot(i, s) => i < anchors && s < BoxWidth(numBBTypes) && AnchorOffset(numBBTypes, i) + s == k
      case LineSlot(i, s) => i < lines && s < LineWidth(numBBTypes) && LineOffset(numBBTypes, anchors, i) + s == k
      case PointSlot(i, s) => i < points && s < 3 && PointOffset(numBBTypes, anchors, lines, i) + s == k
  {
    var boxes := anchors * BoxWidth(numBBTypes);
    var lineEnd := boxes + lines * LineWidth(numBBTypes);
    if k < boxes {
      SlotOf(k, BoxWidth(numBBTypes), anchors);
    } else if k < lineEnd {
      SlotOf(k - boxes, LineWidth(numBBTypes), lines);
    } else {
      NumOutSplit(numBBTypes, anchors, lines, points);
      SlotOf(k - lineEnd, 3, points);
    }
  }

  /** Position `j` of `count` blocks of width `w` is slot `j % w` of block `j / w`. */
  lemma SlotOf(j: nat, w: nat, count: nat)
    requires w > 0 && j < count * w
    ensures j / w < count && j % w < w && (j / w) * w + j % w == j
  {
    MulLtCancel(j / w, count, w);
  }

  /** As written, the first point block starts on the first line block's confidence channel whenever there
      is a line type: the point decoder reads line channels, and the last `lines*(5+numBBTypes)` channels
      are never read as points. */
  lemma PointOverlapsLine(numBBTypes: nat, anchors: nat, lines: nat, points: nat)
    requires lines > 0 && points > 0
    ensures PointOffsetAsWritten(numBBTypes, anchors, 0) == LineOffset(numBBTypes, anchors, 0)
    ensures OwnerOf(numBBTypes, anchors, lines, PointOffsetAsWritten(numBBTypes, anchors, 0)) == LineSlot(0, 0)
    ensures PointOffsetAsWritten(numBBTypes, anchors, points - 1) + 3 < NumOut(numBBTypes, anchors, lines, points)
  {
    LineSlotOwned(numBBTypes, anchors, lines, points, 0, 0);
  }

  /** Without line types the written offset and the corrected one agree. */
  lemma PointOffsetWithoutLines(numBBTypes: nat, anchors: nat, i: nat)
    ensures PointOffsetAsWritten(numBBTypes, anchors, i) == PointOffset(numBBTypes, anchors, 0, i)
  {
  }

  // ---------------------------------------------------------------- scale

  /** What one token does to the exponent of the scale: 'M' and tokens starting with 'D' double it,
      other tokens starting with 'U' (the `U+` ones included) halve it. The empty string has no first
      character and is not given a shift. */
  function Shift(t: Token): int {
    if t == Str("M") then 1
    else if t.Str? && |t.s| > 0 && t.s[0] == 'D' then 1
    else if t.Str? && |t.s| > 0 && t.s[0] == 'U' then -1
    else 0
  }

  function Exponent(ts: seq<Token>): int {
    if ts == [] then 0 else Shift(ts[0]) + Exponent(ts[1..])
  }

  lemma {:induction false} ExponentSnoc(ts: seq<Token>, t: Token)
    ensures Exponent(ts + [t]) == Exponent(ts) + Shift(t)
  {
    if ts != [] {
      assert (ts + [t])[1..] == ts[1..] + [t];
      ExponentSnoc(ts[1..], t);
    }
  }

  /** The scale the source ends with, or the failure of `a[0]` on an empty token. */
  function ScaleOf(cfg: seq<Token>): Result<real, Error> {
    if Str("") in cfg then Err(EmptyToken) else Ok(Pow2(Exponent(cfg)))
  }

  /** `self.scale=1`, then for each token: double on 'M' or a 'D' token, halve on a 'U' token. */
  method CountScale(cfg: seq<Token>) returns (r: Result<real, Error>)
    ensures r == ScaleOf(cfg)
  {
    var scale := 1.0;
    for i := 0 to |cfg|
      invariant scale == Pow2(Exponent(cfg[..i]))
      invariant Str("") !in cfg[..i]
    {
      assert cfg[..i + 1] == cfg[..i] + [cfg[i]];
      ExponentSnoc(cfg[..i], cfg[i]);
      var a := cfg[i];
      if a == Str("M") {
        Pow2Succ(Exponent(cfg[..i]));
        scale := scale * 2.0;
      } else if a.Str? {
        if |a.s| == 0 {
          assert cfg[i] in cfg;
          return Err(EmptyToken);
        }
        if a.s[0] == 'D' {
          Pow2Succ(Exponent(cfg[..i]));
          scale := scale * 2.0;
        } else if a.s[0] == 'U' {
          Pow2Succ(Exponent(cfg[..i]) - 1);
          scale := scale / 2.0;
        }
      }
    }
    assert cfg[..|cfg|] == cfg;
    r := Ok(scale);
  }

  /** The shift of a token `make_layers` accepts follows what it builds: a max pool or a downsampling
      residual block doubles the stride, an up block or a transpose convolution halves it, and every other
      instruction keeps it. */
  lemma ShiftFollowsInstr(t: Token)
    requires Parse(t).Ok?
    ensures Shift(t) == match Parse(t).value
      case Pool => 1
      case DownRes(_) => 1
      case UpSkip(_) => -1
      case Transposed(_) => -1
      case _ => 0
  {
    if t.Str? && t.s != "M" && t.s != "ReLU" && !HasPrefix(t.s, "U+") {
      assert |t.s| > 0;
      if t.s[0] in "RCDUW" {
        assert Parse(t) == Lettered(t.s);
      } else if t.s[0] in "kdB" {
        assert Parse(t) == Paired(t.s);
      }
    }
  }

  lemma {:induction false} ExponentAppend(xs: seq<Token>, ys: seq<Token>)
    ensures Exponent(xs + ys) == Exponent(xs) + Exponent(ys)
  {
    if xs == [] {
      assert xs + ys == ys;
    } else {
      assert (xs + ys)[0] == xs[0] && (xs + ys)[1..] == xs[1..] + ys;
      ExponentAppend(xs[1..], ys);
    }
  }

  /** The default down configuration: four pools, a stride of 16. */
  lemma DefaultScale(inCh: int)
    ensures ScaleOf(DefaultDown(inCh)) == Ok(16.0)
  {
    var a, b, c := [Int(inCh), Int(64), Str("M")], [Int(128), Str("M")], [Int(256), Int(256), Str("M")];
    var d, e := [Int(512), Int(512), Str("M")], [Int(512), Int(512)];
    assert DefaultDown(inCh) == a + b + c + d + e;
    ExponentAppend(a, b);
    ExponentAppend(a + b, c);
    ExponentAppend(a + b + c, d);
    ExponentAppend(a + b + c + d, e);
    assert Str("") !in DefaultDown(inCh);
    Pow2Succ(0);
    Pow2Succ(1);
    Pow2Succ(2);
    Pow2Succ(3);
  }

  // ---------------------------------------------------------------- configuration and construction

  /** One anchor of the anchors file: `{rot, height, width}`. */
  datatype Anchor = Anchor(rot: real, height: real, width: real)

  /** The configuration keys the detector reads; an absent key is `None`. The anchors file is given read. */
  datatype Config = Config(
    rotation: Option<bool>, boxTypes: nat, pointTypes: Option<nat>, pixelTypes: Option<nat>, lineTypes: Option<nat>,
    anchors: seq<Anchor>, color: Option<bool>, normType: Option<string>, dilation: Option<int>,
    downCfg: Option<seq<Token>>, upCfg: Option<seq<Token>>)

  /** `[in_ch,64,'M',128,'M',256,256,'M',512,512,'M',512,512]`. */
  function DefaultDown(inCh: int): seq<Token> {
    [Int(inCh), Int(64), Str("M"), Int(128), Str("M"), Int(256), Int(256), Str("M"),
     Int(512), Int(512), Str("M"), Int(512), Int(512)]
  }

  /** `[512,'U+512',256,'U+256',128,'U+128',64,'U+64']`. */
  function DefaultUp(): seq<Token> {
    [Int(512), Str("U+512"), Int(256), Str("U+256"), Int(128), Str("U+128"), Int(64), Str("U+64")]
  }

  function Or<T>(o: Option<T>, d: T): T {
    if o.Some? then o.value else d
  }

  function NormOf(config: Config): Norm {
    NormNamed(config.normType)
  }

  function DilationOf(config: Config): int {
    Or(config.dilation, 1)
  }

  /** Three input channels unless `color` is present and false. */
  function InChannels(config: Config): int {
    if Or(config.color, true) then 3 else 1
  }

  function DownConfig(config: Config): seq<Token> {
    Or(config.downCfg, DefaultDown(InChannels(config)))
  }

  function UpConfig(config: Config): seq<Token> {
    Or(config.upCfg, DefaultUp())
  }

  function PixelTypes(config: Config): nat {
    Or(config.pixelTypes, 0)
  }

  function NumOutOf(config: Config): nat {
    NumOut(config.boxTypes, |config.anchors|, Or(config.lineTypes, 0), Or(config.pointTypes, 0))
  }

  /** `meanH`: half the mean box height for the rotated or the axis-aligned data. */
  function MeanH(rotation: bool): real {
    if rotation then 48.0046359128 / 2.0 else 62.1242376857 / 2.0
  }

  /** The 1x1 convolution that ends a path. */
  function HeadConv(inCh: int, outCh: int): Layer {
    Conv2d(inCh, outCh, 1, 0, 1, false)
  }

  /** What `__init__` builds and counts. */
  datatype Net = Net(down: seq<Module>, up: Option<UpPath>, scale: real, numOut: nat, lastChannels: int)

  /** The up path, built with dilation 1 when there are pixel types. */
  function UpOf(config: Config): Result<Option<UpPath>, Error> {
    ReaderSound(1, NormOf(config));
    if PixelTypes(config) > 0 then
      var u :- Compile(TokenReader(1, NormOf(config)), UpConfig(config));
      Ok(Some(UpPath(u.stages, HeadConv(u.outCh, PixelTypes(config)))))
    else Ok(None)
  }

  function Network(config: Config): Result<Net, Error> {
    ReaderSound(DilationOf(config), NormOf(config));
    var down :- Compile(TokenReader(DilationOf(config), NormOf(config)), DownConfig(config));
    var scale :- ScaleOf(DownConfig(config));
    var up :- UpOf(config);
    Ok(Net(AsModules(down.stages) + [Head(HeadConv(down.outCh, NumOutOf(config)))], up, scale, NumOutOf(config), down.outCh))
  }

  /** The network is built exactly when the down configuration compiles (an empty token has failed there
      already, so the scale loop never fails after it) and, with pixel types, the up configuration compiles
      with dilation 1; the down path ends in a 1x1 convolution to `numOut` channels, and the scale is two
      to the power of the token shifts. */
  lemma NetworkShape(config: Config)
    ensures var down := Compile(TokenReader(DilationOf(config), NormOf(config)), DownConfig(config));
            var upc := Compile(TokenReader(1, NormOf(config)), UpConfig(config));
            var n := Network(config);
      && (n.Ok? <==> down.Ok? && (PixelTypes(config) > 0 ==> upc.Ok?))
      && (n.Ok? ==>
           && |n.value.down| == |down.value.stages| + 1
           && n.value.down[|down.value.stages|] == Head(Conv2d(down.value.outCh, NumOutOf(config), 1, 0, 1, false))
           && (n.value.up.Some? <==> PixelTypes(config) > 0)
           && n.value.scale == Pow2(Exponent(DownConfig(config))))
  {
    ReaderSound(DilationOf(config), NormOf(config));
    ReaderSound(1, NormOf(config));
    var down := Compile(TokenReader(DilationOf(config), NormOf(config)), DownConfig(config));
    var upc := Compile(TokenReader(1, NormOf(config)), UpConfig(config));
    var up := UpOf(config);
    assert up.Ok? <==> (PixelTypes(config) > 0 ==> upc.Ok?);
    assert up.Ok? ==> (up.value.Some? <==> PixelTypes(config) > 0);
    if down.Ok? {
      CompiledHasNoEmptyToken(DilationOf(config), NormOf(config), DownConfig(config));
      var scale := Pow2(Exponent(DownConfig(config)));
      assert ScaleOf(DownConfig(config)) == Ok(scale);
      if up.Ok? {
        var ms := AsModules(down.value.stages) + [Head(HeadConv(down.value.outCh, NumOutOf(config)))];
        assert Network(config) == Ok(Net(ms, up.value, scale, NumOutOf(config), down.value.outCh));
        assert ms[|down.value.stages|] == Head(HeadConv(down.value.outCh, NumOutOf(config)));
      }
    }
  }

  /** A configuration that compiles holds no empty token. */
  lemma CompiledHasNoEmptyToken(dilation: int, norm: Norm, cfg: seq<Token>)
    requires Sound(TokenReader(dilation, norm)) && Compile(TokenReader(dilation, norm), cfg).Ok?
    ensures Str("") !in cfg
  {
    var read := TokenReader(dilation, norm);
    CompileCorrect(read, cfg);
    ExpandRejectsEmpty(dilation, norm, cfg[0].n, cfg[1..]);
    assert cfg == [cfg[0]] + cfg[1..];
  }

  /** The empty token is refused whatever the current width. */
  lemma EmptyRejected(c: int, dilation: int, norm: Norm)
    ensures TokenReader(dilation, norm)(Str(""), c).Err?
  {
    assert TokenReader(dilation, norm)(Str(""), c) == Decode(Str(""), c, dilation, norm);
    assert Parse(Str("")) == Err(EmptyToken);
  }

  lemma {:induction false} ExpandRejectsEmpty(dilation: int, norm: Norm, c: int, ts: seq<Token>)
    requires Sound(TokenReader(dilation, norm)) && Expand(TokenReader(dilation, norm), c, ts).Ok?
    ensures Str("") !in ts
    decreases |ts|
  {
    var read := TokenReader(dilation, norm);
    if ts != [] {
      ExpandStep(read, c, ts);
      EmptyRejected(c, dilation, norm);
      assert ts[0] != Str("");
      var a := read(ts[0], c).value;
      ExpandRejectsEmpty(dilation, norm, ActionOut(a, c), ts[1..]);
      assert ts == [ts[0]] + ts[1..];
    }
  }

  // ---------------------------------------------------------------- boxes

  /** How channel `k` of an anchor block decodes the raw value `x` of cell (r, c): confidence through the
      logistic function; x and y as a tanh offset of up to one stride around the cell-centre prior; the
      rotation as the anchor's, plus a tanh offset of up to a quarter turn when rotation is predicted;
      height and width as the anchor's scaled by `exp`; the class logits as they are. */
  function BoxValue(k: nat, x: real, r: nat, c: nat, scale: real, rotation: bool, anchor: Anchor, act: Activations): real {
    if k == 0 then act.sigmoid(x)
    else if k == 1 then act.tanh(x) * scale + Prior(c, scale)
    else if k == 2 then act.tanh(x) * scale + Prior(r, scale)
    else if k == 3 then (if rotation then act.pi / 2.0 * act.tanh(x) else 0.0) + anchor.rot
    else if k == 4 then act.exp(x) * anchor.height
    else if k == 5 then act.exp(x) * anchor.width
    else x
  }

  /** Anchor `a`'s decoded channels, `torch.cat(stackedPred, dim=1)` for one batch element. */
  function AnchorMap(m: Map, off: nat, ch: nat, rows: nat, cols: nat, numBBTypes: nat, scale: real,
                     rotation: bool, anchor: Anchor, act: Activations): (p: Map)
    requires IsMap(m, ch, rows, cols) && off + BoxWidth(numBBTypes) <= ch
    ensures IsMap(p, BoxWidth(numBBTypes), rows, cols)
  {
    seq(BoxWidth(numBBTypes), k requires 0 <= k < BoxWidth(numBBTypes) =>
      seq(rows, i requires 0 <= i < rows => seq(cols, j requires 0 <= j < cols =>
        BoxValue(k, m[off + k][i][j], i, j, scale, rotation, anchor, act))))
  }

  /** What the box of one cell holds for an anchor, channel by channel. */
  function BoxAt(m: Map, off: nat, ch: nat, rows: nat, cols: nat, numBBTypes: nat, scale: real,
                 rotation: bool, anchor: Anchor, act: Activations, r: nat, c: nat): (v: seq<real>)
    requires IsMap(m, ch, rows, cols) && off + BoxWidth(numBBTypes) <= ch && r < rows && c < cols
    ensures |v| == BoxWidth(numBBTypes)
  {
    seq(BoxWidth(numBBTypes), k requires 0 <= k < BoxWidth(numBBTypes) =>
      BoxValue(k, m[off + k][r][c], r, c, scale, rotation, anchor, act))
  }

  /** Reading the decoded map of an anchor at a cell gives the box of that cell. */
  lemma AnchorMapAt(m: Map, off: nat, ch: nat, rows: nat, cols: nat, numBBTypes: nat, scale: real,
                    rotation: bool, anchor: Anchor, act: Activations, r: nat, c: nat)
    requires IsMap(m, ch, rows, cols) && off + BoxWidth(numBBTypes) <= ch && r < rows && c < cols
    ensures var p := AnchorMap(m, off, ch, rows, cols, numBBTypes, scale, rotation, anchor, act);
      seq(BoxWidth(numBBTypes), k requires 0 <= k < BoxWidth(numBBTypes) => p[k][r][c])
        == BoxAt(m, off, ch, rows, cols, numBBTypes, scale, rotation, anchor, act, r, c)
  {
  }

  /** Anchor `a`'s decoded map for every batch element: one entry of `pred_boxes`. */
  function AnchorBatch(y: Tensor, a: nat, numBBTypes: nat, scale: real, rotation: bool, anchor: Anchor,
                       act: Activations): (r: seq<Map>)
    requires Shaped(y) && AnchorOffset(numBBTypes, a) + BoxWidth(numBBTypes) <= y.ch
    ensures |r| == |y.data| && forall b :: 0 <= b < |r| ==> IsMap(r[b], BoxWidth(numBBTypes), y.rows, y.cols)
  {
    seq(|y.data|, b requires 0 <= b < |y.data| =>
      AnchorMap(y.data[b], AnchorOffset(numBBTypes, a), y.ch, y.rows, y.cols, numBBTypes, scale, rotation, anchor, act))
  }

  /** Every anchor block fits below the end of the anchor blocks. */
  lemma AnchorBounds(numBBTypes: nat, anchors: nat)
    ensures forall a :: 0 <= a < anchors ==> AnchorOffset(numBBTypes, a) + BoxWidth(numBBTypes) <= anchors * BoxWidth(numBBTypes)
  {
    forall a | 0 <= a < anchors
      ensures AnchorOffset(numBBTypes, a) + BoxWidth(numBBTypes) <= anchors * BoxWidth(numBBTypes)
    {
      MulMono(a + 1, anchors, BoxWidth(numBBTypes));
    }
  }

  /** `pred_boxes`: every anchor's decoded maps, in anchor order. */
  function AnchorBatches(y: Tensor, numBBTypes: nat, scale: real, rotation: bool, anchors: seq<Anchor>,
                         act: Activations): (r: seq<seq<Map>>)
    requires Shaped(y) && |anchors| * BoxWidth(numBBTypes) <= y.ch
    ensures |r| == |anchors| && forall a :: 0 <= a < |r| ==> |r[a]| == |y.data|
    ensures forall a, b :: 0 <= a < |r| && 0 <= b < |y.data| ==> IsMap(r[a][b], BoxWidth(numBBTypes), y.rows, y.cols)
  {
    AnchorBounds(numBBTypes, |anchors|);
    seq(|anchors|, a requires 0 <= a < |anchors| => AnchorBatch(y, a, numBBTypes, scale, rotation, anchors[a], act))
  }

  /** `torch.stack(pred_boxes, dim=1)` flattened anchor-major per batch element: `perAnchor[a][b]` is anchor
      `a`'s decoded map of batch element `b`. */
  function StackedBoxes(perAnchor: seq<seq<Map>>, batch: nat, w: nat, rows: nat, cols: nat): seq<seq<seq<real>>>
    requires forall a :: 0 <= a < |perAnchor| ==> |perAnchor[a]| == batch
    requires forall a, b :: 0 <= a < |perAnchor| && 0 <= b < batch ==> IsMap(perAnchor[a][b], w, rows, cols)
  {
    seq(batch, b requires 0 <= b < batch =>
      AnchorMajor(seq(|perAnchor|, a requires 0 <= a < |perAnchor| => perAnchor[a][b]), w, rows, cols))
  }

  /** `bbPredictions`: for batch element `b`, anchor `a`'s box of cell (r, c) is instance
      `a*rows*cols + c*rows + r`, it is decoded from anchor `a`'s own channel block, and there are
      `anchors*rows*cols` instances. */
  lemma BoxPredictionAt(y: Tensor, numBBTypes: nat, scale: real, rotation: bool, anchors: seq<Anchor>,
                        act: Activations, b: nat, a: nat, r: nat, c: nat)
    requires Shaped(y) && |anchors| * BoxWidth(numBBTypes) <= y.ch
    requires b < |y.data| && a < |anchors| && r < y.rows && c < y.cols
    ensures var l := StackedBoxes(AnchorBatches(y, numBBTypes, scale, rotation, anchors, act), |y.data|,
                                  BoxWidth(numBBTypes), y.rows, y.cols)[b];
      && |l| == |anchors| * (y.rows * y.cols)
      && 0 <= a * (y.rows * y.cols) && a * (y.rows * y.cols) + InstanceIndex(r, c, y.rows) < |l|
      && AnchorOffset(numBBTypes, a) + BoxWidth(numBBTypes) <= y.ch
      && l[a * (y.rows * y.cols) + InstanceIndex(r, c, y.rows)]
           == BoxAt(y.data[b], AnchorOffset(numBBTypes, a), y.ch, y.rows, y.cols, numBBTypes, scale, rotation, anchors[a], act, r, c)
  {
    var w := BoxWidth(numBBTypes);
    var o := AnchorOffset(numBBTypes, a);
    MulMono(0, y.rows, y.cols);
    MulMono(0, a, y.rows * y.cols);
    var per := AnchorBatches(y, numBBTypes, scale, rotation, anchors, act);
    assert o + w <= y.ch by { AnchorBounds(numBBTypes, |anchors|); }
    var p := AnchorMap(y.data[b], o, y.ch, y.rows, y.cols, numBBTypes, scale, rotation, anchors[a], act);
    assert per[a][b] == p;
    StackedBoxesAt(per, |y.data|, w, y.rows, y.cols, b, a, r, c);
    assert seq(w, k requires 0 <= k < w => per[a][b][k][r][c]) == seq(w, k requires 0 <= k < w => p[k][r][c]);
    assert seq(w, k requires 0 <= k < w => p[k][r][c])
        == BoxAt(y.data[b], o, y.ch, y.rows, y.cols, numBBTypes, scale, rotation, anchors[a], act, r, c) by {
      AnchorMapAt(y.data[b], o, y.ch, y.rows, y.cols, numBBTypes, scale, rotation, anchors[a], act, r, c);
    }
  }

  /** After stacking, anchor `a`'s value of cell (r, c) in batch element `b` is instance
      `a*rows*cols + c*rows + r` of that batch element. */
  lemma StackedBoxesAt(perAnchor: seq<seq<Map>>, batch: nat, w: nat, rows: nat, cols: nat, b: nat, a: nat, r: nat, c: nat)
    requires forall x :: 0 <= x < |perAnchor| ==> |perAnchor[x]| == batch
    requires forall x, y :: 0 <= x < |perAnchor| && 0 <= y < batch ==> IsMap(perAnchor[x][y], w, rows, cols)
    requires b < batch && a < |perAnchor| && r < rows && c < cols
    ensures var l := StackedBoxes(perAnchor, batch, w, rows, cols)[b];
      && |l| == |perAnchor| * (rows * cols)
      && a * (rows * cols) + InstanceIndex(r, c, rows) < |l|
      && l[a * (rows * cols) + InstanceIndex(r, c, rows)] == seq(w, k requires 0 <= k < w => perAnchor[a][b][k][r][c])
  {
    var ms := seq(|perAnchor|, x requires 0 <= x < |perAnchor| => perAnchor[x][b]);
    assert StackedBoxes(perAnchor, batch, w, rows, cols)[b] == AnchorMajor(ms, w, rows, cols);
    AnchorMajorAt(ms, w, rows, cols, a, r, c);
  }

  /** With the activations giving their textbook values at zero, a raw output of zero decodes to the anchor
      itself at the cell centre with confidence one half. */
  lemma ZeroOutputIsAnchor(m: Map, off: nat, ch: nat, rows: nat, cols: nat, scale: real,
                           rotation: bool, anchor: Anchor, act: Activations, r: nat, c: nat)
    requires IsMap(m, ch, rows, cols) && off + 6 <= ch && r < rows && c < cols
    requires forall k :: off <= k < off + 6 ==> m[k][r][c] == 0.0
    requires act.sigmoid(0.0) == 0.5 && act.tanh(0.0) == 0.0 && act.exp(0.0) == 1.0
    ensures BoxAt(m, off, ch, rows, cols, 0, scale, rotation, anchor, act, r, c)
         == [0.5, Prior(c, scale), Prior(r, scale), anchor.rot, anchor.height, anchor.width]
  {
    var v := BoxAt(m, off, ch, rows, cols, 0, scale, rotation, anchor, act, r, c);
    assert v[0] == BoxValue(0, m[off][r][c], r, c, scale, rotation, anchor, act) == 0.5;
    assert v[1] == BoxValue(1, m[off + 1][r][c], r, c, scale, rotation, anchor, act) == Prior(c, scale);
    assert v[2] == BoxValue(2, m[off + 2][r][c], r, c, scale, rotation, anchor, act) == Prior(r, scale);
    assert v[3] == BoxValue(3, m[off + 3][r][c], r, c, scale, rotation, anchor, act) == anchor.rot;
    assert v[4] == BoxValue(4, m[off + 4][r][c], r, c, scale, rotation, anchor, act) == anchor.height;
    assert v[5] == BoxValue(5, m[off + 5][r][c], r, c, scale, rotation, anchor, act) == anchor.width;
  }

  /** The decoded confidence of a box lies in [0, 1] when the logistic function does. */
  lemma BoxConfidenceInUnit(m: Map, off: nat, ch: nat, rows: nat, cols: nat, numBBTypes: nat, scale: real,
                            rotation: bool, anchor: Anchor, act: Activations, r: nat, c: nat)
    requires IsMap(m, ch, rows, cols) && off + BoxWidth(numBBTypes) <= ch && r < rows && c < cols
    requires SigmoidInUnit(act)
    ensures 0.0 <= BoxAt(m, off, ch, rows, cols, numBBTypes, scale, rotation, anchor, act, r, c)[0] <= 1.0
  {
    var x := m[off][r][c];
    assert BoxAt(m, off, ch, rows, cols, numBBTypes, scale, rotation, anchor, act, r, c)[0]
        == BoxValue(0, x, r, c, scale, rotation, anchor, act) == act.sigmoid(x);
    assert 0.0 <= act.sigmoid(x) <= 1.0;
  }

  /** `pred_offsets`: each anchor's raw channel block, `y[:, a*(6+numBBTypes) : (a+1)*(6+numBBTypes)]`. */
  function OffsetSlices(y: Tensor, numBBTypes: nat, anchors: nat): (r: seq<Tensor>)
    requires Shaped(y) && anchors * BoxWidth(numBBTypes) <= y.ch
    ensures |r| == anchors
    ensures forall a :: 0 <= a < anchors ==> |r[a].data| == |y.data|
    ensures forall a, b :: 0 <= a < anchors && 0 <= b < |y.data| ==> IsMap(r[a].data[b], BoxWidth(numBBTypes), y.rows, y.cols)
    ensures forall a :: 0 <= a < anchors ==> AnchorOffset(numBBTypes, a) + BoxWidth(numBBTypes) <= anchors * BoxWidth(numBBTypes)
    ensures forall a :: 0 <= a < anchors ==>
      r[a] == Channels(y, AnchorOffset(numBBTypes, a), AnchorOffset(numBBTypes, a) + BoxWidth(numBBTypes))
  {
    AnchorBounds(numBBTypes, anchors);
    seq(anchors, a requires 0 <= a < anchors =>
      Channels(y, AnchorOffset(numBBTypes, a), AnchorOffset(numBBTypes, a) + BoxWidth(numBBTypes)))
  }

  /** `offsetPredictions.permute(0,1,3,4,2)`: `[batch][anchor][row][col][channel]`, every value kept. */
  function StackedOffsets(slices: seq<Tensor>, batch: nat, w: nat, rows: nat, cols: nat): (r: seq<seq<seq<seq<seq<real>>>>>)
    requires forall a :: 0 <= a < |slices| ==> |slices[a].data| == batch
    requires forall a, b :: 0 <= a < |slices| && 0 <= b < batch ==> IsMap(slices[a].data[b], w, rows, cols)
    ensures |r| == batch && forall b :: 0 <= b < batch ==> |r[b]| == |slices|
    ensures forall b, a :: 0 <= b < batch && 0 <= a < |slices| ==> r[b][a] == Permuted(slices[a].data[b], w, rows, cols)
  {
    seq(batch, b requires 0 <= b < batch =>
      seq(|slices|, a requires 0 <= a < |slices| => Permuted(slices[a].data[b], w, rows, cols)))
  }

  // ---------------------------------------------------------------- lines

  /** How channel `k` of a line block decodes the raw value `x` of cell (r, c): confidence through the
      logistic function, x and y as for boxes, the rotation as a tanh offset of up to half a turn, the
      half-height as `exp` of the value times the fixed mean, the class logits as they are. */
  function LineValue(k: nat, x: real, r: nat, c: nat, scale: real, meanH: real, act: Activations): real {
    if k == 0 then act.sigmoid(x)
    else if k == 1 then act.tanh(x) * scale + Prior(c, scale)
    else if k == 2 then act.tanh(x) * scale + Prior(r, scale)
    else if k == 3 then act.pi * act.tanh(x)
    else if k == 4 then act.exp(x) * meanH
    else x
  }

  /** A line type's decoded channels for one batch element. */
  function LineMap(m: Map, off: nat, ch: nat, rows: nat, cols: nat, numBBTypes: nat, scale: real,
                   meanH: real, act: Activations): (p: Map)
    requires IsMap(m, ch, rows, cols) && off + LineWidth(numBBTypes) <= ch
    ensures IsMap(p, LineWidth(numBBTypes), rows, cols)
  {
    seq(LineWidth(numBBTypes), k requires 0 <= k < LineWidth(numBBTypes) =>
      seq(rows, i requires 0 <= i < rows => seq(cols, j requires 0 <= j < cols =>
        LineValue(k, m[off + k][i][j], i, j, scale, meanH, act))))
  }

  /** What the line of one cell holds, channel by channel. */
  function LineCell(m: Map, off: nat, ch: nat, rows: nat, cols: nat, numBBTypes: nat, scale: real,
                    meanH: real, act: Activations, r: nat, c: nat): (v: seq<real>)
    requires IsMap(m, ch, rows, cols) && off + LineWidth(numBBTypes) <= ch && r < rows && c < cols
    ensures |v| == LineWidth(numBBTypes)
  {
    seq(LineWidth(numBBTypes), k requires 0 <= k < LineWidth(numBBTypes) => LineValue(k, m[off + k][r][c], r, c, scale, meanH, act))
  }

  /** The line instances as the source flattens them: `view(batch, -1, 5)` of the transposed map, which has
      `5 + numBBTypes` channels. The view fails when 5 does not divide the number of values. */
  function LineViewAsWritten(p: Map, numBBTypes: nat, rows: nat, cols: nat): (r: Result<seq<seq<real>>, Error>)
    requires IsMap(p, LineWidth(numBBTypes), rows, cols)
    ensures r.Ok? ==> |Memory(p, LineWidth(numBBTypes), rows, cols)| % 5 == 0 && Concat(r.value) == Memory(p, LineWidth(numBBTypes), rows, cols)
    ensures r.Ok? ==> forall j :: 0 <= j < |r.value| ==> |r.value[j]| == 5
  {
    var flat := Memory(p, LineWidth(numBBTypes), rows, cols);
    if |flat| % 5 != 0 then Err(ViewSize)
    else
      ConcatChunks(flat, 5);
      Ok(Chunks(flat, 5))
  }

  /** The line instances as intended: one instance of all `5 + numBBTypes` channels per cell. */
  function LineView(p: Map, numBBTypes: nat, rows: nat, cols: nat): (r: seq<seq<real>>)
    requires IsMap(p, LineWidth(numBBTypes), rows, cols)
    ensures |r| == rows * cols && Concat(r) == Memory(p, LineWidth(numBBTypes), rows, cols)
    ensures forall j :: 0 <= j < |r| ==> |r[j]| == LineWidth(numBBTypes)
  {
    InstanceListUniform(p, LineWidth(numBBTypes), rows, cols);
    InstanceList(p, LineWidth(numBBTypes), rows, cols)
  }

  /** The written view gives the intended instances exactly when there are no box types (or no cells);
      with box types it either fails or cuts the same values into more, shorter instances than there are
      cells. */
  lemma LineViewDiffers(p: Map, numBBTypes: nat, rows: nat, cols: nat)
    requires IsMap(p, LineWidth(numBBTypes), rows, cols)
    ensures LineViewAsWritten(p, numBBTypes, rows, cols) == Ok(LineView(p, numBBTypes, rows, cols))
        <==> numBBTypes == 0 || rows * cols == 0
    ensures LineViewAsWritten(p, numBBTypes, rows, cols).Ok? && numBBTypes > 0 && rows * cols > 0 ==>
      |LineViewAsWritten(p, numBBTypes, rows, cols).value| > rows * cols
  {
    var w := LineWidth(numBBTypes);
    var n := rows * cols;
    InstanceListUniform(p, w, rows, cols);
    ConcatLength(InstanceList(p, w, rows, cols), w);
    var flat := Memory(p, w, rows, cols);
    assert |flat| == n * w;
    if numBBTypes == 0 {
      ViewMemory(p, w, rows, cols);
    } else if n == 0 {
      assert flat == [];
      assert LineView(p, numBBTypes, rows, cols) == [];
    } else if |flat| % 5 == 0 {
      var v := Chunks(flat, 5);
      assert |v| * 5 == n * w == n * 5 + n * numBBTypes;
      MulMono(1, n, numBBTypes);
    }
  }

  /** One box type on a 1x1 map: six values cannot be viewed in rows of five. */
  lemma LineViewCounterexample(p: Map)
    requires IsMap(p, LineWidth(1), 1, 1)
    ensures LineViewAsWritten(p, 1, 1, 1) == Err(ViewSize)
  {
    InstanceListUniform(p, 6, 1, 1);
    ConcatLength(InstanceList(p, 6, 1, 1), 6);
  }

  /** The intended line instance of cell (r, c) is instance `c*rows + r` and holds the cell's decoded line. */
  lemma LineInstanceAt(m: Map, off: nat, ch: nat, rows: nat, cols: nat, numBBTypes: nat, scale: real,
                       meanH: real, act: Activations, r: nat, c: nat)
    requires IsMap(m, ch, rows, cols) && off + LineWidth(numBBTypes) <= ch && r < rows && c < cols
    ensures var l := LineView(LineMap(m, off, ch, rows, cols, numBBTypes, scale, meanH, act), numBBTypes, rows, cols);
      && InstanceIndex(r, c, rows) < |l|
      && l[InstanceIndex(r, c, rows)] == LineCell(m, off, ch, rows, cols, numBBTypes, scale, meanH, act, r, c)
  {
    var p := LineMap(m, off, ch, rows, cols, numBBTypes, scale, meanH, act);
    InstanceAt(p, LineWidth(numBBTypes), rows, cols, r, c);
  }

  /** Every line block fits below the end of the line blocks. */
  lemma LineBounds(numBBTypes: nat, anchors: nat, lines: nat)
    ensures forall i :: 0 <= i < lines ==>
      LineOffset(numBBTypes, anchors, i) + LineWidth(numBBTypes) <= anchors * BoxWidth(numBBTypes) + lines * LineWidth(numBBTypes)
  {
    forall i | 0 <= i < lines
      ensures LineOffset(numBBTypes, anchors, i) + LineWidth(numBBTypes) <= anchors * BoxWidth(numBBTypes) + lines * LineWidth(numBBTypes)
    {
      MulMono(i + 1, lines, LineWidth(numBBTypes));
    }
  }

  /** Line type `i`'s decoded instances for every batch element: one entry of `linePreds`, under the intended
      view of `5 + numBBTypes` values per instance (line 364 views rows of 5; see `LineViewAsWritten`). */
  function LineBatch(y: Tensor, off: nat, numBBTypes: nat, scale: real, meanH: real, act: Activations): (r: seq<seq<seq<real>>>)
    requires Shaped(y) && off + LineWidth(numBBTypes) <= y.ch
    ensures |r| == |y.data|
  {
    seq(|y.data|, b requires 0 <= b < |y.data| =>
      LineView(LineMap(y.data[b], off, y.ch, y.rows, y.cols, numBBTypes, scale, meanH, act), numBBTypes, y.rows, y.cols))
  }

  /** Every point block, placed after the line blocks, fits inside the output. */
  lemma PointBounds(numBBTypes: nat, anchors: nat, lines: nat, points: nat)
    ensures forall i :: 0 <= i < points ==> PointOffset(numBBTypes, anchors, lines, i) + 3 <= NumOut(numBBTypes, anchors, lines, points)
  {
  }

  /** `linePreds`: every line type's decoded instances. */
  function LineBatches(y: Tensor, numBBTypes: nat, anchors: nat, lines: nat, scale: real, meanH: real,
                       act: Activations): (r: seq<seq<seq<seq<real>>>>)
    requires Shaped(y) && anchors * BoxWidth(numBBTypes) + lines * LineWidth(numBBTypes) <= y.ch
    ensures |r| == lines
  {
    LineBounds(numBBTypes, anchors, lines);
    seq(lines, i requires 0 <= i < lines => LineBatch(y, LineOffset(numBBTypes, anchors, i), numBBTypes, scale, meanH, act))
  }

  /** `offsetLinePreds`: every line type's raw channel block, after the anchor blocks. */
  function LineSlices(y: Tensor, numBBTypes: nat, anchors: nat, lines: nat): (r: seq<Tensor>)
    requires Shaped(y) && anchors * BoxWidth(numBBTypes) + lines * LineWidth(numBBTypes) <= y.ch
    ensures |r| == lines
    ensures forall i :: 0 <= i < lines ==>
      anchors * BoxWidth(numBBTypes) <= LineOffset(numBBTypes, anchors, i)
      && LineOffset(numBBTypes, anchors, i) + LineWidth(numBBTypes) <= anchors * BoxWidth(numBBTypes) + lines * LineWidth(numBBTypes)
    ensures forall i :: 0 <= i < lines ==>
      r[i] == Channels(y, LineOffset(numBBTypes, anchors, i), LineOffset(numBBTypes, anchors, i) + LineWidth(numBBTypes))
  {
    LineBounds(numBBTypes, anchors, lines);
    seq(lines, i requires 0 <= i < lines =>
      Channels(y, LineOffset(numBBTypes, anchors, i), LineOffset(numBBTypes, anchors, i) + LineWidth(numBBTypes)))
  }

  /** `pointPreds`, with each point block after the line blocks: the corrected offset (line 371 skips only the
      anchor blocks; see `PointOffsetAsWritten`). */
  function PointBatches(y: Tensor, numBBTypes: nat, anchors: nat, lines: nat, points: nat, scale: real,
                        act: Activations): (r: seq<seq<seq<seq<real>>>>)
    requires Shaped(y) && NumOut(numBBTypes, anchors, lines, points) <= y.ch
    ensures |r| == points
  {
    PointBounds(numBBTypes, anchors, lines, points);
    seq(points, i requires 0 <= i < points => PointInstances(y, PointOffset(numBBTypes, anchors, lines, i), scale, act))
  }

  // ---------------------------------------------------------------- forward

  /** What `forward` returns: the pairing features, or the decoded predictions. */
  datatype Output =
    | Pairing(features: Tensor)
    | Predictions(boxes: seq<seq<seq<real>>>, offsets: seq<seq<seq<seq<seq<real>>>>>,
                  lines: seq<seq<seq<seq<real>>>>, lineOffsets: seq<Tensor>, points: seq<seq<seq<seq<real>>>>)

  class YoloBoxDetector {
    var forPairing: bool
    /** The position in `net_down_modules` whose output `setForPairing` hooks, once it has. */
    var hookTarget: Option<nat>
    const rotation: bool
    const numBBTypes: nat
    const anchors: seq<Anchor>
    const numAnchors: nat
    const predPointCount: nat
    const predPixelCount: nat
    const predLineCount: nat
    const meanH: real
    const numOutBB: nat
    const numOutLine: nat
    const numOutPoint: nat
    const netDown: seq<Module>
    const netUp: Option<UpPath>
    const lastChannels: int
    const scale: real

    /** What `__init__` establishes and `forward` relies on. */
    predicate Valid() {
      && numAnchors == |anchors|
      && numOutBB == (numBBTypes + 6) * numAnchors
      && numOutLine == (numBBTypes + 5) * predLineCount
      && numOutPoint == predPointCount * 3
      && |netDown| >= 1
      && meanH == MeanH(rotation)
      && (netUp.Some? <==> predPixelCount > 0)
    }

    constructor (config: Config, net: Net)
      requires |net.down| >= 1 && (net.up.Some? <==> PixelTypes(config) > 0)
      ensures !forPairing && hookTarget == None
      ensures rotation == Or(config.rotation, true) && numBBTypes == config.boxTypes && anchors == config.anchors
      ensures predPointCount == Or(config.pointTypes, 0) && predPixelCount == PixelTypes(config)
      ensures predLineCount == Or(config.lineTypes, 0)
      ensures netDown == net.down && netUp == net.up && lastChannels == net.lastChannels && scale == net.scale
      ensures Valid()
    {
      forPairing := false;
      hookTarget := None;
      rotation := Or(config.rotation, true);
      numBBTypes := config.boxTypes;
      anchors := config.anchors;
      predPointCount := Or(config.pointTypes, 0);
      predPixelCount := PixelTypes(config);
      predLineCount := Or(config.lineTypes, 0);
      meanH := MeanH(Or(config.rotation, true));
      numAnchors := |config.anchors|;
      numOutBB := (config.boxTypes + 6) * |config.anchors|;
      numOutLine := (config.boxTypes + 5) * Or(config.lineTypes, 0);
      numOutPoint := Or(config.pointTypes, 0) * 3;
      netDown := net.down;
      netUp := net.up;
      lastChannels := net.lastChannels;
      scale := net.scale;
    }

    /** The width of the final convolution. */
    function Width(): nat
      requires Valid()
      ensures Width() == NumOut(numBBTypes, numAnchors, predLineCount, predPointCount)
    {
      numOutBB + numOutLine + numOutPoint
    }

    /** The decoded predictions of a trunk output `y`. */
    function Decoded(y: Tensor, act: Activations): Output
      requires Valid() && Shaped(y) && y.ch == Width()
    {
      NumOutSplit(numBBTypes, numAnchors, predLineCount, predPointCount);
      Predictions(
        StackedBoxes(AnchorBatches(y, numBBTypes, scale, rotation, anchors, act), |y.data|, BoxWidth(numBBTypes), y.rows, y.cols),
        StackedOffsets(OffsetSlices(y, numBBTypes, numAnchors), |y.data|, BoxWidth(numBBTypes), y.rows, y.cols),
        LineBatches(y, numBBTypes, numAnchors, predLineCount, scale, meanH, act),
        LineSlices(y, numBBTypes, numAnchors, predLineCount),
        PointBatches(y, numBBTypes, numAnchors, predLineCount, predPointCount, scale, act))
    }

    /** `forward` as a function of the image and of what the modules compute. In pairing mode it returns the
        anchor blocks of the trunk output; otherwise stacking the per-anchor lists fails when there are no
        anchors, and pixel types always fail, since `levels` is never bound. Lines and points are decoded with the corrected layout of `LineBatches` and `PointBatches`. */
    function Prediction(img: Tensor, run: Runner, act: Activations): (r: Result<Output, Error>)
      requires Valid()
      reads this
      ensures r.Ok? ==> (r.value.Pairing? <==> forPairing)
      ensures r.Ok? && forPairing ==> r.value.features.ch == numOutBB
      ensures !forPairing && numAnchors == 0 ==> r.Err?
      ensures !forPairing && predPixelCount > 0 ==> r.Err?
    {
      var levels :- Levels(netDown, img, run);
      var y := levels[|levels| - 1];
      if !(Shaped(y) && y.ch == Width()) then Err(TrunkShape)
      else if forPairing then Ok(Pairing(Channels(y, 0, (6 + numBBTypes) * numAnchors)))
      else if numAnchors == 0 then Err(EmptyStack)
      else if predPixelCount > 0 then Err(UndefinedLevels)
      else Ok(Decoded(y, act))
    }

    /** `setForPairing`: the flag is set first; the hook then goes on `net_down_modules[-2]`, which needs a
        module before the final convolution. */
    method SetForPairing() returns (r: Result<Module, Error>)
      requires Valid()
      modifies this
      ensures forPairing
      ensures r.Ok? <==> |netDown| >= 2
      ensures r.Ok? ==> r.value == netDown[|netDown| - 2] && hookTarget == Some(|netDown| - 2)
      ensures r.Err? ==> r.error == HookIndex && hookTarget == old(hookTarget)
    {
      forPairing := true;
      if |netDown| < 2 {
        return Err(HookIndex);
      }
      hookTarget := Some(|netDown| - 2);
      r := Ok(netDown[|netDown| - 2]);
    }

    method Forward(img: Tensor, run: Runner, act: Activations) returns (r: Result<Output, Error>)
      requires Valid()
      ensures r == Prediction(img, run, act)
    {
      var levels := Levels(netDown, img, run);
      if levels.Err? {
        return Err(levels.error);
      }
      var y := levels.value[|levels.value| - 1];
      if !(Shaped(y) && y.ch == Width()) {
        return Err(TrunkShape);
      }
      if forPairing {
        return Ok(Pairing(Channels(y, 0, (6 + numBBTypes) * numAnchors)));
      }
      var predBoxes, predOffsets := AnchorLoop(y, act);
      if numAnchors == 0 {
        return Err(EmptyStack);
      }
      var linePreds, offsetLinePreds := LineLoop(y, act);
      var pointPreds := PointLoop(y, act);
      if predPixelCount > 0 {
        return Err(UndefinedLevels);
      }
      var w := BoxWidth(numBBTypes);
      r := Ok(Predictions(StackedBoxes(predBoxes, |y.data|, w, y.rows, y.cols),
                          StackedOffsets(predOffsets, |y.data|, w, y.rows, y.cols), linePreds, offsetLinePreds, pointPreds));
    }

    /** The anchor loop of `forward`: each anchor's decoded maps and its raw channel block. */
    method AnchorLoop(y: Tensor, act: Activations) returns (predBoxes: seq<seq<Map>>, predOffsets: seq<Tensor>)
      requires Valid() && Shaped(y) && y.ch == Width()
      ensures predBoxes == AnchorBatches(y, numBBTypes, scale, rotation, anchors, act)
      ensures predOffsets == OffsetSlices(y, numBBTypes, numAnchors)
    {
      NumOutSplit(numBBTypes, numAnchors, predLineCount, predPointCount);
      AnchorBounds(numBBTypes, numAnchors);
      var w := BoxWidth(numBBTypes);
      predBoxes := [];
      predOffsets := [];
      for i := 0 to numAnchors
        invariant |predBoxes| == i && |predOffsets| == i
        invariant forall j :: 0 <= j < i ==> predBoxes[j] == AnchorBatch(y, j, numBBTypes, scale, rotation, anchors[j], act)
        invariant forall j :: 0 <= j < i ==>
          predOffsets[j] == Channels(y, AnchorOffset(numBBTypes, j), AnchorOffset(numBBTypes, j) + w)
      {
        var offset := i * w;
        predBoxes := predBoxes + [AnchorBatch(y, i, numBBTypes, scale, rotation, anchors[i], act)];
        predOffsets := predOffsets + [Channels(y, offset, offset + w)];
      }
    }

    /** The line loop of `forward`: each line type's decoded instances and its raw channel block. */
    method LineLoop(y: Tensor, act: Activations) returns (linePreds: seq<seq<seq<seq<real>>>>, offsetLinePreds: seq<Tensor>)
      requires Valid() && Shaped(y) && y.ch == Width()
      ensures linePreds == LineBatches(y, numBBTypes, numAnchors, predLineCount, scale, meanH, act)
      ensures offsetLinePreds == LineSlices(y, numBBTypes, numAnchors, predLineCount)
    {
      NumOutSplit(numBBTypes, numAnchors, predLineCount, predPointCount);
      LineBounds(numBBTypes, numAnchors, predLineCount);
      linePreds := [];
      offsetLinePreds := [];
      for i := 0 to predLineCount
        invariant |linePreds| == i && |offsetLinePreds| == i
        invariant forall j :: 0 <= j < i ==>
          linePreds[j] == LineBatch(y, LineOffset(numBBTypes, numAnchors, j), numBBTypes, scale, meanH, act)
        invariant forall j :: 0 <= j < i ==>
          offsetLinePreds[j] == Channels(y, LineOffset(numBBTypes, numAnchors, j), LineOffset(numBBTypes, numAnchors, j) + LineWidth(numBBTypes))
      {
        var offset := i * LineWidth(numBBTypes) + numAnchors * BoxWidth(numBBTypes);
        assert offset == LineOffset(numBBTypes, numAnchors, i);
        linePreds := linePreds + [LineBatch(y, offset, numBBTypes, scale, meanH, act)];
        offsetLinePreds := offsetLinePreds + [Channels(y, offset, offset + LineWidth(numBBTypes))];
      }
    }

    /** The point loop of `forward`, with each point block after the line blocks. */
    method PointLoop(y: Tensor, act: Activations) returns (pointPreds: seq<seq<seq<seq<real>>>>)
      requires Valid() && Shaped(y) && y.ch == Width()
      ensures pointPreds == PointBatches(y, numBBTypes, numAnchors, predLineCount, predPointCount, scale, act)
    {
      PointBounds(numBBTypes, numAnchors, predLineCount, predPointCount);
      pointPreds := [];
      for i := 0 to predPointCount
        invariant |pointPreds| == i
        invariant forall j :: 0 <= j < i ==>
          pointPreds[j] == PointInstances(y, PointOffset(numBBTypes, numAnchors, predLineCount, j), scale, act)
      {
        var offset := i * 3 + numAnchors * BoxWidth(numBBTypes) + predLineCount * LineWidth(numBBTypes);
        pointPreds := pointPreds + [PointInstances(y, offset, scale, act)];
      }
    }
  }

  /** The trunk output of a forward pass whose down path ran. */
  function TrunkOutput(d: YoloBoxDetector, img: Tensor, run: Runner): (y: Tensor)
    requires |d.netDown| >= 1 && Levels(d.netDown, img, run).Ok?
    reads d
    ensures y == Levels(d.netDown, img, run).value[|d.netDown|]
  {
    Levels(d.netDown, img, run).value[|d.netDown|]
  }

  /** Outside pairing mode a successful forward pass decodes the trunk output: `bbPredictions` is the
      anchor-major stack of every anchor's decoded maps. */
  lemma PredictionBoxes(d: YoloBoxDetector, img: Tensor, run: Runner, act: Activations)
    requires d.Valid() && !d.forPairing && d.Prediction(img, run, act).Ok?
    ensures var y := TrunkOutput(d, img, run);
      && Shaped(y) && |d.anchors| * BoxWidth(d.numBBTypes) <= y.ch
      && d.Prediction(img, run, act).value.boxes
           == StackedBoxes(AnchorBatches(y, d.numBBTypes, d.scale, d.rotation, d.anchors, act), |y.data|,
                           BoxWidth(d.numBBTypes), y.rows, y.cols)
  {
    var y := TrunkOutput(d, img, run);
    assert Shaped(y) && y.ch == d.Width();
    NumOutSplit(d.numBBTypes, d.numAnchors, d.predLineCount, d.predPointCount);
    assert d.Prediction(img, run, act) == Ok(d.Decoded(y, act));
  }

  /** A failure of the down path is the failure of `forward`; a successful pass ran the down path to a trunk
      output of the final convolution's width, and in pairing mode it returns exactly that output's first
      `numOutBB` channels, the anchor blocks. Outside pairing mode, an empty anchor list fails on
      `torch.stack` before anything is decoded. */
  lemma PredictionOutcome(d: YoloBoxDetector, img: Tensor, run: Runner, act: Activations)
    requires d.Valid()
    ensures Levels(d.netDown, img, run).Err? ==> d.Prediction(img, run, act) == Err(Levels(d.netDown, img, run).error)
    ensures d.Prediction(img, run, act).Ok? ==>
      && Levels(d.netDown, img, run).Ok?
      && Shaped(TrunkOutput(d, img, run)) && TrunkOutput(d, img, run).ch == d.Width()
      && d.numOutBB <= d.Width()
      && (d.forPairing ==> d.Prediction(img, run, act).value == Pairing(Channels(TrunkOutput(d, img, run), 0, d.numOutBB)))
    ensures Levels(d.netDown, img, run).Ok? && !d.forPairing && d.numAnchors == 0 ==>
      (Shaped(TrunkOutput(d, img, run)) && TrunkOutput(d, img, run).ch == d.Width()
       ==> d.Prediction(img, run, act) == Err(EmptyStack))
  {
    if d.Prediction(img, run, act).Ok? {
      var y := TrunkOutput(d, img, run);
      assert Shaped(y) && y.ch == d.Width();
    }
  }

  /** End to end: outside pairing mode, `offsetPredictions[b][a][r][c][k]` is channel `k` of anchor `a`'s
      raw block of the trunk output at cell (r, c): the block only moved its channel last. */
  lemma PredictionOffsetAt(d: YoloBoxDetector, img: Tensor, run: Runner, act: Activations, a: nat, b: nat, r: nat, c: nat, k: nat)
    requires d.Valid() && !d.forPairing && d.Prediction(img, run, act).Ok? && a < d.numAnchors && k < BoxWidth(d.numBBTypes)
    requires var y := TrunkOutput(d, img, run); b < |y.data| && r < y.rows && c < y.cols
    ensures var y := TrunkOutput(d, img, run);
            var offs := d.Prediction(img, run, act).value.offsets;
      && Shaped(y) && AnchorOffset(d.numBBTypes, a) + k < y.ch
      && b < |offs| && a < |offs[b]| && r < |offs[b][a]| && c < |offs[b][a][r]| && k < |offs[b][a][r][c]|
      && offs[b][a][r][c][k] == y.data[b][AnchorOffset(d.numBBTypes, a) + k][r][c]
  {
    var y := TrunkOutput(d, img, run);
    assert Shaped(y) && y.ch == d.Width();
    NumOutSplit(d.numBBTypes, d.numAnchors, d.predLineCount, d.predPointCount);
    assert d.Prediction(img, run, act) == Ok(d.Decoded(y, act));
    var w := BoxWidth(d.numBBTypes);
    var slices := OffsetSlices(y, d.numBBTypes, d.numAnchors);
    var o := AnchorOffset(d.numBBTypes, a);
    assert slices[a] == Channels(y, o, o + w);
    assert slices[a].data[b][k] == y.data[b][o + k];
    var offs := StackedOffsets(slices, |y.data|, w, y.rows, y.cols);
    assert d.Prediction(img, run, act).value.offsets == offs;
    assert offs[b][a] == Permuted(slices[a].data[b], w, y.rows, y.cols);
  }

  /** End to end: outside pairing mode, channel `k` of `offsetLinePreds[i]` is channel `k` of line type `i`'s
      raw block of the trunk output, which follows every anchor block. */
  lemma PredictionLineOffsetAt(d: YoloBoxDetector, img: Tensor, run: Runner, act: Activations, i: nat, b: nat, k: nat)
    requires d.Valid() && !d.forPairing && d.Prediction(img, run, act).Ok? && i < d.predLineCount && k < LineWidth(d.numBBTypes)
    requires b < |TrunkOutput(d, img, run).data|
    ensures var y := TrunkOutput(d, img, run);
            var o := LineOffset(d.numBBTypes, d.numAnchors, i);
            var ls := d.Prediction(img, run, act).value.lineOffsets;
      && Shaped(y) && d.numAnchors * BoxWidth(d.numBBTypes) <= o && o + k < y.ch
      && i < |ls| && b < |ls[i].data| && k < |ls[i].data[b]|
      && ls[i].data[b][k] == y.data[b][o + k]
  {
    var y := TrunkOutput(d, img, run);
    assert Shaped(y) && y.ch == d.Width();
    NumOutSplit(d.numBBTypes, d.numAnchors, d.predLineCount, d.predPointCount);
    assert d.Prediction(img, run, act) == Ok(d.Decoded(y, act));
    var o := LineOffset(d.numBBTypes, d.numAnchors, i);
    var ls := LineSlices(y, d.numBBTypes, d.numAnchors, d.predLineCount);
    assert ls[i] == Channels(y, o, o + LineWidth(d.numBBTypes));
  }

  /** End to end: after a successful forward pass outside pairing mode, instance `c*rows + r` of line type
      `i` in batch element `b` is the cell's line, decoded from line type `i`'s own channel block (the
      intended view, one instance of `5 + numBBTypes` values per cell). */
  lemma PredictionLineAt(d: YoloBoxDetector, img: Tensor, run: Runner, act: Activations, i: nat, b: nat, r: nat, c: nat)
    requires d.Valid() && !d.forPairing && d.Prediction(img, run, act).Ok? && i < d.predLineCount
    requires var y := TrunkOutput(d, img, run); b < |y.data| && r < y.rows && c < y.cols
    ensures var y := TrunkOutput(d, img, run);
            var o := LineOffset(d.numBBTypes, d.numAnchors, i);
            var l := d.Prediction(img, run, act).value.lines[i][b];
      && Shaped(y) && d.numAnchors * BoxWidth(d.numBBTypes) <= o && o + LineWidth(d.numBBTypes) <= y.ch
      && InstanceIndex(r, c, y.rows) < |l|
      && l[InstanceIndex(r, c, y.rows)] == LineCell(y.data[b], o, y.ch, y.rows, y.cols, d.numBBTypes, d.scale, d.meanH, act, r, c)
  {
    var y := TrunkOutput(d, img, run);
    var o := LineOffset(d.numBBTypes, d.numAnchors, i);
    assert Shaped(y) && y.ch == d.Width();
    assert d.Prediction(img, run, act) == Ok(d.Decoded(y, act));
    LineSlotOwned(d.numBBTypes, d.numAnchors, d.predLineCount, d.predPointCount, i, LineWidth(d.numBBTypes) - 1);
    NumOutSplit(d.numBBTypes, d.numAnchors, d.predLineCount, d.predPointCount);
    var lines := LineBatches(y, d.numBBTypes, d.numAnchors, d.predLineCount, d.scale, d.meanH, act);
    assert lines[i] == LineBatch(y, o, d.numBBTypes, d.scale, d.meanH, act);
    assert lines[i][b] == LineView(LineMap(y.data[b], o, y.ch, y.rows, y.cols, d.numBBTypes, d.scale, d.meanH, act),
                                   d.numBBTypes, y.rows, y.cols);
    LineInstanceAt(y.data[b], o, y.ch, y.rows, y.cols, d.numBBTypes, d.scale, d.meanH, act, r, c);
  }

  /** End to end: after a successful forward pass outside pairing mode, instance `c*rows + r` of point type
      `i` in batch element `b` is decoded from point type `i`'s own three channels, which lie after every
      anchor and line block. */
  lemma PredictionPointAt(d: YoloBoxDetector, img: Tensor, run: Runner, act: Activations, i: nat, b: nat, r: nat, c: nat)
    requires d.Valid() && !d.forPairing && d.Prediction(img, run, act).Ok? && i < d.predPointCount
    requires var y := TrunkOutput(d, img, run); b < |y.data| && r < y.rows && c < y.cols
    ensures var y := TrunkOutput(d, img, run);
            var m := y.data[b];
            var o := PointOffset(d.numBBTypes, d.numAnchors, d.predLineCount, i);
            var l := d.Prediction(img, run, act).value.points[i][b];
      && Shaped(y) && d.numAnchors * BoxWidth(d.numBBTypes) + d.predLineCount * LineWidth(d.numBBTypes) <= o
      && o + 3 <= y.ch
      && InstanceIndex(r, c, y.rows) < |l|
      && l[InstanceIndex(r, c, y.rows)] == [act.sigmoid(m[o][r][c]), m[o + 1][r][c] + Prior(c, d.scale), m[o + 2][r][c] + Prior(r, d.scale)]
  {
    var y := TrunkOutput(d, img, run);
    var o := PointOffset(d.numBBTypes, d.numAnchors, d.predLineCount, i);
    assert Shaped(y) && y.ch == d.Width();
    assert d.Prediction(img, run, act) == Ok(d.Decoded(y, act));
    PointSlotOwned(d.numBBTypes, d.numAnchors, d.predLineCount, d.predPointCount, i, 2);
    NumOutSplit(d.numBBTypes, d.numAnchors, d.predLineCount, d.predPointCount);
    var points := PointBatches(y, d.numBBTypes, d.numAnchors, d.predLineCount, d.predPointCount, d.scale, act);
    assert points[i] == PointInstances(y, o, d.scale, act);
    assert points[i][b] == InstanceList(PointMap(y.data[b], o, y.ch, y.rows, y.cols, d.scale, act), 3, y.rows, y.cols);
    PointAt(y.data[b], o, y.ch, y.rows, y.cols, d.scale, act, r, c);
  }

  /** Construction: `make_layers` on the down configuration with the configured dilation, the final 1x1
      convolution, the scale loop, and with pixel types `make_layers` on the up configuration with dilation 1. */
  method NewYoloBoxDetector(config: Config) returns (r: Result<YoloBoxDetector, Error>)
    ensures r.Ok? <==> Network(config).Ok?
    ensures r.Err? ==> r.error == Network(config).error
    ensures r.Ok? ==> fresh(r.value) && r.value.Valid() && !r.value.forPairing && r.value.hookTarget == None
    ensures r.Ok? ==> r.value.rotation == Or(config.rotation, true) && r.value.numBBTypes == config.boxTypes
                      && r.value.anchors == config.anchors
    ensures r.Ok? ==> r.value.predLineCount == Or(config.lineTypes, 0) && r.value.predPointCount == Or(config.pointTypes, 0)
                      && r.value.predPixelCount == PixelTypes(config)
    ensures r.Ok? ==> Net(r.value.netDown, r.value.netUp, r.value.scale, r.value.Width(), r.value.lastChannels)
                      == Network(config).value
  {
    ReaderSound(DilationOf(config), NormOf(config));
    var layersCfg := DownConfig(config);
    var down := MakeLayers(TokenReader(DilationOf(config), NormOf(config)), layersCfg);
    if down.Err? {
      return Err(down.error);
    }
    var numOut := NumOutOf(config);
    var netDown := AsModules(down.value.stages) + [Head(HeadConv(down.value.outCh, numOut))];
    var scale := CountScale(layersCfg);
    if scale.Err? {
      return Err(scale.error);
    }
    var netUp := None;
    if PixelTypes(config) > 0 {
      ReaderSound(1, NormOf(config));
      var up := MakeLayers(TokenReader(1, NormOf(config)), UpConfig(config));
      if up.Err? {
        assert UpOf(config) == Err(up.error);
        return Err(up.error);
      }
      netUp := Some(UpPath(up.value.stages, HeadConv(up.value.outCh, PixelTypes(config))));
    }
    assert UpOf(config) == Ok(netUp);
    var net := Net(netDown, netUp, scale.value, numOut, down.value.outCh);
    assert Network(config) == Ok(net);
    var d := new YoloBoxDetector(config, net);
    r := Ok(d);
  }
}
