/** `Detector` of model/detector.py: the network it builds from its configuration, the stride it counts,
    the layout of the final convolution's channels, and `forward`, which decodes lines and points per cell
    and walks the up path back through the retained levels for the pixel map. */
module Detector {
  import opened Wrappers
  import opened Tokens
  import opened Layers
  import opened Stages
  import opened Compiler
  import opened DetectorLayers
  import opened Tensors
  import opened Heads
  import opened Trunk

  // ---------------------------------------------------------------- channel layout

  /** `numOutEnd`: five channels per line type, then three per point type. */
  function NumOutEnd(lines: nat, points: nat): nat {
    5 * lines + 3 * points
  }

  /** First channel of line type `i`. */
  function LineOffset(i: nat): nat {
    5 * i
  }

  /** First channel of point type `i`: after all line blocks. */
  function PointOffset(lines: nat, i: nat): nat {
    3 * i + 5 * lines
  }

  /** The block that owns channel `k`, and the channel's slot in it. */
  datatype Owner = LineSlot(line: nat, slot: nat) | PointSlot(point: nat, slot: nat)

  function OwnerOf(lines: nat, k: nat): Owner {
    if k < 5 * lines then LineSlot(k / 5, k % 5) else PointSlot((k - 5 * lines) / 3, (k - 5 * lines) % 3)
  }

  /** Slot `s` of line type `i` lies inside `[0, numOutEnd)` and is owned by that line type at that slot:
      with PointSlotOwned, no two blocks share a channel. */
  lemma LineSlotOwned(lines: nat, points: nat, i: nat, s: nat)
    requires i < lines && s < 5
    ensures LineOffset(i) + s < NumOutEnd(lines, points)
    ensures OwnerOf(lines, LineOffset(i) + s) == LineSlot(i, s)
  {
    DivModUnique(5 * i + s, 5, i, s);
  }

  /** Slot `s` of point type `i` lies inside `[0, numOutEnd)`, after every line block, and is owned by that
      point type at that slot. */
  lemma PointSlotOwned(lines: nat, points: nat, i: nat, s: nat)
    requires i < points && s < 3
    ensures 5 * lines <= PointOffset(lines, i) + s < NumOutEnd(lines, points)
    ensures OwnerOf(lines, PointOffset(lines, i) + s) == PointSlot(i, s)
  {
    DivModUnique(3 * i + s, 3, i, s);
  }

  /** Every channel below `numOutEnd` belongs to a line or point block that exists, at its own slot:
      the blocks cover the output exactly. */
  lemma BlocksCover(lines: nat, points: nat, k: nat)
    requires k < NumOutEnd(lines, points)
    ensures match OwnerOf(lines, k)
      case LineSlot(i, s) => i < lines && s < 5 && LineOffset(i) + s == k
      case PointSlot(i, s) => i < points && s < 3 && PointOffset(lines, i) + s == k
  {
    if k < 5 * lines {
      MulLtCancel(k / 5, lines, 5);
    } else {
      var j := k - 5 * lines;
      MulLtCancel(j / 3, points, 3);
    }
  }

  // ---------------------------------------------------------------- scale

  /** The number of 'M' tokens. */
  function Pools(ts: seq<Token>): nat {
    if ts == [] then 0 else (if ts[0] == Str("M") then 1 else 0) + Pools(ts[1..])
  }

  lemma {:induction false} PoolsSnoc(ts: seq<Token>, t: Token)
    ensures Pools(ts + [t]) == Pools(ts) + (if t == Str("M") then 1 else 0)
  {
    if ts != [] {
      assert (ts + [t])[1..] == ts[1..] + [t];
      PoolsSnoc(ts[1..], t);
    }
  }

  /** `2**n` as the integer the source multiplies up. */
  function TwoTo(n: nat): (r: nat)
    ensures r >= 1 && r as real == Pow2(n)
  {
    if n == 0 then 1 else (Pow2Succ(n - 1); 2 * TwoTo(n - 1))
  }

  /** `self.scale=1; for a in layers_cfg: if a=='M': self.scale*=2`. */
  method CountScale(cfg: seq<Token>) returns (scale: nat)
    ensures scale == TwoTo(Pools(cfg))
  {
    scale := 1;
    for i := 0 to |cfg|
      invariant scale == TwoTo(Pools(cfg[..i]))
    {
      assert cfg[..i + 1] == cfg[..i] + [cfg[i]];
      PoolsSnoc(cfg[..i], cfg[i]);
      if cfg[i] == Str("M") {
        scale := scale * 2;
      }
    }
    assert cfg[..|cfg|] == cfg;
  }

  /** The scale is the stride the network really has: each 'M' token is one 2x2 max pool of the compiled
      down path and nothing else emits one. */
  lemma ScaleIsStride(batchNorm: bool, weightNorm: bool, cfg: seq<Token>)
    requires Compile(TokenReader(batchNorm, weightNorm), cfg).Ok?
    ensures Occurrences(MaxPool2d, Flatten(Compile(TokenReader(batchNorm, weightNorm), cfg).value.stages)) == Pools(cfg)
  {
    var read := TokenReader(batchNorm, weightNorm);
    ReaderSound(batchNorm, weightNorm);
    CompileCorrect(read, cfg);
    PoolsExpand(batchNorm, weightNorm, cfg[0].n, cfg[1..]);
    assert cfg == [cfg[0]] + cfg[1..];
  }

  lemma {:induction false} PoolsExpand(batchNorm: bool, weightNorm: bool, c: int, ts: seq<Token>)
    requires Sound(TokenReader(batchNorm, weightNorm))
    requires Expand(TokenReader(batchNorm, weightNorm), c, ts).Ok?
    ensures Occurrences(MaxPool2d, Expand(TokenReader(batchNorm, weightNorm), c, ts).value.layers) == Pools(ts)
    decreases |ts|
  {
    var read := TokenReader(batchNorm, weightNorm);
    if ts != [] {
      ExpandStep(read, c, ts);
      assert read(ts[0], c) == Decode(ts[0], c, batchNorm, weightNorm);
      var a := read(ts[0], c).value;
      var x := Expand(read, ActionOut(a, c), ts[1..]);
      PoolsExpand(batchNorm, weightNorm, ActionOut(a, c), ts[1..]);
      OccurrencesAppend(MaxPool2d, Emitted(a, c), x.value.layers);
      TokenPools(batchNorm, weightNorm, ts[0], c);
    }
  }

  /** One token emits one max pool if it is 'M' and none otherwise. */
  lemma TokenPools(batchNorm: bool, weightNorm: bool, t: Token, c: int)
    requires Decode(t, c, batchNorm, weightNorm).Ok?
    ensures Occurrences(MaxPool2d, Emitted(Decode(t, c, batchNorm, weightNorm).value, c)) == if t == Str("M") then 1 else 0
  {
    var a := Decode(t, c, batchNorm, weightNorm).value;
    var e := Emitted(a, c);
    if t == Str("M") {
      assert e == [MaxPool2d] && e[1..] == [];
    } else if t.Str? {
      assert e == [Up(c, a.skip)] && e[1..] == [];
    } else {
      assert NoBoundaryFrom(e, 0);
      OccurrencesAbsent(MaxPool2d, e);
    }
  }

  // ---------------------------------------------------------------- configuration and construction

  /** The configuration keys the detector reads; an absent key is `None`. */
  datatype Config = Config(
    lineTypes: nat, pointTypes: nat, pixelTypes: nat,
    normType: Option<string>, downCfg: Option<seq<Token>>, upCfg: Option<seq<Token>>)

  /** `[3,64,'M',128,'M',256,256,'M',512,512,'M',512,512]`. */
  function DefaultDown(): seq<Token> {
    [Int(3), Int(64), Str("M"), Int(128), Str("M"), Int(256), Int(256), Str("M"),
     Int(512), Int(512), Str("M"), Int(512), Int(512)]
  }

  /** `[512,'U+512',256,'U+256',128,'U+128',64,'U+64']`. */
  function DefaultUp(): seq<Token> {
    [Int(512), Str("U+512"), Int(256), Str("U+256"), Int(128), Str("U+128"), Int(64), Str("U+64")]
  }

  function Or(o: Option<seq<Token>>, d: seq<Token>): seq<Token> {
    if o.Some? then o.value else d
  }

  /** What `__init__` builds. */
  datatype Net = Net(down: seq<Module>, up: Option<UpPath>, scale: nat, numOutEnd: nat)

  /** The 3x3, padding-1 convolution that ends a path. */
  function HeadConv(inCh: int, outCh: int): Layer {
    Conv2d(inCh, outCh, 3, 1, 1, false)
  }

  function Network(config: Config): Result<Net, Error> {
    var bn := config.normType == Some("batch_norm");
    var wn := config.normType == Some("weight_norm");
    ReaderSound(bn, wn);
    var downCfg := Or(config.downCfg, DefaultDown());
    var down :- Compile(TokenReader(bn, wn), downCfg);
    var numOutEnd := NumOutEnd(config.lineTypes, config.pointTypes);
    var up :- if config.pixelTypes > 0 then
                var u :- Compile(TokenReader(bn, wn), Or(config.upCfg, DefaultUp()));
                Ok(Some(UpPath(u.stages, HeadConv(u.outCh, config.pixelTypes))))
              else Ok(None);
    Ok(Net(AsModules(down.stages) + [Head(HeadConv(down.outCh, numOutEnd))], up, TwoTo(Pools(downCfg)), numOutEnd))
  }

  /** The network is built exactly when the down configuration compiles and, with pixel types, the up
      configuration compiles; then the down path ends in a convolution to `numOutEnd` channels from the
      configuration's last width, and the pixel path exists exactly when there are pixel types. */
  lemma NetworkShape(config: Config)
    ensures var bn := config.normType == Some("batch_norm");
            var wn := config.normType == Some("weight_norm");
            var down := Compile(TokenReader(bn, wn), Or(config.downCfg, DefaultDown()));
            var upc := Compile(TokenReader(bn, wn), Or(config.upCfg, DefaultUp()));
      && (Network(config).Ok? <==> down.Ok? && (config.pixelTypes > 0 ==> upc.Ok?))
      && (Network(config).Ok? ==>
           && Network(config).value.down[|Network(config).value.down| - 1]
                == Head(Conv2d(down.value.outCh, NumOutEnd(config.lineTypes, config.pointTypes), 3, 1, 1, false))
           && |Network(config).value.down| == |down.value.stages| + 1
           && (Network(config).value.up.Some? <==> config.pixelTypes > 0)
           && (config.pixelTypes > 0 ==> Network(config).value.up.value.head == Conv2d(upc.value.outCh, config.pixelTypes, 3, 1, 1, false))
           && Network(config).value.scale as real == Pow2(Pools(Or(config.downCfg, DefaultDown()))))
  {
  }

  /** The default down configuration counts four pools: a stride of 16. */
  lemma DefaultScale()
    ensures Pools(DefaultDown()) == 4 && TwoTo(Pools(DefaultDown())) == 16
  {
  }

  /** With neither batch norm nor weight norm a non-negative integer token appends a convolution and a ReLU to the open stage
      of a non-negative width. */
  lemma RunConv(b: Builder, v: int, rest: seq<Token>) returns (b': Builder)
    requires Inv(b) && Last(b.channels) >= 0 && v >= 0
    ensures Inv(b') && Run(TokenReader(false, false), b, [Int(v)] + rest) == Run(TokenReader(false, false), b', rest)
    ensures b'.modules == b.modules && b'.layers == b.layers + [Conv2d(Last(b.channels), v, 3, 1, 1, false), ReLU]
    ensures Last(b'.channels) == v
  {
    ReaderSound(false, false);
    var ts := [Int(v)] + rest;
    assert ts[0] == Int(v) && ts[1..] == rest;
    var c := Last(b.channels);
    assert TokenReader(false, false)(ts[0], c) == Decode(Int(v), c, false, false);
    RunStep(TokenReader(false, false), b, ts);
    b' := Apply(b, Append([Conv2d(c, v, 3, 1, 1, false), ReLU], Count(v), v));
  }

  /** 'M' closes the open stage, even an empty one, and opens a stage holding the max pool. */
  lemma RunPool(b: Builder, rest: seq<Token>) returns (b': Builder)
    requires Inv(b)
    ensures Inv(b') && Run(TokenReader(false, false), b, [Str("M")] + rest) == Run(TokenReader(false, false), b', rest)
    ensures b'.modules == b.modules + [Sequential(b.layers)] && b'.layers == [MaxPool2d]
    ensures Last(b'.channels) == Last(b.channels)
  {
    ReaderSound(false, false);
    var ts := [Str("M")] + rest;
    assert ts[0] == Str("M") && ts[1..] == rest;
    assert TokenReader(false, false)(ts[0], Last(b.channels)) == Decode(Str("M"), Last(b.channels), false, false);
    RunStep(TokenReader(false, false), b, ts);
    b' := Apply(b, ClosePool);
  }

  /** The first two stages of the default down configuration. */
  lemma DefaultDownHead() returns (b: Builder)
    ensures Inv(b) && |b.modules| == 2 && Last(b.channels) == 128
    ensures Run(TokenReader(false, false), Start(3), DefaultDown()[1..])
         == Run(TokenReader(false, false), b, [Int(256), Int(256), Str("M"), Int(512), Int(512), Str("M"), Int(512), Int(512)])
  {
    b := Start(3);
    StartInv(3);
    assert DefaultDown()[1..] == [Int(64), Str("M"), Int(128), Str("M"), Int(256), Int(256), Str("M"), Int(512), Int(512), Str("M"), Int(512), Int(512)];
    b := RunConv(b, 64, [Str("M"), Int(128), Str("M"), Int(256), Int(256), Str("M"), Int(512), Int(512), Str("M"), Int(512), Int(512)]);
    b := RunPool(b, [Int(128), Str("M"), Int(256), Int(256), Str("M"), Int(512), Int(512), Str("M"), Int(512), Int(512)]);
    b := RunConv(b, 128, [Str("M"), Int(256), Int(256), Str("M"), Int(512), Int(512), Str("M"), Int(512), Int(512)]);
    b := RunPool(b, [Int(256), Int(256), Str("M"), Int(512), Int(512), Str("M"), Int(512), Int(512)]);
  }

  /** The remaining tokens of the default down configuration: two more pools and a non-empty open stage at 512. */
  lemma DefaultDownTail(b0: Builder) returns (b: Builder)
    requires Inv(b0) && Last(b0.channels) >= 0
    ensures Inv(b) && |b.modules| == |b0.modules| + 2 && |b.layers| > 0 && Last(b.channels) == 512
    ensures Run(TokenReader(false, false), b0, [Int(256), Int(256), Str("M"), Int(512), Int(512), Str("M"), Int(512), Int(512)]) == Ok(b)
  {
    b := RunConv(b0, 256, [Int(256), Str("M"), Int(512), Int(512), Str("M"), Int(512), Int(512)]);
    b := RunConv(b, 256, [Str("M"), Int(512), Int(512), Str("M"), Int(512), Int(512)]);
    b := RunPool(b, [Int(512), Int(512), Str("M"), Int(512), Int(512)]);
    b := RunConv(b, 512, [Int(512), Str("M"), Int(512), Int(512)]);
    b := RunConv(b, 512, [Str("M"), Int(512), Int(512)]);
    b := RunPool(b, [Int(512), Int(512)]);
    b := RunConv(b, 512, [Int(512)]);
    b := RunConv(b, 512, []);
    assert [Int(512)] + [] == [Int(512)];
  }

  /** With neither batch norm nor weight norm the default down configuration compiles to five stages split at the four pools
      and ends at 512 channels. */
  lemma DefaultDownCompiles()
    ensures var r := Compile(TokenReader(false, false), DefaultDown());
      r.Ok? && |r.value.stages| == 5 && r.value.outCh == 512
  {
    ReaderSound(false, false);
    var b := DefaultDownHead();
    b := DefaultDownTail(b);
  }

  // ---------------------------------------------------------------- forward

  /** A line type's five decoded channels: confidence, x, y, rotation, scale. */
  function LineMap(m: Map, off: nat, ch: nat, rows: nat, cols: nat, scale: real, act: Activations): (p: Map)
    requires IsMap(m, ch, rows, cols) && off + 5 <= ch
    ensures IsMap(p, 5, rows, cols)
  {
    [MapGrid(m[off], act.sigmoid),
     AddGrid(m[off + 1], ColPriors(rows, cols, scale), rows, cols),
     AddGrid(m[off + 2], RowPriors(rows, cols, scale), rows, cols),
     m[off + 3],
     m[off + 4]]
  }

  /** The line instance of cell (r, c) is at `c*rows + r`: the sigmoid of the confidence channel, x plus the
      column prior, y plus the row prior, and rotation and scale as the network gives them. */
  lemma LineAt(m: Map, off: nat, ch: nat, rows: nat, cols: nat, scale: real, act: Activations, r: nat, c: nat)
    requires IsMap(m, ch, rows, cols) && off + 5 <= ch && r < rows && c < cols
    ensures var l := InstanceList(LineMap(m, off, ch, rows, cols, scale, act), 5, rows, cols);
      && |l| == rows * cols
      && InstanceIndex(r, c, rows) < rows * cols
      && l[InstanceIndex(r, c, rows)] == [act.sigmoid(m[off][r][c]), m[off + 1][r][c] + Prior(c, scale),
                                          m[off + 2][r][c] + Prior(r, scale), m[off + 3][r][c], m[off + 4][r][c]]
  {
    InstanceAt(LineMap(m, off, ch, rows, cols, scale, act), 5, rows, cols, r, c);
  }

  function LineInstances(y: Tensor, off: nat, scale: real, act: Activations): (r: seq<seq<seq<real>>>)
    requires Shaped(y) && off + 5 <= y.ch
    ensures |r| == |y.data|
  {
    seq(|y.data|, b requires 0 <= b < |y.data| =>
      InstanceList(LineMap(y.data[b], off, y.ch, y.rows, y.cols, scale, act), 5, y.rows, y.cols))
  }

  /** `linePreds, pointPreds, pixelPreds`. */
  datatype Output = Output(lines: seq<seq<seq<seq<real>>>>, points: seq<seq<seq<seq<real>>>>, pixels: Option<Tensor>)

  class Detector {
    const predLineCount: nat
    const predPointCount: nat
    const predPixelCount: nat
    const numOutEnd: nat
    const netDown: seq<Module>
    const netUp: Option<UpPath>
    const scale: nat

    /** What `__init__` establishes and `forward` relies on. */
    predicate Valid() {
      && numOutEnd == NumOutEnd(predLineCount, predPointCount)
      && |netDown| >= 1
      && (netUp.Some? <==> predPixelCount > 0)
    }

    constructor (config: Config, net: Net)
      requires |net.down| >= 1 && (net.up.Some? <==> config.pixelTypes > 0)
      requires net.numOutEnd == NumOutEnd(config.lineTypes, config.pointTypes)
      ensures predLineCount == config.lineTypes && predPointCount == config.pointTypes
      ensures predPixelCount == config.pixelTypes
      ensures numOutEnd == net.numOutEnd && netDown == net.down && netUp == net.up && scale == net.scale
      ensures Valid()
    {
      predLineCount := config.lineTypes;
      predPointCount := config.pointTypes;
      predPixelCount := config.pixelTypes;
      numOutEnd := net.numOutEnd;
      netDown := net.down;
      netUp := net.up;
      scale := net.scale;
    }

    /** `forward` as a function of the image and of what the modules compute. */
    function Prediction(img: Tensor, run: Runner, merge: Merger, act: Activations): Result<Output, Error>
      requires Valid()
    {
      var levels :- Levels(netDown, img, run);
      var y := levels[|levels| - 1];
      if !(Shaped(y) && y.ch == numOutEnd) then Err(TrunkShape)
      else
        var s := scale as real;
        var lines := seq(predLineCount, i requires 0 <= i < predLineCount => LineInstances(y, LineOffset(i), s, act));
        var points := seq(predPointCount, i requires 0 <= i < predPointCount =>
                          PointInstances(y, PointOffset(predLineCount, i), s, act));
        if predPixelCount > 0 then
          var y2 :- PixelLoop(netUp.value.stages, levels, merge);
          var pix :- Call1(Head(netUp.value.head), y2, run);
          Ok(Output(lines, points, Some(pix)))
        else Ok(Output(lines, points, None))
    }

    method Forward(img: Tensor, run: Runner, merge: Merger, act: Activations) returns (r: Result<Output, Error>)
      requires Valid()
      ensures r == Prediction(img, run, merge, act)
    {
      var levels := [img];
      for i := 0 to |netDown|
        invariant Levels(netDown[..i], img, run) == Ok(levels)
      {
        assert netDown[..i + 1][..i] == netDown[..i];
        var out := Call1(netDown[i], levels[|levels| - 1], run);
        if out.Err? {
          r := Err(out.error);
          LevelsPrefixErr(netDown, i + 1, img, run);
          return;
        }
        levels := levels + [out.value];
      }
      assert netDown[..|netDown|] == netDown;
      var y := levels[|levels| - 1];
      if !(Shaped(y) && y.ch == numOutEnd) {
        return Err(TrunkShape);
      }
      var s := scale as real;
      var linePreds := [];
      for i := 0 to predLineCount
        invariant |linePreds| == i
        invariant forall j :: 0 <= j < i ==> linePreds[j] == LineInstances(y, LineOffset(j), s, act)
      {
        linePreds := linePreds + [LineInstances(y, LineOffset(i), s, act)];
      }
      var pointPreds := [];
      for i := 0 to predPointCount
        invariant |pointPreds| == i
        invariant forall j :: 0 <= j < i ==> pointPreds[j] == PointInstances(y, PointOffset(predLineCount, j), s, act)
      {
        pointPreds := pointPreds + [PointInstances(y, PointOffset(predLineCount, i), s, act)];
      }
      assert linePreds == seq(predLineCount, i requires 0 <= i < predLineCount => LineInstances(y, LineOffset(i), s, act));
      assert pointPreds == seq(predPointCount, i requires 0 <= i < predPointCount =>
                                 PointInstances(y, PointOffset(predLineCount, i), s, act));
      var pixelPreds := None;
      if predPixelCount > 0 {
        var ups := netUp.value.stages;
        var y2 := levels[|levels| - 2];
        var p := -3;
        for k := 0 to |ups|
          invariant p == -3 - k
          invariant PixelLoop(ups[..k], levels, merge) == Ok(y2)
        {
          assert ups[..k + 1][..k] == ups[..k];
          if |levels| + p < 0 {
            r := Err(LevelIndex(p));
            PixelPrefixErr(ups, k + 1, levels, merge);
            return;
          }
          var step := Call2(ups[k], k, y2, levels[|levels| + p], merge);
          if step.Err? {
            r := Err(step.error);
            PixelPrefixErr(ups, k + 1, levels, merge);
            return;
          }
          y2 := step.value;
          p := p - 1;
        }
        assert ups[..|ups|] == ups;
        var pix := Call1(Head(netUp.value.head), y2, run);
        pixelPreds := Some(pix.value);
        assert Prediction(img, run, merge, act) == Ok(Output(linePreds, pointPreds, pixelPreds));
      }
      r := Ok(Output(linePreds, pointPreds, pixelPreds));
    }
  }

  /** The outcome of `forward`: a failure of the down path is the failure of the pass; a successful pass
      has one entry per line type and per point type, and a pixel map exactly when there are pixel types. */
  lemma PredictionOutcome(d: Detector, img: Tensor, run: Runner, merge: Merger, act: Activations)
    requires d.Valid()
    ensures var r := d.Prediction(img, run, merge, act);
      && (Levels(d.netDown, img, run).Err? ==> r == Err(Levels(d.netDown, img, run).error))
      && (r.Ok? ==> Levels(d.netDown, img, run).Ok?)
      && (r.Ok? ==> |r.value.lines| == d.predLineCount && |r.value.points| == d.predPointCount)
      && (r.Ok? ==> (r.value.pixels.Some? <==> d.predPixelCount > 0))
  {
  }

  /** End to end: after a successful forward pass, instance `c*rows + r` of line type `i` in batch element
      `b` is decoded from line type `i`'s own five channels of the trunk output at cell (r, c). */
  lemma PredictionLineAt(d: Detector, img: Tensor, run: Runner, merge: Merger, act: Activations,
                         i: nat, b: nat, r: nat, c: nat)
    requires d.Valid() && d.Prediction(img, run, merge, act).Ok? && i < d.predLineCount
    requires var y := Levels(d.netDown, img, run).value[|d.netDown|]; b < |y.data| && r < y.rows && c < y.cols
    ensures var y := Levels(d.netDown, img, run).value[|d.netDown|];
            var m := y.data[b];
            var o := LineOffset(i);
            var l := d.Prediction(img, run, merge, act).value.lines[i][b];
      && Shaped(y) && o + 5 <= y.ch
      && InstanceIndex(r, c, y.rows) < |l|
      && l[InstanceIndex(r, c, y.rows)]
           == [act.sigmoid(m[o][r][c]), m[o + 1][r][c] + Prior(c, d.scale as real),
               m[o + 2][r][c] + Prior(r, d.scale as real), m[o + 3][r][c], m[o + 4][r][c]]
  {
    var y := Levels(d.netDown, img, run).value[|d.netDown|];
    var o := LineOffset(i);
    LineSlotOwned(d.predLineCount, d.predPointCount, i, 4);
    assert Shaped(y) && y.ch == d.numOutEnd;
    var out := d.Prediction(img, run, merge, act).value;
    assert out.lines[i] == LineInstances(y, o, d.scale as real, act);
    assert out.lines[i][b] == InstanceList(LineMap(y.data[b], o, y.ch, y.rows, y.cols, d.scale as real, act), 5, y.rows, y.cols);
    LineAt(y.data[b], o, y.ch, y.rows, y.cols, d.scale as real, act, r, c);
  }

  /** End to end: after a successful forward pass, instance `c*rows + r` of point type `i` in batch element
      `b` is decoded from point type `i`'s own three channels, which lie after every line block. */
  lemma PredictionPointAt(d: Detector, img: Tensor, run: Runner, merge: Merger, act: Activations,
                          i: nat, b: nat, r: nat, c: nat)
    requires d.Valid() && d.Prediction(img, run, merge, act).Ok? && i < d.predPointCount
    requires var y := Levels(d.netDown, img, run).value[|d.netDown|]; b < |y.data| && r < y.rows && c < y.cols
    ensures var y := Levels(d.netDown, img, run).value[|d.netDown|];
            var m := y.data[b];
            var o := PointOffset(d.predLineCount, i);
            var l := d.Prediction(img, run, merge, act).value.points[i][b];
      && Shaped(y) && 5 * d.predLineCount <= o && o + 3 <= y.ch
      && InstanceIndex(r, c, y.rows) < |l|
      && l[InstanceIndex(r, c, y.rows)]
           == [act.sigmoid(m[o][r][c]), m[o + 1][r][c] + Prior(c, d.scale as real), m[o + 2][r][c] + Prior(r, d.scale as real)]
  {
    var y := Levels(d.netDown, img, run).value[|d.netDown|];
    var o := PointOffset(d.predLineCount, i);
    PointSlotOwned(d.predLineCount, d.predPointCount, i, 2);
    assert Shaped(y) && y.ch == d.numOutEnd;
    var out := d.Prediction(img, run, merge, act).value;
    assert out.points[i] == PointInstances(y, o, d.scale as real, act);
    assert out.points[i][b] == InstanceList(PointMap(y.data[b], o, y.ch, y.rows, y.cols, d.scale as real, act), 3, y.rows, y.cols);
    PointAt(y.data[b], o, y.ch, y.rows, y.cols, d.scale as real, act, r, c);
  }

  /** A failure part-way down the module list is the failure of the whole list. */
  lemma {:induction false} LevelsPrefixErr(modules: seq<Module>, j: nat, img: Tensor, run: Runner)
    requires j <= |modules| && Levels(modules[..j], img, run).Err?
    ensures Levels(modules, img, run) == Levels(modules[..j], img, run)
    decreases |modules| - j
  {
    if j == |modules| {
      assert modules[..j] == modules;
    } else {
      var init := modules[..|modules| - 1];
      assert init[..j] == modules[..j];
      LevelsPrefixErr(init, j, img, run);
    }
  }

  /** A failure part-way along the up path is the failure of the whole path. */
  lemma {:induction false} PixelPrefixErr(ups: seq<Stage>, j: nat, levels: seq<Tensor>, merge: Merger)
    requires |levels| >= 2 && j <= |ups| && PixelLoop(ups[..j], levels, merge).Err?
    ensures PixelLoop(ups, levels, merge) == PixelLoop(ups[..j], levels, merge)
    decreases |ups| - j
  {
    if j == |ups| {
      assert ups[..j] == ups;
    } else {
      var init := ups[..|ups| - 1];
      assert init[..j] == ups[..j];
      PixelPrefixErr(init, j, levels, merge);
    }
  }

  /** Construction: `make_layers` on the down configuration, the final convolution, the scale loop, and
      with pixel types `make_layers` on the up configuration and the pixel convolution. */
  method NewDetector(config: Config) returns (r: Result<Detector, Error>)
    ensures r.Ok? <==> Network(config).Ok?
    ensures r.Err? ==> r.error == Network(config).error
    ensures r.Ok? ==> fresh(r.value) && r.value.Valid()
    ensures r.Ok? ==> r.value.predLineCount == config.lineTypes && r.value.predPointCount == config.pointTypes
                      && r.value.predPixelCount == config.pixelTypes
    ensures r.Ok? ==> Net(r.value.netDown, r.value.netUp, r.value.scale, r.value.numOutEnd) == Network(config).value
  {
    var bn := config.normType == Some("batch_norm");
    var wn := config.normType == Some("weight_norm");
    ReaderSound(bn, wn);
    var layersCfg := Or(config.downCfg, DefaultDown());
    var down := MakeLayers(TokenReader(bn, wn), layersCfg);
    if down.Err? {
      return Err(down.error);
    }
    var numOutEnd := NumOutEnd(config.lineTypes, config.pointTypes);
    var netDown := AsModules(down.value.stages) + [Head(HeadConv(down.value.outCh, numOutEnd))];
    var scale := CountScale(layersCfg);
    var netUp := None;
    if config.pixelTypes > 0 {
      var up := MakeLayers(TokenReader(bn, wn), Or(config.upCfg, DefaultUp()));
      if up.Err? {
        return Err(up.error);
      }
      netUp := Some(UpPath(up.value.stages, HeadConv(up.value.outCh, config.pixelTypes)));
    }
    var net := Net(netDown, netUp, scale, numOutEnd);
    assert Network(config) == Ok(net);
    var d := new Detector(config, net);
    r := Ok(d);
  }
}
