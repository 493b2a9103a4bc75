/** The stage accumulator both `make_layers` functions share: the list of finished modules, the open
    stage's layers and their codes, and the running channel trace; and the rule that closes a stage. */
module Stages {
  import opened Wrappers
  import opened Tokens
  import opened Layers

  /** A finished module: an `nn.Sequential` of layers, or an up block with its trailing convolutions attached. */
  datatype Stage = Sequential(layers: seq<Layer>) | UpMerge(inCh: int, skipCh: int, conv: seq<Layer>)

  /** The layers of a stage in the order their forward applies them. */
  function StageLayers(s: Stage): seq<Layer> {
    match s
    case Sequential(ls) => ls
    case UpMerge(i, k, conv) => [Up(i, k)] + conv
  }

  /** All layers of a stage list, stage after stage. */
  function Flatten(ss: seq<Stage>): seq<Layer>
    decreases |ss|
  {
    if ss == [] then [] else Flatten(ss[..|ss| - 1]) + StageLayers(ss[|ss| - 1])
  }

  lemma FlattenSnoc(ss: seq<Stage>, s: Stage)
    ensures Flatten(ss + [s]) == Flatten(ss) + StageLayers(s)
  {
    assert (ss + [s])[..|ss|] == ss;
  }

  /** An entry of `layerCodes`: a token string, an output width, or (anchor variant) a ReLU module. */
  datatype Code = Text(s: string) | Count(n: int) | ReluModule

  /** `type(code)==str and code[:2]=='U+'`. */
  predicate IsUpCode(c: Code) {
    c.Text? && HasPrefix(c.s, "U+")
  }

  /** Layers that begin a stage: pooling and up blocks. */
  predicate IsBoundary(l: Layer) {
    l.MaxPool2d? || l.Up?
  }

  predicate NoBoundaryFrom(ls: seq<Layer>, from: nat) {
    forall j :: from <= j < |ls| ==> !IsBoundary(ls[j])
  }

  /** The local state of `make_layers`: `modules`, `layers`, `layerCodes` and `in_channels`. */
  datatype Builder = Builder(modules: seq<Stage>, layers: seq<Layer>, codes: seq<Code>, channels: seq<int>)

  function Start(inCh: int): Builder {
    Builder([], [], [], [inCh])
  }

  function Last(s: seq<int>): int
    requires |s| > 0
  {
    s[|s| - 1]
  }

  /** Stage `k` is followed by a pooling stage; after the last finished stage, the open layers decide. */
  predicate PoolFollows(ss: seq<Stage>, k: int, open: seq<Layer>)
    requires 0 <= k < |ss|
  {
    if k + 1 < |ss| then ss[k + 1].Sequential? && |ss[k + 1].layers| > 0 && ss[k + 1].layers[0] == MaxPool2d
    else |open| > 0 && open[0] == MaxPool2d
  }

  /** The shape of stage `k`: a boundary layer only at its head; every stage but the first starts at one;
      the first never starts with pooling; an empty stage, or an up block left without its convolutions,
      only ever precedes a pooling stage; an attached up block never does. */
  predicate StageShaped(ss: seq<Stage>, k: int, open: seq<Layer>)
    requires 0 <= k < |ss|
  {
    match ss[k]
    case Sequential(ls) =>
      && NoBoundaryFrom(ls, 1)
      && (k > 0 ==> |ls| > 0 && IsBoundary(ls[0]))
      && (k == 0 && |ls| > 0 ==> ls[0] != MaxPool2d)
      && (|ls| == 0 || ls[0].Up? ==> PoolFollows(ss, k, open))
    case UpMerge(_, _, conv) =>
      && NoBoundaryFrom(conv, 0)
      && !PoolFollows(ss, k, open)
  }

  predicate StagesShaped(ss: seq<Stage>, open: seq<Layer>) {
    forall k :: 0 <= k < |ss| ==> StageShaped(ss, k, open)
  }

  /** The shape of every stage list `make_layers` returns. */
  predicate WellFormed(ss: seq<Stage>) {
    StagesShaped(ss, [])
  }

  /** The open stage starts with an up block exactly when its first code is a `U+` token. */
  predicate Consistent(layers: seq<Layer>, codes: seq<Code>) {
    && (|layers| > 0 ==> |codes| > 0)
    && (|codes| > 0 ==> (IsUpCode(codes[0]) <==> |layers| > 0 && layers[0].Up?))
  }

  predicate Inv(b: Builder) {
    && |b.channels| > 0
    && Consistent(b.layers, b.codes)
    && NoBoundaryFrom(b.layers, 1)
    && (|b.modules| > 0 ==> |b.layers| > 0 && IsBoundary(b.layers[0]))
    && (|b.modules| == 0 && |b.layers| > 0 ==> b.layers[0] != MaxPool2d)
    && StagesShaped(b.modules, b.layers)
  }

  lemma StartInv(inCh: int)
    ensures Inv(Start(inCh)) && Flatten(Start(inCh).modules) == []
  {
  }

  /** Closing a non-empty open stage by a `U+` token or at the end: when the stage began with a `U+` code
      the rest of its layers become the up block's convolutions, otherwise the layers become one Sequential. */
  function Close(layers: seq<Layer>, codes: seq<Code>): (s: Stage)
    requires |layers| > 0 && Consistent(layers, codes)
    ensures StageLayers(s) == layers
    ensures s.UpMerge? <==> layers[0].Up?
  {
    if IsUpCode(codes[0]) then UpMerge(layers[0].inCh, layers[0].skipCh, layers[1..]) else Sequential(layers)
  }

  /** What one configuration token does to the builder; each `make_layers` decides it by its own rules. */
  datatype Action =
    | ClosePool                                    // 'M'
    | OpenUp(code: Code, skip: int)                // 'U+<skip>'
    | NoteCode(code: Code)                         // a code recorded without any layer
    | Append(ls: seq<Layer>, code: Code, out: int) // layers appended to the open stage

  predicate ActionOk(a: Action) {
    match a
    case ClosePool => true
    case OpenUp(code, _) => IsUpCode(code)
    case NoteCode(code) => !IsUpCode(code)
    case Append(ls, code, _) => !IsUpCode(code) && NoBoundaryFrom(ls, 0)
  }

  /** The layers an action contributes, wherever they end up. */
  function Emitted(a: Action, c: int): seq<Layer> {
    match a
    case ClosePool => [MaxPool2d]
    case OpenUp(_, n) => [Up(c, n)]
    case NoteCode(_) => []
    case Append(ls, _, _) => ls
  }

  /** The entries an action appends to the channel trace. */
  function Traced(a: Action, c: int): seq<int> {
    match a
    case ClosePool => []
    case OpenUp(_, n) => [n + c]
    case NoteCode(_) => []
    case Append(_, _, out) => [out]
  }

  /** The channel count after an action. */
  function ActionOut(a: Action, c: int): int {
    Last([c] + Traced(a, c))
  }

  /** One token's effect on the builder state: 'M' always wraps the open layers, even none, into a
      Sequential and opens `[MaxPool]`; 'U+' closes only a non-empty stage and opens an up block on the
      current width, which then grows by the skip width. */
  function Apply(b: Builder, a: Action): Builder
    requires Inv(b) && ActionOk(a)
  {
    match a
    case ClosePool => Builder(b.modules + [Sequential(b.layers)], [MaxPool2d], [Text("M")], b.channels)
    case OpenUp(code, n) =>
      var c := Last(b.channels);
      var modules := if |b.layers| > 0 then b.modules + [Close(b.layers, b.codes)] else b.modules;
      Builder(modules, [Up(c, n)], [code], b.channels + [n + c])
    case NoteCode(code) => b.(codes := b.codes + [code])
    case Append(ls, code, out) => Builder(b.modules, b.layers + ls, b.codes + [code], b.channels + [out])
  }

  /** The final flush: the open stage, when not empty, is closed like a `U+` token closes it. */
  function Flush(b: Builder): seq<Stage>
    requires Inv(b)
  {
    if |b.layers| > 0 then b.modules + [Close(b.layers, b.codes)] else b.modules
  }

  /** Every action keeps the builder invariant, adds its layers after all layers so far, and extends the trace. */
  lemma ApplyCorrect(b: Builder, a: Action)
    requires Inv(b) && ActionOk(a)
    ensures Inv(Apply(b, a))
    ensures Flatten(Apply(b, a).modules) + Apply(b, a).layers == Flatten(b.modules) + b.layers + Emitted(a, Last(b.channels))
    ensures Apply(b, a).channels == b.channels + Traced(a, Last(b.channels))
  {
    var b' := Apply(b, a);
    match a {
      case ClosePool =>
        FlattenSnoc(b.modules, Sequential(b.layers));
        PoolShape(b);
      case OpenUp(code, n) =>
        if |b.layers| > 0 {
          FlattenSnoc(b.modules, Close(b.layers, b.codes));
          UpShape(b, code, n);
        }
      case NoteCode(code) =>
      case Append(ls, code, out) =>
        assert b'.layers[..|b.layers|] == b.layers;
        assert forall j :: |b.layers| <= j < |b'.layers| ==> b'.layers[j] == ls[j - |b.layers|];
        assert forall k :: 0 <= k < |b.modules| ==> PoolFollows(b'.modules, k, b'.layers) == PoolFollows(b.modules, k, b.layers);
        assert forall k :: 0 <= k < |b.modules| ==> StageShaped(b.modules, k, b.layers) ==> StageShaped(b'.modules, k, b'.layers);
    }
  }

  lemma PoolShape(b: Builder)
    requires Inv(b)
    ensures StagesShaped(b.modules + [Sequential(b.layers)], [MaxPool2d])
  {
    var ss := b.modules + [Sequential(b.layers)];
    var m := |b.modules|;
    forall k | 0 <= k < |ss|
      ensures StageShaped(ss, k, [MaxPool2d])
    {
      if k < m {
        assert ss[k] == b.modules[k];
        assert PoolFollows(ss, k, [MaxPool2d]) == PoolFollows(b.modules, k, b.layers);
        assert StageShaped(b.modules, k, b.layers);
      }
    }
  }

  lemma UpShape(b: Builder, code: Code, n: int)
    requires Inv(b) && |b.layers| > 0
    ensures StagesShaped(b.modules + [Close(b.layers, b.codes)], [Up(Last(b.channels), n)])
  {
    var s := Close(b.layers, b.codes);
    var ss := b.modules + [s];
    var open := [Up(Last(b.channels), n)];
    var m := |b.modules|;
    forall k | 0 <= k < |ss|
      ensures StageShaped(ss, k, open)
    {
      if k < m {
        assert ss[k] == b.modules[k];
        assert PoolFollows(ss, k, open) == PoolFollows(b.modules, k, b.layers);
        assert StageShaped(b.modules, k, b.layers);
      } else {
        assert ss[k] == s;
        assert !PoolFollows(ss, k, open);
        if s.UpMerge? {
          assert forall j :: 0 <= j < |s.conv| ==> s.conv[j] == b.layers[j + 1];
        }
      }
    }
  }

  /** The flushed stage list is well formed and holds the layers accumulated so far, in order. */
  lemma FlushCorrect(b: Builder)
    requires Inv(b)
    ensures WellFormed(Flush(b))
    ensures Flatten(Flush(b)) == Flatten(b.modules) + b.layers
  {
    var ss := Flush(b);
    var m := |b.modules|;
    if |b.layers| > 0 {
      var s := Close(b.layers, b.codes);
      FlattenSnoc(b.modules, s);
      forall k | 0 <= k < |ss|
        ensures StageShaped(ss, k, [])
      {
        if k < m {
          assert ss[k] == b.modules[k];
          assert PoolFollows(ss, k, []) == PoolFollows(b.modules, k, b.layers);
          assert StageShaped(b.modules, k, b.layers);
        } else {
          assert ss[k] == s;
          assert !PoolFollows(ss, k, []);
          if s.UpMerge? {
            assert forall j :: 0 <= j < |s.conv| ==> s.conv[j] == b.layers[j + 1];
          }
        }
      }
    } else {
      assert ss == [];
    }
  }
}
