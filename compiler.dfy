/** The loop both `make_layers` functions share, parameterised by the way each file reads one token:
    a reference reading of a token list (every emitted layer and trace entry, no stages), the fold over
    the builder state, and the imperative loop proved equal to the fold. */
module Compiler {
  import opened Wrappers
  import opened Tokens
  import opened Layers
  import opened Stages

  /** How a `make_layers` reads one token on `c` current channels. */
  type Reader = (Token, int) -> Result<Action, Error>

  /** A reader only yields actions the builder accepts, and the layers an action emits are wired from
      the current width to the width it records in the channel trace. */
  ghost predicate Sound(read: Reader) {
    forall t, c :: SoundAt(read(t, c), c)
  }

  predicate SoundAt(r: Result<Action, Error>, c: int) {
    r.Ok? ==> ActionOk(r.value) && ChainOut(c, Emitted(r.value, c)) == Some(ActionOut(r.value, c))
  }

  /** The reference reading of a token list: every layer it emits and every trace entry it appends,
      left to right, with no stages; fails with the first token's failure. */
  datatype Expansion = Expansion(layers: seq<Layer>, trace: seq<int>)

  function Expand(read: Reader, c: int, ts: seq<Token>): (r: Result<Expansion, Error>)
    requires Sound(read)
    ensures r.Ok? ==> ChainOut(c, r.value.layers) == Some(Last([c] + r.value.trace))
    decreases |ts|
  {
    if ts == [] then Ok(Expansion([], []))
    else
      var a :- read(ts[0], c);
      var rest :- Expand(read, ActionOut(a, c), ts[1..]);
      ChainOutAppend(c, Emitted(a, c), rest.layers);
      assert Last([c] + (Traced(a, c) + rest.trace)) == Last([ActionOut(a, c)] + rest.trace);
      Ok(Expansion(Emitted(a, c) + rest.layers, Traced(a, c) + rest.trace))
  }

  /** The loop of `make_layers` as a fold over the tokens after the head. */
  function Run(read: Reader, b: Builder, ts: seq<Token>): (r: Result<Builder, Error>)
    requires Sound(read) && Inv(b)
    ensures r.Ok? ==> Inv(r.value)
    decreases |ts|
  {
    if ts == [] then Ok(b)
    else
      var a :- read(ts[0], Last(b.channels));
      ApplyCorrect(b, a);
      Run(read, Apply(b, a), ts[1..])
  }

  /** What `make_layers` returns: the stages and `in_channels[-1]`. */
  datatype Compiled = Compiled(stages: seq<Stage>, outCh: int)

  /** `make_layers`: the head is the input width. An empty list fails on `cfg[0]`; a string head is refused
      here, where the source only fails once the width is first used by a layer. */
  function Compile(read: Reader, cfg: seq<Token>): Result<Compiled, Error>
    requires Sound(read)
  {
    if |cfg| == 0 then Err(EmptyConfig)
    else if cfg[0].Str? then Err(HeadNotChannelCount)
    else
      StartInv(cfg[0].n);
      var b :- Run(read, Start(cfg[0].n), cfg[1..]);
      Ok(Compiled(Flush(b), Last(b.channels)))
  }

  /** A configuration whose one token after the head is refused fails with that token's error. */
  lemma FirstTokenRefused(read: Reader, c: int, t: Token)
    requires Sound(read) && read(t, c).Err?
    ensures Compile(read, [Int(c), t]) == Err(read(t, c).error)
  {
    StartInv(c);
    assert [Int(c), t][1..] == [t];
    RunStep(read, Start(c), [t]);
  }

  /** The fold agrees with the reference reading: same failure, the same layers in the same order, the same trace. */
  predicate Agrees(b: Builder, r: Result<Builder, Error>, x: Result<Expansion, Error>) {
    && (r.Ok? <==> x.Ok?)
    && (r.Err? && x.Err? ==> r.error == x.error)
    && (r.Ok? && x.Ok? ==>
          Flatten(r.value.modules) + r.value.layers == Flatten(b.modules) + b.layers + x.value.layers
          && r.value.channels == b.channels + x.value.trace)
  }

  /** One step of the fold: a token that reads is applied, one that does not ends the fold with its error. */
  lemma RunStep(read: Reader, b: Builder, ts: seq<Token>)
    requires Sound(read) && Inv(b) && ts != []
    ensures var d := read(ts[0], Last(b.channels));
      && (d.Err? ==> Run(read, b, ts) == Err(d.error))
      && (d.Ok? ==> Inv(Apply(b, d.value)) && Run(read, b, ts) == Run(read, Apply(b, d.value), ts[1..]))
  {
    var d := read(ts[0], Last(b.channels));
    if d.Ok? {
      ApplyCorrect(b, d.value);
    }
  }

  /** One step of the reference reading. */
  lemma ExpandStep(read: Reader, c: int, ts: seq<Token>)
    requires Sound(read) && ts != []
    ensures var d := read(ts[0], c);
      && (d.Err? ==> Expand(read, c, ts) == Err(d.error))
      && (d.Ok? ==> var rest := Expand(read, ActionOut(d.value, c), ts[1..]);
           && (rest.Err? ==> Expand(read, c, ts) == Err(rest.error))
           && (rest.Ok? ==> Expand(read, c, ts) == Ok(Expansion(Emitted(d.value, c) + rest.value.layers, Traced(d.value, c) + rest.value.trace))))
  {
  }

  lemma {:induction false} RunExpand(read: Reader, b: Builder, ts: seq<Token>)
    requires Sound(read) && Inv(b)
    ensures Agrees(b, Run(read, b, ts), Expand(read, Last(b.channels), ts))
    decreases |ts|
  {
    if ts != [] {
      var c := Last(b.channels);
      var d := read(ts[0], c);
      RunStep(read, b, ts);
      ExpandStep(read, c, ts);
      if d.Ok? {
        var a := d.value;
        ApplyCorrect(b, a);
        var b' := Apply(b, a);
        assert Last(b'.channels) == ActionOut(a, c);
        RunExpand(read, b', ts[1..]);
        var r := Run(read, b', ts[1..]);
        var x := Expand(read, ActionOut(a, c), ts[1..]);
        if r.Ok? {
          var before := Flatten(b.modules) + b.layers;
          assert Flatten(b'.modules) + b'.layers == before + Emitted(a, c);
          AppendAssoc(before, Emitted(a, c), x.value.layers);
          AppendAssoc(b.channels, Traced(a, c), x.value.trace);
        }
      }
    } else {
      assert Flatten(b.modules) + b.layers + [] == Flatten(b.modules) + b.layers;
      assert b.channels + [] == b.channels;
    }
  }

  lemma CompileRun(read: Reader, cfg: seq<Token>)
    requires Sound(read) && |cfg| > 0 && cfg[0].Int?
    ensures var run := Run(read, Start(cfg[0].n), cfg[1..]);
      && (run.Err? ==> Compile(read, cfg) == Err(run.error))
      && (run.Ok? ==> Compile(read, cfg) == Ok(Compiled(Flush(run.value), Last(run.value.channels))))
  {
    StartInv(cfg[0].n);
  }

  lemma AppendAssoc<T>(p: seq<T>, q: seq<T>, r: seq<T>)
    ensures (p + q) + r == p + (q + r)
  {
  }

  /** The compiler's contract: it fails exactly when the reference reading fails, with the same error;
      otherwise its stages are well formed, hold exactly the emitted layers in token order, are wired
      from the head's width to the returned width, and the returned width is the last trace entry. */
  lemma CompileCorrect(read: Reader, cfg: seq<Token>)
    requires Sound(read) && |cfg| > 0 && cfg[0].Int?
    ensures var r := Compile(read, cfg); var x := Expand(read, cfg[0].n, cfg[1..]);
      && (r.Ok? <==> x.Ok?)
      && (r.Err? ==> r.error == x.error)
      && (r.Ok? ==> && WellFormed(r.value.stages)
                    && Flatten(r.value.stages) == x.value.layers
                    && ChainOut(cfg[0].n, Flatten(r.value.stages)) == Some(r.value.outCh)
                    && r.value.outCh == Last([cfg[0].n] + x.value.trace))
  {
    var c := cfg[0].n;
    StartInv(c);
    RunExpand(read, Start(c), cfg[1..]);
    var run := Run(read, Start(c), cfg[1..]);
    if run.Ok? {
      FlushCorrect(run.value);
    }
  }

  /** `make_layers` as the source writes it: one pass over the tokens that updates `modules`, `layers`,
      `layerCodes` and `in_channels`, then the final flush. */
  method MakeLayers(read: Reader, cfg: seq<Token>) returns (r: Result<Compiled, Error>)
    requires Sound(read)
    ensures r == Compile(read, cfg)
    ensures r.Ok? ==> WellFormed(r.value.stages) && ChainOut(cfg[0].n, Flatten(r.value.stages)) == Some(r.value.outCh)
  {
    if |cfg| == 0 {
      return Err(EmptyConfig);
    }
    if cfg[0].Str? {
      return Err(HeadNotChannelCount);
    }
    var modules: seq<Stage> := [];
    var inChannels: seq<int> := [cfg[0].n];
    var layers: seq<Layer> := [];
    var layerCodes: seq<Code> := [];
    StartInv(cfg[0].n);
    var i := 1;
    while i < |cfg|
      invariant 1 <= i <= |cfg|
      invariant Inv(Builder(modules, layers, layerCodes, inChannels))
      invariant Run(read, Start(cfg[0].n), cfg[1..]) == Run(read, Builder(modules, layers, layerCodes, inChannels), cfg[i..])
    {
      ghost var b := Builder(modules, layers, layerCodes, inChannels);
      assert cfg[i..][0] == cfg[i] && cfg[i..][1..] == cfg[i + 1..];
      var c := inChannels[|inChannels| - 1];
      var step := read(cfg[i], c);
      if step.Err? {
        r := Err(step.error);
        CompileRun(read, cfg);
        return;
      }
      RunStep(read, b, cfg[i..]);
      modules, layers, layerCodes, inChannels := Step(modules, layers, layerCodes, inChannels, step.value);
      i := i + 1;
    }
    modules := Closed(modules, layers, layerCodes, inChannels);
    r := Ok(Compiled(modules, inChannels[|inChannels| - 1]));
    CompileRun(read, cfg);
    CompileCorrect(read, cfg);
  }

  /** The body of the loop of `make_layers` for one read token: the list updates that token makes. */
  method Step(modules: seq<Stage>, layers: seq<Layer>, layerCodes: seq<Code>, inChannels: seq<int>, a: Action)
    returns (modules': seq<Stage>, layers': seq<Layer>, layerCodes': seq<Code>, inChannels': seq<int>)
    requires Inv(Builder(modules, layers, layerCodes, inChannels)) && ActionOk(a)
    ensures Builder(modules', layers', layerCodes', inChannels') == Apply(Builder(modules, layers, layerCodes, inChannels), a)
  {
    modules', layers', layerCodes', inChannels' := modules, layers, layerCodes, inChannels;
    var c := inChannels[|inChannels| - 1];
    match a {
      case ClosePool =>
        modules' := modules + [Sequential(layers)];
        layers' := [MaxPool2d];
        layerCodes' := [Text("M")];
      case OpenUp(code, n) =>
        modules' := Closed(modules, layers, layerCodes, inChannels);
        layers' := [Up(c, n)];
        layerCodes' := [code];
        inChannels' := inChannels + [n + c];
      case NoteCode(code) =>
        layerCodes' := layerCodes + [code];
      case Append(ls, code, out) =>
        layers' := layers + ls;
        layerCodes' := layerCodes + [code];
        inChannels' := inChannels + [out];
    }
  }

  /** Closing the open stage, as `U+` and the final flush do: nothing when it is empty, an up block with the
      rest attached when it opened with a `U+` code, a Sequential otherwise. */
  method Closed(modules: seq<Stage>, layers: seq<Layer>, layerCodes: seq<Code>, inChannels: seq<int>) returns (modules': seq<Stage>)
    requires Inv(Builder(modules, layers, layerCodes, inChannels))
    ensures modules' == Flush(Builder(modules, layers, layerCodes, inChannels))
  {
    modules' := modules;
    if |layers| > 0 {
      if IsUpCode(layerCodes[0]) {
        modules' := modules + [UpMerge(layers[0].inCh, layers[0].skipCh, layers[1..])];
      } else {
        modules' := modules + [Sequential(layers)];
      }
    }
  }
}
