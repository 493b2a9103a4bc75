/** `make_layers` of model/detector.py: how the direct variant reads a token. It knows only 'M', 'U+<n>'
    and integers; every other string reaches `nn.Conv2d` as a channel count and fails there. */
module DetectorLayers {
  import opened Wrappers
  import opened Tokens
  import opened Layers
  import opened Stages
  import opened Compiler

  /** The 3x3, padding-1 convolution to `v` channels and what follows it: batch norm and a ReLU, or a ReLU.
      The convolution is built first, so a negative width fails there, before either flag is looked at.
      With the `weight_norm` flag (and no batch norm) the flag itself is called as a function and fails. */
  function ConvGroup(c: int, v: int, batchNorm: bool, weightNorm: bool): (r: Result<seq<Layer>, Error>)
    ensures r.Err? <==> c < 0 || v < 0 || (!batchNorm && weightNorm)
    ensures r.Err? ==> r.error == if v < 0 then NegativeDimension(v) else if c < 0 then NegativeDimension(c) else NotCallable
    ensures r.Ok? ==> && |r.value| == (if batchNorm then 3 else 2)
                      && r.value[0] == Conv2d(c, v, 3, 1, 1, false)
                      && r.value[|r.value| - 1] == ReLU
                      && (batchNorm ==> r.value[1] == BatchNorm2d(v))
                      && NoBoundaryFrom(r.value, 0)
                      && ChainOut(c, r.value) == Some(v)
  {
    var conv := Conv2d(c, v, 3, 1, 1, false);
    assert ChainOut(v, [ReLU]) == Some(v);
    assert [conv, BatchNorm2d(v), ReLU][1..] == [BatchNorm2d(v), ReLU];
    assert [BatchNorm2d(v), ReLU][1..] == [ReLU];
    if ConvRefusal(c, v).Some? then Err(ConvRefusal(c, v).value)
    else if batchNorm then Ok([conv, BatchNorm2d(v), ReLU])
    else if weightNorm then Err(NotCallable)
    else Ok([conv, ReLU])
  }

  /** One token's effect on `c` current channels. */
  function Decode(t: Token, c: int, batchNorm: bool, weightNorm: bool): (r: Result<Action, Error>)
    ensures SoundAt(r, c)
    ensures r == Ok(ClosePool) <==> t == Str("M")
    ensures t.Str? && t.s != "M" && !HasPrefix(t.s, "U+") ==> r == Err(NotAChannelCount(t.s))
    ensures t.Str? && HasPrefix(t.s, "U+") ==>
      (r.Ok? <==> IsIntText(t.s[2..])) && (r.Err? ==> r.error == BadInteger(t.s))
    ensures t.Int? ==> (r.Ok? <==> c >= 0 && t.n >= 0 && (batchNorm || !weightNorm))
  {
    match t
    case Str(v) =>
      if v == "M" then Ok(ClosePool)
      else if HasPrefix(v, "U+") then
        match ParseInt(v[2..])
        case Some(n) =>
          assert ChainOut(n + c, []) == Some(n + c);
          Ok(OpenUp(Text(v), n))
        case None => Err(BadInteger(v))
      else Err(NotAChannelCount(v))
    case Int(v) =>
      var ls :- ConvGroup(c, v, batchNorm, weightNorm);
      Ok(Append(ls, Count(v), v))
  }

  /** The direct variant's reader for given `batch_norm` and `weight_norm` flags. */
  function TokenReader(batchNorm: bool, weightNorm: bool): Compiler.Reader {
    (t, c) => Decode(t, c, batchNorm, weightNorm)
  }

  lemma ReaderSound(batchNorm: bool, weightNorm: bool)
    ensures Sound(TokenReader(batchNorm, weightNorm))
  {
    forall t, c
      ensures SoundAt(TokenReader(batchNorm, weightNorm)(t, c), c)
    {
      assert TokenReader(batchNorm, weightNorm)(t, c) == Decode(t, c, batchNorm, weightNorm);
    }
  }

  /** The channel trace of the direct variant: an integer `v` records `v`, 'M' records nothing,
      'U+<n>' records `n` plus the current width; and an integer token emits a conv from the current width. */
  lemma DecodeTrace(t: Token, c: int, batchNorm: bool, weightNorm: bool)
    requires Decode(t, c, batchNorm, weightNorm).Ok?
    ensures var a := Decode(t, c, batchNorm, weightNorm).value;
      && (t == Str("M") ==> Traced(a, c) == [])
      && (t.Str? && t.s != "M" ==> HasPrefix(t.s, "U+") && ParseInt(t.s[2..]).Some?
                                    && Traced(a, c) == [ParseInt(t.s[2..]).value + c])
      && (t.Int? ==> Traced(a, c) == [t.n] && Emitted(a, c)[0] == Conv2d(c, t.n, 3, 1, 1, false))
  {
  }

  /** `[3, -5]` fails on the convolution's weight of size -5, even with only the `weight_norm` flag set,
      because the convolution is built before the flag is used. */
  lemma NegativeConvRefused(batchNorm: bool, weightNorm: bool)
    ensures Sound(TokenReader(batchNorm, weightNorm))
    ensures Compile(TokenReader(batchNorm, weightNorm), [Int(3), Int(-5)]) == Err(NegativeDimension(-5))
  {
    ReaderSound(batchNorm, weightNorm);
    FirstTokenRefused(TokenReader(batchNorm, weightNorm), 3, Int(-5));
  }
}
