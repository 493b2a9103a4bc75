/** `make_layers` of model/yolo_box_detector.py: the token parser, each token's effect, the
    left-to-right fold, the imperative loop, and the scale counted from the same tokens. */
module YoloLayers {
  import opened Wrappers
  import opened Tokens
  import opened Layers
  import opened Stages
  import opened Compiler

  /** A parsed configuration token. */
  datatype Instr =
    | Pool                         // 'M'
    | Relu                         // 'ReLU'
    | UpSkip(skip: int)            // 'U+<skip>': up block merged with a skip map of <skip> channels
    | Res(out: int)                // 'R<out>': residual block
    | Conv5(out: int)              // 'C<out>': 5x5 convolution, padding 2
    | DownRes(out: int)            // 'D<out>': downsampling residual block
    | Transposed(out: int)         // 'U<out>': 2x transpose convolution
    | Dilated(out: int)            // 'W<out>': conv group with the configured dilation
    | Kernel(size: int, out: int)  // 'k<size>-<out>': conv group with a custom kernel
    | Dilation(d: int, out: int)   // 'd<d>-<out>': conv group with a custom dilation
    | DilatedRes(d: int, out: int) // 'B<d>-<out>': residual block with a custom dilation
    | Plain(out: int)              // an integer: 3x3 conv group

  /** `int(v[1:div])` and `int(v[div+1:])` around the first '-' (`div = v.find('-')`).
      Without a '-', `int(v[div+1:])` is `int(v)`, which fails on the leading letter. */
  function SplitPair(v: string): (r: Option<(int, int)>)
    requires |v| > 0 && v[0] != '-'
    ensures r.Some? ==> r.value.0 >= 0
  {
    var div := Find(v, '-');
    if div < 0 then None
    else
      assert '-' !in v[1..div] by { assert v[1..div] == v[..div][1..]; }
      match (ParseInt(v[1..div]), ParseInt(v[div + 1..]))
      case (Some(a), Some(b)) => Some((a, b))
      case _ => None
  }

  /** The branch chain of `make_layers` on one token, before anything is built. */
  function Parse(t: Token): (r: Result<Instr, Error>)
    ensures t.Int? ==> r == Ok(Plain(t.n))
    ensures r == Ok(Pool) <==> t == Str("M")
    ensures r == Ok(Relu) <==> t == Str("ReLU")
    ensures (r.Ok? && r.value.UpSkip?) <==> t.Str? && HasPrefix(t.s, "U+") && IsIntText(t.s[2..])
    ensures t == Str("") ==> r == Err(EmptyToken)
    ensures r.Ok? && t.Str? && !r.value.UpSkip? ==> !HasPrefix(t.s, "U+")
    ensures t.Str? && t.s != "M" && |t.s| > 0 && t.s[0] !in "RCDUWkdB" ==> r == Err(UnknownToken(t.s))
    ensures r.Err? ==> r.error in {EmptyToken, BadInteger(t.s), UnknownToken(t.s)}
    ensures r.Ok? && (r.value.Kernel? || r.value.Dilation? || r.value.DilatedRes?) ==> Renderable(r.value)
  {
    match t
    case Int(v) => Ok(Plain(v))
    case Str(v) =>
      if v == "M" then Ok(Pool)
      else if v == "ReLU" then Ok(Relu)
      else if HasPrefix(v, "U+") then
        match ParseInt(v[2..]) case Some(n) => Ok(UpSkip(n)) case None => Err(BadInteger(v))
      else if |v| == 0 then Err(EmptyToken)
      else if v[0] in "RCDUW" then Lettered(v)
      else if v[0] in "kdB" then Paired(v)
      else Err(UnknownToken(v))
  }

  /** 'R', 'C', 'D', 'U' and 'W' tokens: `int(v[1:])`. */
  function Lettered(v: string): (r: Result<Instr, Error>)
    requires |v| > 0
    ensures r.Err? ==> r.error == BadInteger(v)
  {
    match ParseInt(v[1..])
    case None => Err(BadInteger(v))
    case Some(n) =>
      Ok(if v[0] == 'R' then Res(n) else if v[0] == 'C' then Conv5(n) else if v[0] == 'D' then DownRes(n)
         else if v[0] == 'U' then Transposed(n) else Dilated(n))
  }

  /** 'k', 'd' and 'B' tokens: two integers around the first '-'. */
  function Paired(v: string): (r: Result<Instr, Error>)
    requires |v| > 0 && v[0] != '-'
    ensures r.Err? ==> r.error == BadInteger(v)
    ensures r.Ok? ==> (r.value.Kernel? || r.value.Dilation? || r.value.DilatedRes?) && Renderable(r.value)
  {
    match SplitPair(v)
    case None => Err(BadInteger(v))
    case Some((a, n)) => Ok(if v[0] == 'k' then Kernel(a, n) else if v[0] == 'd' then Dilation(a, n) else DilatedRes(a, n))
  }

  /** Instructions a configuration can spell: a kernel size or dilation written before the first '-' is never negative. */
  predicate Renderable(i: Instr) {
    match i
    case Kernel(k, _) => k >= 0
    case Dilation(d, _) => d >= 0
    case DilatedRes(d, _) => d >= 0
    case _ => true
  }

  /** The configuration token that spells an instruction. */
  function Render(i: Instr): Token {
    match i
    case Pool => Str("M")
    case Relu => Str("ReLU")
    case UpSkip(n) => Str("U+" + Show(n))
    case Res(n) => Str("R" + Show(n))
    case Conv5(n) => Str("C" + Show(n))
    case DownRes(n) => Str("D" + Show(n))
    case Transposed(n) => Str("U" + Show(n))
    case Dilated(n) => Str("W" + Show(n))
    case Kernel(k, n) => Str("k" + Show(k) + "-" + Show(n))
    case Dilation(d, n) => Str("d" + Show(d) + "-" + Show(n))
    case DilatedRes(d, n) => Str("B" + Show(d) + "-" + Show(n))
    case Plain(n) => Int(n)
  }

  /** Parsing undoes rendering: every instruction a configuration can spell is read back exactly. */
  lemma ParseRender(i: Instr)
    requires Renderable(i)
    ensures Parse(Render(i)) == Ok(i)
  {
    match i
    case Pool =>
    case Relu =>
    case Plain(n) =>
    case UpSkip(n) =>
      var v := "U+" + Show(n);
      assert v[..2] == "U+" && v[2..] == Show(n);
      ParseShow(n);
    case Res(n) => LetteredParse('R', n);
    case Conv5(n) => LetteredParse('C', n);
    case DownRes(n) => LetteredParse('D', n);
    case Transposed(n) => LetteredParse('U', n);
    case Dilated(n) => LetteredParse('W', n);
    case Kernel(k, n) => PairedParse('k', k, n);
    case Dilation(d, n) => PairedParse('d', d, n);
    case DilatedRes(d, n) => PairedParse('B', d, n);
  }

  /** A one-letter token with a width reads back as the letter's instruction. */
  lemma LetteredParse(letter: char, n: int)
    requires letter in "RCDUW"
    ensures Parse(Str([letter] + Show(n))) == Ok(
      if letter == 'R' then Res(n) else if letter == 'C' then Conv5(n) else if letter == 'D' then DownRes(n)
      else if letter == 'U' then Transposed(n) else Dilated(n))
  {
    var v := [letter] + Show(n);
    var s := Show(n);
    assert v[1..] == s && v[0] == letter && v[1] == s[0];
    assert s[0] == '-' || IsDigit(s[0]);
    assert v != "M" && v != "ReLU" && !HasPrefix(v, "U+");
    ParseShow(n);
  }

  /** A letter, a non-negative number, a '-' and a width read back as the letter's instruction. */
  lemma PairedParse(letter: char, a: int, n: int)
    requires letter in "kdB" && a >= 0
    ensures Parse(Str([letter] + Show(a) + "-" + Show(n))) ==
      Ok(if letter == 'k' then Kernel(a, n) else if letter == 'd' then Dilation(a, n) else DilatedRes(a, n))
  {
    var v := [letter] + Show(a) + "-" + Show(n);
    SplitShown(letter, a, n);
    assert v[0] == letter;
    PairedDispatch(v);
  }

  /** Every token starting with 'k', 'd' or 'B' reaches the two-integer branch. */
  lemma PairedDispatch(v: string)
    requires |v| > 0 && v[0] in "kdB"
    ensures Parse(Str(v)) == Paired(v)
  {
    assert v != "M" && v != "ReLU";
    assert !HasPrefix(v, "U+") by { if |v| >= 2 { assert v[..2][0] == v[0]; } }
    assert v[0] !in "RCDUW";
  }

  lemma SplitShown(letter: char, a: int, n: int)
    requires letter != '-' && a >= 0
    ensures SplitPair([letter] + Show(a) + "-" + Show(n)) == Some((a, n))
  {
    var v := [letter] + Show(a) + "-" + Show(n);
    var sa := Show(a);
    assert sa == ShowNat(a);
    assert '-' !in sa by { assert AllDigits(sa); }
    var div := 1 + |sa|;
    assert v[div] == '-';
    assert v[..div] == [letter] + sa;
    assert '-' !in v[..div];
    assert Find(v, '-') == div;
    assert v[1..div] == sa;
    assert v[div + 1..] == Show(n);
    ParseShow(a);
    ParseShow(n);
  }

  /** The layers `make_layers` appends for a layer-building instruction on `c` input channels. Integers and
      'k'/'d' tokens use dilation 1 unless they set it; 'W', 'R' and 'D' use the configured `dilation`.
      torch refuses, while building them, a negative width and group norm on a width 8 does not divide. */
  function Emit(i: Instr, c: int, dilation: int, norm: Norm): (r: Result<seq<Layer>, Error>)
    requires !(i.Pool? || i.Relu? || i.UpSkip?)
    ensures r.Ok? ==> NoBoundaryFrom(r.value, 0) && ChainOut(c, r.value) == Some(OutOf(i))
    ensures r.Err? <==> || ((i.Res? || i.DownRes? || i.DilatedRes?) && c != OutOf(i) && OutOf(i) != 2 * c)
                        || c < 0 || OutOf(i) < 0
                        || (norm == GroupNorm && !(i.Conv5? || i.Transposed?) && OutOf(i) % 8 != 0)
    ensures r.Err? ==> r.error in {ResBlockRatio(c, OutOf(i)), NegativeDimension(c), NegativeDimension(OutOf(i)), GroupCount(OutOf(i))}
  {
    match i
    case Res(o) => Block(c, o, dilation, norm, false)
    case Conv5(o) => Single(c, Conv2d(c, o, 5, 2, 1, false), o)
    case DownRes(o) => Block(c, o, dilation, norm, true)
    case Transposed(o) => Single(c, ConvTranspose2d(c, o), o)
    case Dilated(o) => Group(c, o, norm, dilation, 3)
    case Kernel(k, o) => Group(c, o, norm, 1, k)
    case Dilation(d, o) => Group(c, o, norm, d, 3)
    case DilatedRes(d, o) => Block(c, o, d, norm, false)
    case Plain(o) => Group(c, o, norm, 1, 3)
  }

  /** A residual block as a one-layer list: refused on a ratio other than one or two, on a negative width,
      and under group norm on a width 8 does not divide. */
  function Block(c: int, o: int, dilation: int, norm: Norm, downsample: bool): (r: Result<seq<Layer>, Error>)
    ensures r.Ok? <==> (c == o || o == 2 * c) && o >= 0 && !(norm == GroupNorm && o % 8 != 0)
    ensures r.Ok? ==> c >= 0
    ensures r.Err? ==> r.error in {ResBlockRatio(c, o), NegativeDimension(o), GroupCount(o)}
    ensures r.Ok? ==> NoBoundaryFrom(r.value, 0) && ChainOut(c, r.value) == Some(o)
  {
    var block :- MakeResBlock(c, o, dilation, norm, downsample);
    assert ChainOut(o, []) == Some(o);
    Ok([block])
  }

  /** A single convolution taking `c` channels to `o`. A transposed convolution stores its weight as
      `[c, o, 2, 2]`, so it reports a negative `c` first; a plain one stores `[o, c, 5, 5]`. */
  function Single(c: int, l: Layer, o: int): (r: Result<seq<Layer>, Error>)
    requires (l.Conv2d? || l.ConvTranspose2d?) && l.inCh == c && l.outCh == o
    ensures r.Ok? <==> c >= 0 && o >= 0
    ensures r.Err? ==> r.error == NegativeDimension(if l.Conv2d? then (if o < 0 then o else c) else (if c < 0 then c else o))
    ensures r.Ok? ==> NoBoundaryFrom(r.value, 0) && ChainOut(c, r.value) == Some(o)
  {
    var refused := if l.Conv2d? then ConvRefusal(c, o) else ConvRefusal(o, c);
    if refused.Some? then Err(refused.value)
    else
      assert ChainOut(o, []) == Some(o);
      Ok([l])
  }

  /** A `convReLU` group: its convolution is built first, then its normalisation. */
  function Group(c: int, o: int, norm: Norm, dilation: int, kernel: int): (r: Result<seq<Layer>, Error>)
    ensures r.Ok? <==> c >= 0 && o >= 0 && !(norm == GroupNorm && o % 8 != 0)
    ensures r.Err? ==> r.error == if o < 0 then NegativeDimension(o) else if c < 0 then NegativeDimension(c) else GroupCount(o)
    ensures r.Ok? ==> NoBoundaryFrom(r.value, 0) && ChainOut(c, r.value) == Some(o)
  {
    if ConvRefusal(c, o).Some? then Err(ConvRefusal(c, o).value)
    else if NormRefusal(norm, o).Some? then Err(NormRefusal(norm, o).value)
    else
      var g := ConvReLU(c, o, norm, dilation, kernel);
      assert forall j :: 1 <= j < |g| - 1 ==> g[j] == NormLayers(norm, o)[j - 1];
      Ok(g)
  }

  /** The output width a layer-building instruction declares. */
  function OutOf(i: Instr): int
    requires !(i.Pool? || i.Relu? || i.UpSkip?)
  {
    match i
    case Res(o) => o
    case Conv5(o) => o
    case DownRes(o) => o
    case Transposed(o) => o
    case Dilated(o) => o
    case Kernel(_, o) => o
    case Dilation(_, o) => o
    case DilatedRes(_, o) => o
    case Plain(o) => o
  }

  /** The `layerCodes` entry: the token string, except the width for 'W', 'k', 'd' and integer tokens. */
  function CodeOf(t: Token, i: Instr): Code
    requires !(i.Pool? || i.Relu? || i.UpSkip?)
  {
    if i.Dilated? || i.Kernel? || i.Dilation? || i.Plain? || t.Int? then Count(OutOf(i)) else Text(t.s)
  }

  /** One token's effect, on `c` current channels. */
  function Decode(t: Token, c: int, dilation: int, norm: Norm): (r: Result<Action, Error>)
    ensures r.Ok? ==> ActionOk(r.value)
    ensures r.Ok? ==> ChainOut(c, Emitted(r.value, c)) == Some(ActionOut(r.value, c))
  {
    var i :- Parse(t);
    match i
    case Pool => Ok(ClosePool)
    case Relu => Ok(NoteCode(ReluModule))
    case UpSkip(n) =>
      assert ChainOut(c + n, []) == Some(c + n);
      Ok(OpenUp(Text(t.s), n))
    case _ => Built(t, i, c, dilation, norm)
  }

  /** The effect of a layer-building token `t`, which reads as `i`: its layers, its code and its declared width. */
  function Built(t: Token, i: Instr, c: int, dilation: int, norm: Norm): (r: Result<Action, Error>)
    requires Parse(t) == Ok(i) && !(i.Pool? || i.Relu? || i.UpSkip?)
    ensures r.Ok? ==> ActionOk(r.value)
    ensures r.Ok? ==> ChainOut(c, Emitted(r.value, c)) == Some(ActionOut(r.value, c))
  {
    var ls :- Emit(i, c, dilation, norm);
    Ok(Append(ls, CodeOf(t, i), OutOf(i)))
  }

  /** The anchor variant's reader for a given `dilation` and `norm`. */
  function TokenReader(dilation: int, norm: Norm): Compiler.Reader {
    (t, c) => Decode(t, c, dilation, norm)
  }

  lemma ReaderSound(dilation: int, norm: Norm)
    ensures Compiler.Sound(TokenReader(dilation, norm))
  {
    forall t, c | TokenReader(dilation, norm)(t, c).Ok?
      ensures ActionOk(TokenReader(dilation, norm)(t, c).value)
      ensures ChainOut(c, Emitted(TokenReader(dilation, norm)(t, c).value, c)) == Some(ActionOut(TokenReader(dilation, norm)(t, c).value, c))
    {
      assert TokenReader(dilation, norm)(t, c) == Decode(t, c, dilation, norm);
    }
  }

  /** The channel trace of the anchor variant: a layer-building token records its declared width,
      'M' and 'ReLU' record nothing, 'U+<n>' records `n` plus the current width. */
  lemma DecodeTrace(t: Token, c: int, dilation: int, norm: Norm)
    requires Decode(t, c, dilation, norm).Ok?
    ensures Parse(t).Ok?
    ensures var i := Parse(t).value; var a := Decode(t, c, dilation, norm).value;
      Traced(a, c) == match i
        case Pool => []
        case Relu => []
        case UpSkip(n) => [n + c]
        case _ => [OutOf(i)]
  {
    var i := Parse(t).value;
    if !(i.Pool? || i.Relu? || i.UpSkip?) {
      var ls := Emit(i, c, dilation, norm).value;
      assert Decode(t, c, dilation, norm).value == Append(ls, CodeOf(t, i), OutOf(i));
    }
  }

  /** torch refuses a negative width while it builds the layer: `[3, 'C-5']` fails on a weight of size -5. */
  lemma NegativeConvRefused()
    ensures Sound(TokenReader(1, NoNorm)) && Compile(TokenReader(1, NoNorm), [Int(3), Str("C-5")]) == Err(NegativeDimension(-5))
  {
    ReaderSound(1, NoNorm);
    assert ['C'] + Show(-5) == "C-5";
    LetteredParse('C', -5);
    assert Decode(Str("C-5"), 3, 1, NoNorm) == Err(NegativeDimension(-5));
    FirstTokenRefused(TokenReader(1, NoNorm), 3, Str("C-5"));
  }

  /** The same for a `convReLU` group: `[3, 'W-5']` fails on a weight of size -5. */
  lemma NegativeGroupRefused()
    ensures Sound(TokenReader(1, NoNorm)) && Compile(TokenReader(1, NoNorm), [Int(3), Str("W-5")]) == Err(NegativeDimension(-5))
  {
    ReaderSound(1, NoNorm);
    assert ['W'] + Show(-5) == "W-5";
    LetteredParse('W', -5);
    assert Decode(Str("W-5"), 3, 1, NoNorm) == Err(NegativeDimension(-5));
    FirstTokenRefused(TokenReader(1, NoNorm), 3, Str("W-5"));
  }

  /** A residual block that doubles a negative width passes the ratio check and then fails on the
      width: `[-4, 'R-8']` fails on -8. */
  lemma NegativeBlockRefused()
    ensures Sound(TokenReader(1, NoNorm)) && Compile(TokenReader(1, NoNorm), [Int(-4), Str("R-8")]) == Err(NegativeDimension(-8))
  {
    ReaderSound(1, NoNorm);
    assert ['R'] + Show(-8) == "R-8";
    LetteredParse('R', -8);
    assert Decode(Str("R-8"), -4, 1, NoNorm) == Err(NegativeDimension(-8));
    FirstTokenRefused(TokenReader(1, NoNorm), -4, Str("R-8"));
  }

  /** Under group norm a residual block on 12 channels fails: 8 groups do not divide 12. */
  lemma GroupCountRefused()
    ensures Sound(TokenReader(1, GroupNorm)) && Compile(TokenReader(1, GroupNorm), [Int(12), Str("R12")]) == Err(GroupCount(12))
  {
    ReaderSound(1, GroupNorm);
    assert Parse(Str("R12")) == Ok(Res(12)) by {
      assert ShowNat(1) == "1" && Digit(2) == '2';
      assert ['R'] + Show(12) == "R12";
      LetteredParse('R', 12);
    }
    assert Decode(Str("R12"), 12, 1, GroupNorm) == Err(GroupCount(12)) by {
      assert Block(12, 12, 1, GroupNorm, false) == Err(GroupCount(12));
      assert Emit(Res(12), 12, 1, GroupNorm) == Err(GroupCount(12));
      assert Built(Str("R12"), Res(12), 12, 1, GroupNorm) == Err(GroupCount(12));
    }
    FirstTokenRefused(TokenReader(1, GroupNorm), 12, Str("R12"));
  }
}
