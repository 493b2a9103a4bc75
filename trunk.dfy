/** How the detectors call their modules: the list of retained stage outputs (`levels`) of the down path,
    and the pixel head's walk back through them. The numeric effect of a module is a parameter. */
module Trunk {
  import opened Wrappers
  import opened Layers
  import opened Stages
  import opened Tensors

  /** An entry of `net_down_modules` / `net_up_modules`: a compiled stage, or the final convolution. */
  datatype Module = Staged(stage: Stage) | Head(conv: Layer)

  /** A compiled path as `net_down_modules` / `net_up_modules` list it: each stage a module of its own. */
  function AsModules(ss: seq<Stage>): (ms: seq<Module>)
    ensures |ms| == |ss| && forall i :: 0 <= i < |ss| ==> ms[i] == Module.Staged(ss[i])
  {
    seq(|ss|, i requires 0 <= i < |ss| => Module.Staged(ss[i]))
  }

  /** The up path: its compiled stages, then the convolution to the pixel channels. */
  datatype UpPath = UpPath(stages: seq<Stage>, head: Layer)

  /** The numeric effect of a module called with one input; convolution arithmetic is not modelled. */
  type Runner = (Module, Tensor) -> Tensor

  /** The numeric effect of an up block called with a coarse map and its skip map. */
  type Merger = (Stage, Tensor, Tensor) -> Tensor

  /** A module that needs a skip map: an up block, or a Sequential that starts with a bare up block. */
  predicate NeedsSkip(m: Module) {
    m.Staged? && (m.stage.UpMerge? || (|m.stage.layers| > 0 && m.stage.layers[0].Up?))
  }

  /** `module(x)`: `up.forward` refuses to run without its second argument. */
  function Call1(m: Module, x: Tensor, run: Runner): (r: Result<Tensor, Error>)
    ensures r.Err? <==> NeedsSkip(m)
    ensures r.Ok? ==> r.value == run(m, x)
  {
    if NeedsSkip(m) then Err(SkipMissing) else Ok(run(m, x))
  }

  /** `module(y2, levels[p])` for the `k`-th up module: only an up block takes two arguments. */
  function Call2(m: Stage, k: nat, x: Tensor, skip: Tensor, merge: Merger): (r: Result<Tensor, Error>)
    ensures r.Err? <==> !m.UpMerge?
    ensures r.Err? ==> r.error == NotAnUpBlock(k)
    ensures r.Ok? ==> r.value == merge(m, x, skip)
  {
    if m.UpMerge? then Ok(merge(m, x, skip)) else Err(NotAnUpBlock(k))
  }

  /** `levels=[img]; for module in modules: levels.append(module(levels[-1]))`. */
  function Levels(modules: seq<Module>, img: Tensor, run: Runner): (r: Result<seq<Tensor>, Error>)
    ensures r.Ok? ==> |r.value| == |modules| + 1 && r.value[0] == img
    decreases |modules|
  {
    if modules == [] then Ok([img])
    else
      var prev :- Levels(modules[..|modules| - 1], img, run);
      var out :- Call1(modules[|modules| - 1], prev[|prev| - 1], run);
      Ok(prev + [out])
  }

  /** The down path runs exactly when no module needs a skip map, and then level `k + 1` is module `k`
      applied to level `k`. */
  lemma {:induction false} LevelsChain(modules: seq<Module>, img: Tensor, run: Runner)
    ensures Levels(modules, img, run).Ok? <==> forall k :: 0 <= k < |modules| ==> !NeedsSkip(modules[k])
    ensures Levels(modules, img, run).Ok? ==>
      forall k :: 0 <= k < |modules| ==> Levels(modules, img, run).value[k + 1] == run(modules[k], Levels(modules, img, run).value[k])
    decreases |modules|
  {
    if modules != [] {
      var init := modules[..|modules| - 1];
      LevelsChain(init, img, run);
      assert forall k :: 0 <= k < |init| ==> init[k] == modules[k];
      var prev := Levels(init, img, run);
      if prev.Ok? {
        var r := Levels(modules, img, run);
        if r.Ok? {
          assert r.value == prev.value + [run(modules[|modules| - 1], prev.value[|prev.value| - 1])];
        }
      }
    }
  }

  /** The skip map the `k`-th up module reads: `levels[-3-k]`, as a position when it exists. */
  function SkipIndex(n: nat, k: nat): int {
    n - 3 - k
  }

  /** `y2=levels[-2]; p=-3; for module in up_modules[:-1]: y2=module(y2,levels[p]); p-=1`: the coarse map
      after the first `|ups|` up modules. `levels[p]` is read before the call, so an index error comes first. */
  function PixelLoop(ups: seq<Stage>, levels: seq<Tensor>, merge: Merger): Result<Tensor, Error>
    requires |levels| >= 2
    decreases |ups|
  {
    if ups == [] then Ok(levels[|levels| - 2])
    else
      var y2 :- PixelLoop(ups[..|ups| - 1], levels, merge);
      var k := |ups| - 1;
      var p := SkipIndex(|levels|, k);
      if p < 0 then Err(LevelIndex(-3 - k))
      else Call2(ups[k], k, y2, levels[p], merge)
  }

  /** The first up module that cannot run: its skip position is gone, or it is not an up block. */
  predicate Blocked(ups: seq<Stage>, n: nat, k: nat)
    requires k < |ups|
  {
    SkipIndex(n, k) < 0 || !ups[k].UpMerge?
  }

  /** The pixel walk succeeds exactly when every up module is an up block and the walk needs no more skip
      maps than the levels below `levels[-2]` hold; otherwise it fails at the first blocked module, with an
      index error if its skip position is gone and a type error if it is a plain stage. */
  lemma {:induction false} PixelSchedule(ups: seq<Stage>, levels: seq<Tensor>, merge: Merger)
    requires |levels| >= 2
    ensures PixelLoop(ups, levels, merge).Ok? <==>
      |ups| <= |levels| - 2 && forall k :: 0 <= k < |ups| ==> ups[k].UpMerge?
    ensures PixelLoop(ups, levels, merge).Err? ==>
      exists k :: 0 <= k < |ups| && Blocked(ups, |levels|, k) && (forall j :: 0 <= j < k ==> !Blocked(ups, |levels|, j))
        && PixelLoop(ups, levels, merge).error == (if SkipIndex(|levels|, k) < 0 then LevelIndex(-3 - k) else NotAnUpBlock(k))
    decreases |ups|
  {
    if ups != [] {
      var init := ups[..|ups| - 1];
      var k := |ups| - 1;
      PixelSchedule(init, levels, merge);
      assert forall j :: 0 <= j < |init| ==> init[j] == ups[j];
      var prev := PixelLoop(init, levels, merge);
      if prev.Err? {
        var j :| 0 <= j < |init| && Blocked(init, |levels|, j) && (forall i :: 0 <= i < j ==> !Blocked(init, |levels|, i))
          && prev.error == (if SkipIndex(|levels|, j) < 0 then LevelIndex(-3 - j) else NotAnUpBlock(j));
        assert Blocked(ups, |levels|, j);
      } else {
        assert forall j :: 0 <= j < k ==> !Blocked(ups, |levels|, j);
        if Blocked(ups, |levels|, k) {
          assert PixelLoop(ups, levels, merge).Err?;
        }
      }
    }
  }
}
