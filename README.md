# Layer-configuration compiler and detection heads of the form-parsing detectors

This project models the two convolutional detectors of the form-parsing model:

- `YoloBoxDetector` in `model/yolo_box_detector.py` predicts anchored boxes, lines, points and pixel labels.
- `Detector` in `model/detector.py` predicts lines, points and pixel labels.

Each detector builds its network from a configuration list such as `[3, 64, 'M', 128, ...]`.
The list is compiled by that file's `make_layers`.
Integers are convolution widths, `'M'` is a 2x2 max pool and `'U+<n>'` opens an up block that takes an `n`-channel skip map.
The anchor variant also reads `R`, `C`, `D`, `U`, `W`, `k`, `d`, `B` and `ReLU` tokens.

The model has these parts:

- **The compiler.** `make_layers` is one generic loop (`Compiler`) over a per-file token reader (`YoloLayers`, `DetectorLayers`).
  - `Compiler.Expand` is a reference reading of the token list: every layer in order, plus the channel trace.
  - `Compiler.MakeLayers` is the imperative loop over the builder state: `modules`, `layers`, `layerCodes`, `in_channels`.
  - The loop is proved to return exactly what the reference reading yields, split into stages of the shape the loop always produces.
- **The blocks.**
  - Residual blocks, `convReLU` and `ncReLU` are opaque layer descriptors (`Layers`), with their channel signatures.
  - `ncReLU` is also modelled numerically (`Tensors.NcRelu`).
- **`up.forward`.** The padding arithmetic and the channel count of the concatenation (`Merge`).
- **The networks each constructor builds.** Down path, final convolution, optional up path and the scale (`Detector`, `YoloDetector`).
  - The scale is proved to be the stride the network has.
- **Forward decoding.** A tensor is a sequence of `[channel][row][col]` maps (`Tensors`). From it the model covers:
  - the prior grids;
  - the per-channel decoding of boxes, lines and points;
  - the `transpose(...).contiguous().view(...)` flattening into instance lists.

  Transcendental functions (`sigmoid`, `tanh`, `exp`, `pi`) and the numeric effect of each module are parameters.
- **The run of the trunk.** How modules are called (`Trunk`): the list of retained stage outputs, and the pixel head's walk back through them.
- **`setForPairing`.** Modelled on the anchor variant's class.

Apart from the two slips listed under "## Findings", the model follows the code where its comments or its apparent design suggest otherwise:

- An `'M'` token always wraps the open layers into a plain `nn.Sequential`, even when the open stage began with a `U+` token. The up block then has no trailing convolutions attached, and calling that stage fails.
- The anchor variant's `ReLU` token only records a code; no layer is added.
- In `model/detector.py` the `weight_norm` argument shadows the imported function, so building a convolution with only that flag set fails.
- In `model/detector.py` a string token other than `'M'` or `'U+<n>'` reaches `nn.Conv2d` as a channel count and fails.
- A layer is refused when torch refuses to build it. A negative width fails on the first negative size of a parameter tensor. Group norm fails on a width that its 8 groups do not divide. The residual block checks its ratio before either.

The two slips are the anchor variant's line view (line 364) and point offset (line 371). For each, the model gives both the code as written and the corrected layout. The forward pass (`YoloBoxDetector.Prediction` and the members built on it) decodes with the corrected layout. "## Left out" names each member this affects.

## Model

| member | source | states |
|---|---|---|
| Tokens.ParseInt | model/yolo_box_detector.py:125 | `int(text)` succeeds exactly on an optional sign followed by digits, and is non-negative without a minus sign |
| Tokens.ParseShow | model/yolo_box_detector.py:123 | the decimal text of any integer parses back to that integer |
| Tokens.Find | model/yolo_box_detector.py:154 | `find` returns -1 exactly when the character is absent, and otherwise its first position |
| Layers.NormNamed | model/yolo_box_detector.py:39-44 | the four known `norm_type` names select their normalisation; any other name, or none, selects none |
| Layers.NormLayers | model/yolo_box_detector.py:39-44 | a block inserts one width-preserving normalisation layer for batch, instance and group norm, and none otherwise |
| Layers.ConvReLU | model/yolo_box_detector.py:78-98 | `convReLU` is a convolution, its normalisation, then a ReLU; padding `dilation*(kernel//2)`; weight norm wraps the convolution; it maps the input width to the output width |
| Layers.SamePadding | model/yolo_box_detector.py:79 | that padding keeps the side length of every odd kernel unchanged |
| Layers.ConvRefusal | model/yolo_box_detector.py:47 | building a convolution fails exactly when one of its widths is negative |
| Layers.NormRefusal | model/yolo_box_detector.py:39-44 | building a block's normalisation fails exactly on group norm over a width 8 does not divide, or batch or group norm over a negative width |
| Layers.ResBlockRefusal | model/yolo_box_detector.py:26-47 | a residual block is refused exactly on a ratio other than one or two, a negative width, or group norm over a width 8 does not divide. The ratio assertion is reported first, then the normalisation, then the convolution |
| Layers.MakeResBlock | model/yolo_box_detector.py:22-72 | a residual block is refused unless the width stays the same or doubles; then its normalisation's refusal and a negative width fail, in that order. When built, it keeps the widths. Its transform is `ncReLU` iff the width doubles, then an average pool iff downsampling. Its side is the norm layer, a ReLU unless the width doubles, the 3x3 conv with padding and dilation `dilation`, the norm layer again, a ReLU and the 3x3 conv with padding 1. Weight norm wraps both convs |
| Stages.StartInv | model/yolo_box_detector.py:101-105 | the initial builder state satisfies the loop invariant and holds no layers |
| Stages.Close | model/yolo_box_detector.py:114-119 | closing an open stage keeps its layers, and makes an up block exactly when the stage began with one |
| Stages.ApplyCorrect | model/yolo_box_detector.py:106-180 | every token's update keeps the invariant, appends its layers after all earlier ones and extends the channel trace |
| Stages.FlushCorrect | model/yolo_box_detector.py:181-186 | the final flush returns well-formed stages holding every accumulated layer in order |
| Compiler.Expand | model/yolo_box_detector.py:106-180 | the layers of a successful reading are wired end to end, from the input width to the last traced width |
| Compiler.Run | model/yolo_box_detector.py:106-180 | the fold over the tokens keeps the builder invariant |
| Compiler.CompileCorrect | model/detector.py:9-50 | `make_layers` fails exactly when the reference reading fails, with the same error. Otherwise its stages flatten to exactly the layers read, and the returned width is the last traced one |
| Compiler.MakeLayers | model/yolo_box_detector.py:100-187 | the imperative loop returns the compiled result. That result is well-formed stages, wired from `cfg[0]` to the returned width |
| Compiler.Step | model/yolo_box_detector.py:107-180 | one loop iteration updates the four lists as the builder step does |
| Compiler.Closed | model/yolo_box_detector.py:181-186 | closing the open stage appends nothing when it is empty, and otherwise appends an up block or a Sequential |
| Compiler.FirstTokenRefused | model/yolo_box_detector.py:106-180 | a configuration whose one token after the head is refused fails with that token's error |
| YoloLayers.SplitPair | model/yolo_box_detector.py:153-156 | the two integers around the first '-', the first never negative |
| YoloLayers.Parse | model/yolo_box_detector.py:106-180 | the branch chain: integers are plain convolutions; 'M', 'ReLU' and 'U+<int>' are recognised exactly; an empty token fails on `v[0]`; an unknown first letter is the unknown-layer exit; every error is one of those three kinds |
| YoloLayers.Lettered | model/yolo_box_detector.py:124-152 | a one-letter token fails only on a bad integer |
| YoloLayers.Paired | model/yolo_box_detector.py:153-173 | a 'k', 'd' or 'B' token fails only on a bad integer, and otherwise yields its instruction |
| YoloLayers.ParseRender | model/yolo_box_detector.py:106-180 | parsing the spelling of any instruction gives that instruction back |
| YoloLayers.LetteredParse | model/yolo_box_detector.py:124-152 | `<letter><n>` reads back as that letter's instruction with width `n` |
| YoloLayers.PairedParse | model/yolo_box_detector.py:153-173 | `<letter><a>-<n>` reads back as that letter's instruction with `a` and `n` |
| YoloLayers.PairedDispatch | model/yolo_box_detector.py:153-173 | every token starting with 'k', 'd' or 'B' reaches the two-integer branch |
| YoloLayers.Emit | model/yolo_box_detector.py:124-180 | the layers an instruction builds contain no stage boundary and map the current width to the declared one. An instruction fails exactly on a residual ratio other than one or two, a negative width, or group norm on a width 8 does not divide (for the instructions that normalise). The error is one of those four |
| YoloLayers.Block | model/yolo_box_detector.py:126 | a residual block builds exactly when the width stays or doubles, is non-negative, and suits group norm when that is chosen; then it maps the width correctly |
| YoloLayers.Group | model/yolo_box_detector.py:150 | a `convReLU` group builds exactly when both widths are non-negative and group norm, if chosen, divides the output width. It fails on the output width first, then the input width, then the group count; when built it maps the width correctly |
| YoloLayers.Decode | model/yolo_box_detector.py:106-180 | each token's action is one the builder accepts, and its emitted layers reach the action's output width |
| YoloLayers.ReaderSound | model/yolo_box_detector.py:100-187 | the anchor variant's reader meets the compiler's soundness condition |
| YoloLayers.DecodeTrace | model/yolo_box_detector.py:123-180 | the trace: a layer token records its declared width, 'U+<n>' records `n` plus the current width, and 'M' and 'ReLU' record nothing |
| YoloLayers.NegativeConvRefused | model/yolo_box_detector.py:129-131 | `[3, 'C-5']` fails on a weight of size -5 |
| YoloLayers.NegativeGroupRefused | model/yolo_box_detector.py:148-152 | `[3, 'W-5']` fails on a weight of size -5 |
| YoloLayers.NegativeBlockRefused | model/yolo_box_detector.py:124-126 | `[-4, 'R-8']` passes the ratio check and fails on the width -8 |
| YoloLayers.GroupCountRefused | model/yolo_box_detector.py:124-126 | under group norm `[12, 'R12']` fails because 8 groups do not divide 12 channels |
| DetectorLayers.ConvGroup | model/detector.py:32-41 | an integer builds conv, batch norm and ReLU, or conv and ReLU. A negative width fails at the convolution, before the flags are used. With only the weight-norm flag it fails, because the flag is called as a function |
| DetectorLayers.Decode | model/detector.py:15-43 | 'M' is recognised exactly; any other string that is not 'U+<int>' fails in `nn.Conv2d`; a bad 'U+' integer fails; an integer succeeds exactly when it and the current width are non-negative and weight norm is not set alone |
| DetectorLayers.ReaderSound | model/detector.py:9-50 | the direct variant's reader meets the compiler's soundness condition |
| DetectorLayers.DecodeTrace | model/detector.py:30-43 | an integer `v` records `v` and emits a conv from the current width; 'U+<n>' records `n` plus the current width; 'M' records nothing |
| DetectorLayers.NegativeConvRefused | model/detector.py:32-41 | `[3, -5]` fails on the weight's size -5 under every flag setting, weight norm alone included |
| Merge.PadSplit | model/yolo_box_detector.py:207-208 | the floor half and the ceiling half add up to the difference, and differ by at most one |
| Merge.Merged | model/yolo_box_detector.py:203-210 | after padding, the upsampled map matches the skip map in rows and columns, and the concatenation has the sum of their widths |
| Merge.MergedMatchesTrace | model/yolo_box_detector.py:123 | the traced width `n + c` of an up block is the real concatenated width exactly when the skip map has `n` channels |
| Merge.MergedExample | model/detector.py:65-72 | a 10x10 coarse map under a 21x21 skip map is padded by 0 and 1 |
| Tensors.Channels | model/yolo_box_detector.py:335 | `y[:, lo:hi]` keeps the batch and the grid and holds channels `lo` to `hi` in order |
| Tensors.ChunksConcat | model/detector.py:146 | viewing flattened rows with their width gives the rows back |
| Tensors.ConcatChunks | model/detector.py:146 | flattening a view gives the memory back |
| Tensors.Transposed | model/detector.py:145 | `transpose(1,3)` makes `[col][row][channel]` |
| Tensors.IndexThenCell | model/detector.py:145-146 | the instance index of a cell is below `rows*cols` and maps back to that cell |
| Tensors.CellThenIndex | model/detector.py:145-146 | every instance index below `rows*cols` comes from exactly one cell |
| Tensors.InstanceAt | model/detector.py:145-146 | the flattened map has `rows*cols` instances, and cell (r, c) is instance `c*rows + r` holding all of its channels |
| Tensors.ViewMemory | model/detector.py:145-146 | `view(-1, ch)` of the contiguous transposed memory is that instance list |
| Tensors.AnchorMajorAt | model/yolo_box_detector.py:337-343 | after stacking and flattening, anchor `a`'s cell (r, c) is instance `a*rows*cols + c*rows + r` |
| Tensors.Permuted | model/yolo_box_detector.py:345 | `permute(0,1,3,4,2)` puts the channel last without moving any value |
| Tensors.NcRelu | model/yolo_box_detector.py:13-18 | `ncReLU` doubles the channel count |
| Tensors.NcReluSplits | model/yolo_box_detector.py:13-18 | the first half is `relu(x)` and the second the non-positive rest: their product is zero, and together they restore the input |
| Heads.Pow2Succ | model/yolo_box_detector.py:258-263 | doubling raises the exponent of the scale by one, on either side of zero |
| Heads.PriorIsCellCentre | model/yolo_box_detector.py:289-298 | the prior `(i + 0.5) * scale` is the centre of the pixel block of grid index `i` |
| Heads.RowPriors | model/yolo_box_detector.py:289-292 | `priors_0` holds the row prior in every cell of the row |
| Heads.ColPriors | model/yolo_box_detector.py:295-298 | `priors_1` holds the column prior in every cell of the column |
| Heads.PointAt | model/detector.py:152-159 | point instance `c*rows + r` is `[sigmoid(conf), x + column prior, y + row prior]` of cell (r, c) |
| Trunk.AsModules | model/detector.py:94-95 | the compiled stages become the module list one for one, in order |
| Trunk.Call1 | model/detector.py:118 | calling a module with one input fails exactly on an up block, which needs its skip map |
| Trunk.Call2 | model/detector.py:168 | calling the `k`-th up module with a skip map fails exactly when it is a plain stage |
| Trunk.Levels | model/detector.py:116-119 | `levels` has one more entry than the modules and starts with the image |
| Trunk.LevelsChain | model/detector.py:116-119 | the down path runs exactly when no module needs a skip map, and then each level is its module applied to the previous level |
| Trunk.PixelSchedule | model/detector.py:163-170 | the pixel walk succeeds exactly when every up module is an up block and at most `len(levels)-2` skip maps are needed. Otherwise it fails at the first blocked module with its index or type error |
| Detector.LineSlotOwned | model/detector.py:136 | line `i`'s slots lie inside `numOutEnd` and belong to line `i` |
| Detector.PointSlotOwned | model/detector.py:151 | point `i`'s slots lie after every line block, inside `numOutEnd`, and belong to point `i` |
| Detector.BlocksCover | model/detector.py:88 | every output channel belongs to one existing line or point block, at its own slot |
| Detector.TwoTo | model/detector.py:97-100 | the integer power of two agrees with the real one |
| Detector.CountScale | model/detector.py:97-100 | the scale loop returns two to the number of 'M' tokens |
| Detector.ScaleIsStride | model/detector.py:97-100 | the compiled network holds exactly one max pool per 'M' token, so the scale is its stride |
| Detector.TokenPools | model/detector.py:16-18 | a token emits one max pool if it is 'M', and none otherwise |
| Detector.NetworkShape | model/detector.py:76-109 | construction succeeds exactly when the down configuration compiles and, with pixel types, the up configuration compiles. On success the down path ends in a 3x3 convolution to `numOutEnd`, an up path exists iff there are pixel types, and the scale is two to the number of pools |
| Detector.DefaultScale | model/detector.py:92 | the default down configuration has a stride of 16 |
| Detector.DefaultDownCompiles | model/detector.py:92-94 | with neither batch norm nor weight norm the default configuration compiles to five stages ending at 512 channels |
| Detector.LineAt | model/detector.py:137-146 | line instance `c*rows + r` is `[sigmoid(conf), x + column prior, y + row prior, rot, scale]` of cell (r, c) |
| Detector.Detector.constructor | model/detector.py:76-109 | the counts come from the configuration, the modules and scale from the built network, and the detector is valid |
| Detector.Detector.Forward | model/detector.py:114-175 | the imperative forward pass returns what the functional forward defines: down levels, line and point decoding, then the pixel walk and head |
| Detector.PredictionOutcome | model/detector.py:114-175 | a failure of the down path is the failure of `forward`. A successful pass has one entry per line type and per point type, and a pixel map exactly when there are pixel types |
| Detector.PredictionLineAt | model/detector.py:133-147 | after a successful pass, instance `c*rows + r` of line type `i` is decoded from that type's own five channels of the trunk output at cell (r, c) |
| Detector.PredictionPointAt | model/detector.py:149-160 | after a successful pass, instance `c*rows + r` of point type `i` is decoded from that type's own three channels, which lie after every line block |
| Detector.NewDetector | model/detector.py:76-109 | construction fails exactly when the network cannot be built, with the same error. Otherwise it gives a fresh, valid detector holding that network, with the configuration's line, point and pixel counts |
| YoloDetector.BoxSlotOwned | model/yolo_box_detector.py:305 | anchor `i`'s slots lie inside the output and belong to anchor `i` |
| YoloDetector.LineSlotOwned | model/yolo_box_detector.py:350 | line `i`'s slots lie after every anchor block, inside the output, and belong to line `i` |
| YoloDetector.PointSlotOwned | model/yolo_box_detector.py:244-246 | with points placed after the line blocks, point `i`'s slots lie inside the output and belong to point `i` |
| YoloDetector.BlocksCover | model/yolo_box_detector.py:244-246 | every output channel belongs to one existing anchor, line or point block, at its own slot |
| YoloDetector.PointOverlapsLine | model/yolo_box_detector.py:371 | with line and point types, the written point offset lands on line 0's confidence channel |
| YoloDetector.PointOffsetWithoutLines | model/yolo_box_detector.py:371 | without line types the written point offset is the correct one |
| YoloDetector.ExponentSnoc | model/yolo_box_detector.py:259-263 | one more token adds its own shift to the exponent |
| YoloDetector.CountScale | model/yolo_box_detector.py:258-263 | the scale loop returns two to the number of doublings minus halvings. An empty token fails on `a[0]` |
| YoloDetector.ShiftFollowsInstr | model/yolo_box_detector.py:259-263 | for an accepted token, the doubling matches a max pool or downsampling block, and the halving matches a `U` or `U+` up-sampling token |
| YoloDetector.ExponentAppend | model/yolo_box_detector.py:259-263 | the exponent of a concatenation is the sum of the exponents |
| YoloDetector.DefaultScale | model/yolo_box_detector.py:251 | the default down configuration has a scale of 16 |
| YoloDetector.NetworkShape | model/yolo_box_detector.py:213-272 | construction succeeds exactly when the down configuration compiles and, with pixel types, the up configuration compiles. The down path ends in a 1x1 convolution to the full output width, an up path exists iff there are pixel types, and the scale is two to the exponent |
| YoloDetector.CompiledHasNoEmptyToken | model/yolo_box_detector.py:106-180 | a configuration that compiles contains no empty token |
| YoloDetector.EmptyRejected | model/yolo_box_detector.py:124 | the empty token is refused at any width |
| YoloDetector.ExpandRejectsEmpty | model/yolo_box_detector.py:106-180 | a token list with a successful reading contains no empty token |
| YoloDetector.AnchorMap | model/yolo_box_detector.py:311-333 | anchor `i`'s decoded map has `6 + numBBTypes` channels on the grid |
| YoloDetector.AnchorMapAt | model/yolo_box_detector.py:311-333 | the decoded map at cell (r, c) is the cell's box: sigmoid confidence, `tanh * scale + prior` centres, rotation offset, `exp`-scaled anchor height and width, then the raw class logits |
| YoloDetector.AnchorBatch | model/yolo_box_detector.py:333 | each anchor's decoded maps cover every batch element |
| YoloDetector.AnchorBounds | model/yolo_box_detector.py:305 | every anchor block ends within the anchor blocks |
| YoloDetector.AnchorBatches | model/yolo_box_detector.py:303-335 | `pred_boxes` has one entry per anchor, each with one map per batch element |
| YoloDetector.BoxPredictionAt | model/yolo_box_detector.py:337-343 | in `bbPredictions`, anchor `a`'s box of cell (r, c) is instance `a*rows*cols + c*rows + r`, decoded from anchor `a`'s own block |
| YoloDetector.StackedBoxesAt | model/yolo_box_detector.py:337-343 | stacking then flattening puts anchor `a`'s cell (r, c) at that instance |
| YoloDetector.ZeroOutputIsAnchor | model/yolo_box_detector.py:311-317 | a raw zero decodes to confidence one half and to the anchor itself, at the cell's prior centre |
| YoloDetector.BoxConfidenceInUnit | model/yolo_box_detector.py:312 | the decoded confidence lies in [0, 1] |
| YoloDetector.OffsetSlices | model/yolo_box_detector.py:335 | entry `a` of `pred_offsets` is exactly the trunk output's channels `a*(6+numBBTypes)` up to `(a+1)*(6+numBBTypes)`, inside the anchor blocks |
| YoloDetector.LineMap | model/yolo_box_detector.py:351-362 | a line type's decoded map has `5 + numBBTypes` channels on the grid |
| YoloDetector.LineCell | model/yolo_box_detector.py:351-360 | a cell's line has `5 + numBBTypes` values |
| YoloDetector.LineViewAsWritten | model/yolo_box_detector.py:364 | as written, `view(B,-1,5)` succeeds only when five divides the memory, and then rows of five restore the memory |
| YoloDetector.LineView | model/yolo_box_detector.py:363-364 | the intended view has one instance of all `5 + numBBTypes` channels per cell, restoring the memory |
| YoloDetector.LineViewDiffers | model/yolo_box_detector.py:364 | the written view equals the intended one exactly when there are no box types or no cells. Otherwise it splits instances across rows |
| YoloDetector.LineViewCounterexample | model/yolo_box_detector.py:364 | one box type on a 1x1 map cannot be viewed in rows of five |
| YoloDetector.LineInstanceAt | model/yolo_box_detector.py:351-364 | intended instance `c*rows + r` is cell (r, c)'s decoded line |
| YoloDetector.LineBounds | model/yolo_box_detector.py:350 | every line block ends within the line blocks |
| YoloDetector.LineBatch | model/yolo_box_detector.py:362-365 | each line type's instances cover every batch element |
| YoloDetector.PointBounds | model/yolo_box_detector.py:244-246 | every point block, placed after the line blocks, fits in the output |
| YoloDetector.LineBatches | model/yolo_box_detector.py:347-368 | `linePreds` has one entry per line type |
| YoloDetector.LineSlices | model/yolo_box_detector.py:367 | entry `i` of `offsetLinePreds` is exactly line type `i`'s raw block of `5 + numBBTypes` channels, which starts after every anchor block |
| YoloDetector.PointBatches | model/yolo_box_detector.py:369-380 | `pointPreds` has one entry per point type |
| YoloDetector.YoloBoxDetector.constructor | model/yolo_box_detector.py:213-272 | the defaults of `rotation` and the point, pixel and line counts are applied. The modules come from the network, pairing mode is off and the detector is valid |
| YoloDetector.YoloBoxDetector.Width | model/yolo_box_detector.py:244-246 | the detector's output width is `numOutBB + numOutLine + numOutPoint` |
| YoloDetector.YoloBoxDetector.Prediction | model/yolo_box_detector.py:277-395 | forward returns pairing features exactly in pairing mode, holding the `numOutBB` box channels (their contents: `YoloDetector.PredictionOutcome`). Outside pairing mode, an empty anchor list makes it fail on `torch.stack` (lines 337-338), and pixel types make it fail on the undefined `levels` |
| YoloDetector.YoloBoxDetector.SetForPairing | model/yolo_box_detector.py:405-409 | the flag is always set. The hook target is `net_down_modules[-2]`, which fails on a one-element list |
| YoloDetector.YoloBoxDetector.Forward | model/yolo_box_detector.py:277-395 | the imperative forward returns what the functional forward defines |
| YoloDetector.YoloBoxDetector.AnchorLoop | model/yolo_box_detector.py:303-335 | the anchor loop builds `pred_boxes` and `pred_offsets` exactly |
| YoloDetector.YoloBoxDetector.LineLoop | model/yolo_box_detector.py:347-367 | the line loop builds `offsetLinePreds` as written and `linePreds` with the intended view of each line type's block |
| YoloDetector.YoloBoxDetector.PointLoop | model/yolo_box_detector.py:369-380 | the point loop builds `pointPreds`, with every point block after the line blocks |
| YoloDetector.PredictionBoxes | model/yolo_box_detector.py:337-343 | outside pairing mode, a successful pass returns as `bbPredictions` the anchor-major stack of every anchor's decoded maps of the trunk output |
| YoloDetector.StackedOffsets | model/yolo_box_detector.py:338-345 | stacking the anchor blocks and moving the channel last gives `[batch][anchor]` entries that are each anchor block's map with its channel last, every value kept |
| YoloDetector.PredictionOutcome | model/yolo_box_detector.py:277-338 | a failure of the down path is the failure of `forward`. A successful pass ran the down path to an output of the final convolution's width, and in pairing mode returns exactly its first `numOutBB` channels. Outside pairing mode, an empty anchor list fails with the empty-stack error before anything is decoded |
| YoloDetector.PredictionOffsetAt | model/yolo_box_detector.py:303-345 | after a successful pass outside pairing mode, `offsetPredictions[b][a][r][c][k]` is channel `a*(6+numBBTypes)+k` of the trunk output at cell (r, c) |
| YoloDetector.PredictionLineOffsetAt | model/yolo_box_detector.py:349-367 | after a successful pass outside pairing mode, channel `k` of `offsetLinePreds[i]` is channel `k` of line type `i`'s block of the trunk output, which lies past every anchor block |
| YoloDetector.PredictionLineAt | model/yolo_box_detector.py:347-365 | after a successful pass outside pairing mode, line type `i`'s instance `c*rows + r` is the cell's line, decoded from that type's own block after the anchor blocks (intended view) |
| YoloDetector.PredictionPointAt | model/yolo_box_detector.py:369-380 | after a successful pass outside pairing mode, point type `i`'s instance `c*rows + r` is decoded from its own three channels, after every anchor and line block |
| YoloDetector.NewYoloBoxDetector | model/yolo_box_detector.py:213-272 | construction fails exactly when the network cannot be built, with the same error. Otherwise it gives a fresh, valid detector, not in pairing mode and with no hook, holding that network. It has the configured anchors, box types and line, point and pixel counts (absent counts are 0), and rotation unless the configuration turns it off |

## Left out

- Convolution, normalisation, pooling, upsampling and dropout arithmetic: a module's numeric effect is the `Trunk.Runner` / `Trunk.Merger` parameter, and layers are descriptors with channel signatures.
- `sigmoid`, `tanh`, `exp` and `pi` are the `Heads.Activations` parameter. What is known of them is stated as a requirement where a lemma needs it: the logistic range in `BoxConfidenceInUnit`, the values at zero in `ZeroOutputIsAnchor`.
- Weight normalisation: it is recorded as a flag on the convolution; its reparameterisation is numeric.
- Reading the anchors file: the parsed anchors are part of the configuration.
- The warnings printed by the constructor, `print`/`exit(1)` on an unknown layer (modelled as an error value), and `summary`.
- `BaseModel` is not part of this model; `Detector` is modelled without its base class.
- `_hack_down` / `_hack_up`: running the `nn.Sequential` of the modules is modelled by `Trunk.Levels`, which calls the same modules in the same order.
- Forward hooks: `setForPairing` records which module holds the hook, but `final_features` is not updated during a forward pass.
- Detector.Detector.Forward, YoloDetector.YoloBoxDetector.Forward, Detector.Detector.Prediction, YoloDetector.YoloBoxDetector.Prediction: a trunk output whose channel count or shape differs from the final convolution's is reported as an error. Those checks abstract the runner; they are not a failure of the source.
- YoloDetector.YoloBoxDetector.Prediction: outside pairing mode with pixel types the anchor variant reads `levels`, which its `forward` never defines; the model returns that error and does not decode the pixel path.
- Tokens.ParseInt: `int()` also accepts surrounding whitespace and underscores between digits; the model accepts an optional '-' or '+' followed by ASCII digits only.
- `F.pad` values and the bilinear upsampling of `up.forward`: only the shapes are modelled (`Merge`).
- A batch of zero elements for `view(B, -1, w)`: PyTorch cannot infer `-1` there; the model's instance lists are per batch element and do not model that failure.
- `dropout` arguments: `make_layers` is always called without them by both constructors, so dropout layers are not modelled.
- Devices (`.to(img.device)`) and gradient flags.
- YoloDetector.LineBatch: decodes each line type with the intended `view(B, -1, 5 + numBBTypes)`, not line 364's `view(B, -1, 5)`. `YoloDetector.LineViewAsWritten` and `YoloDetector.LineViewDiffers` model the written view and state where the two differ.
- YoloDetector.LineBatches: builds `linePreds` from the intended view of `YoloDetector.LineBatch`, not from line 364's.
- YoloDetector.YoloBoxDetector.LineLoop: builds `linePreds` with the intended view, not line 364's; `offsetLinePreds` is as written.
- YoloDetector.PointBatches: reads point `i` after every anchor and line block, not at line 371's offset, which skips only the anchor blocks. `YoloDetector.PointOverlapsLine` shows where the written offset lands, and `YoloDetector.PointOffsetWithoutLines` shows that the two agree without line types.
- YoloDetector.YoloBoxDetector.PointLoop: builds `pointPreds` at the corrected offset of `YoloDetector.PointBatches`, not line 371's.
- YoloDetector.YoloBoxDetector.Prediction: outside pairing mode, decodes lines and points with the intended view and the corrected offset. So it returns instances where line 364's view would fail, and reads points at the corrected offset rather than at line 371's.
- YoloDetector.YoloBoxDetector.Forward: equals `Prediction`, so it decodes with the same corrected layout.
- YoloDetector.PredictionLineAt: states the instance under the intended view, not under line 364's.
- YoloDetector.PredictionPointAt: states the instance at the corrected offset, not at line 371's.
- Compiler.Compile: a string at the head of a configuration is refused at once with `HeadNotChannelCount`. The source keeps it as `in_channels[0]` and fails only when a layer first uses that width. That failure is a TypeError, or the residual block's assertion, or the final convolution when no layer uses the width.
- Detector.NetworkShape: the final convolutions of the down and pixel paths are not refused on a negative input width. That width is negative only when a path builds no layer, as in `[-3, 'M']`.
- YoloDetector.NetworkShape: the same holds for the anchor variant's final 1x1 convolutions.
- torch's other argument checks are not modelled: kernel sizes, dilations and paddings are taken as given. Which checks exist depends on the torch version.

## Findings

| source | as written | input that shows it | evidently intended | confidence | as-written member | corrected member |
|---|---|---|---|---|---|---|
| model/yolo_box_detector.py:371 | the point offset is `i*3 + numAnchors*(numBBParams+numBBTypes)`, skipping the anchor blocks but not the line blocks | one line type and one point type: point 0 reads line 0's confidence, x and y channels, and the last three output channels are never read | `i*3 + numOutBB + numOutLine`, the layout `numOut` provides for | not executed | YoloDetector.PointOverlapsLine | YoloDetector.PointSlotOwned |
| model/yolo_box_detector.py:364 | line predictions are viewed as `view(B, -1, 5)` although each holds `5 + numBBTypes` channels | one box type on a 1x1 map: six values cannot form rows of five; with two cells, rows mix two instances | `view(B, -1, 5 + numBBTypes)`: one instance per cell | not executed | YoloDetector.LineViewCounterexample | YoloDetector.LineInstanceAt |
