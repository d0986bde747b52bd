# Neuron-Cplusplus layer core in Dafny

This project models the core of a small C++ neural-network library. The library is a
network (`NeuralNet`) of typed layers wired together by edges. The layers are dense,
2D convolution, accumulator, LSTM, GRU, pooling, up-resolution and normalization. Most of
the library is class declarations whose behaviour the headers state in doc-comment
diagrams. The model follows those header contracts and diagrams. The one implementation
file, `dense.cpp`, contributes only the dense constructor.

What is modelled, module by module:

- `Activation`: the eight activation flags and their byte codes. RELU, LEAKY_RELU,
  THRESHOLD and LINEAR are defined. The transcendental kinds are function values supplied
  from outside.
- `PoolingSort`: the pooling layer's in-place quicksort and partition. Both sort a range
  of an array in a direction chosen by a flag. A functional insertion sort is the
  reference order, and the window median is defined from it.
- `PoolingLayer`: the `Pool2D` records, the window geometry over a row-major map, and the
  MAX/MIN/AVG/MEDIAN reductions. `Pooling` is the class with its pool list, setters,
  output length and run.
- `UpresLayer`: the `UpresParams` records and the output geometry. It covers placing the
  original cells with `stride` synthetic rows and columns between originals and `padding`
  at the border, FILL_ZERO and FILL_SAME, and the `Upres` class.
- `DenseLayer`: the bias-augmented input, the 0/1 mask broadcast onto the weights, the
  masked dot product and the per-unit activation. `Dense` is the class with the
  constructor's loops and the setters.
- `NormalizationLayer`: the elementwise affine map `g*((x-m)/s)+b` and its class.
- `History`: the `h x cache` hidden-state cache shared by the GRU and LSTM layers. Column
  k holds time step k+1. Once the cache is full, each step shifts out the oldest column.
- `GruLayer` and `LstmLayer`: parameter shapes, element setters, the time step, the LSTM
  cell state, and the bookkeeping of one step. The gate arithmetic is a parameter.
- `Conv2DLayer`: the filter table and the `w*h+1` weight layout with the bias last.
- `AccumLayer`: the accumulator's input count.
- `NeuralNetwork`: node type tags, `Edge` with its half-open selector, `Node` and
  `Variable` records, the per-kind append-only layer collections, `linkLayers` and
  `sortEdges`.

Values are `real`. Sizes and indices are `nat`.

## Model

| member | source | states |
|---|---|---|
| Activation.Code | dense.h:40-47 | every flag's byte code is below 8 |
| Activation.FromCode | conv2d.h:31-38 | a byte decodes to a flag exactly when it is below 8 |
| Activation.FromCodeOfCode | dense.h:40-47 | decoding a flag's code gives back the flag |
| Activation.CodeOfFromCode | conv2d.h:31-38 | every code below 8 is the code of the flag it decodes to |
| Activation.Apply | dense.h:26 | RELU output is at least 0 and at least its input, and is the input or 0. LEAKY_RELU is x above 0 and param*x otherwise. THRESHOLD is 1 exactly when x >= param and 0 exactly below it. LINEAR is param*x |
| Activation.ThresholdIsBinary | dense.h:46 | THRESHOLD outputs only 0 or 1 |
| PoolingSort.Swap | pooling.h:90-91 | exchanges two entries of the range, keeps the range's multiset and leaves everything outside it unchanged |
| PoolingSort.Sweep | pooling.h:91 | after the sweep, [lo, i) may precede the pivot a[hi] and the pivot may precede [i, hi). The range is a permutation and the outside is unchanged |
| PoolingSort.Partition | pooling.h:91 | returns p in [lo, hi]. In the chosen direction nothing before p comes after a[p] and nothing after p comes before it. [lo, hi] is a permutation of its old contents and entries outside it are untouched |
| PoolingSort.SortedAroundPivot | pooling.h:90 | two sorted runs bounded by a pivot join into one sorted run |
| PoolingSort.QuicksortStep | pooling.h:90 | partitioning and then sorting both sides sorts the whole range and keeps its multiset |
| PoolingSort.Quicksort | pooling.h:90 | [lo, hi] is sorted in the direction the flag chooses and is a permutation of its old contents. Every entry outside it is unchanged |
| PoolingSort.Insert | pooling.h:37 | inserting adds exactly one copy of x and keeps an ascending sequence ascending |
| PoolingSort.SortAscending | pooling.h:37 | the reference order: ascending, same length and same multiset as the window |
| PoolingSort.SortedIsUnique | pooling.h:90 | two sorted arrangements of the same values are equal, so any correct sort yields the reference order |
| PoolingSort.Median | pooling.h:37 | the median is one of the window's values |
| PoolingSort.MedianOfArrangement | pooling.h:37 | the median is the rank-floor(n/2) entry of any ascending arrangement of the window |
| PoolingSort.MedianOfThree | pooling.h:37 | a window of three values a <= b <= c, in any order, has median b |
| PoolingSort.MedianOfFour | pooling.h:37 | on four ascending values the median is the third, the upper middle |
| PoolingLayer.PoolCode | pooling.h:34-37 | every reduction's byte code is below 4 |
| PoolingLayer.PoolFuncFromCode | pooling.h:34-37 | a byte decodes exactly when it is below 4, to the reduction with that code |
| PoolingLayer.PoolCodeRoundTrip | pooling.h:34-37 | decoding a reduction's code gives back the reduction |
| PoolingLayer.PositionCountIsExact | pooling.h:11-21 | floor((n-w)/s)+1 window positions fit: the last one ends inside the map and one more would not |
| PoolingLayer.DiagramGeometry | pooling.h:16-21 | a 2x2 pool over the 4x5 map gives 3 columns by 4 rows at stride (1,1) and 2 by 2 at stride (2,2) |
| PoolingLayer.WindowStartFits | pooling.h:11-13 | every counted window position ends inside the map |
| PoolingLayer.Window | pooling.h:11-14 | a window has exactly w*h values |
| PoolingLayer.WindowIndex | pooling.h:11-13 | every window entry reads a cell inside the input map |
| PoolingLayer.Max | pooling.h:14 | the maximum is a window value and no window value exceeds it |
| PoolingLayer.Min | pooling.h:14 | the minimum is a window value and no window value is below it |
| PoolingLayer.SumBounds | pooling.h:36 | the window sum lies between n times any lower bound and n times any upper bound |
| PoolingLayer.AverageWithinBounds | pooling.h:36 | the average respects every bound on the window's values |
| PoolingLayer.AverageIsBetweenMinAndMax | pooling.h:36 | AVG lies between MIN and MAX of the same window |
| PoolingLayer.PoolMap | pooling.h:16-21 | one pool's map has rows times columns entries |
| PoolingLayer.PoolCell | pooling.h:14 | output cell (r, c) reduces the window at (r, c). MAX is a window value at least every other one. MIN is a window value at most every other one. AVG is the sum over w*h. MEDIAN is a window value, read at rank floor(w*h/2) of the sorted window |
| PoolingLayer.MapsLenIsRunLength | pooling.h:76 | the declared output length is the length of the concatenated maps for every input |
| PoolingLayer.SortedMedian | pooling.h:37 | quicksorting a copy of the window and reading rank floor(n/2) gives the median |
| PoolingLayer.WindowValue | pooling.h:34-37 | window k's value is the pool's reduction of that window |
| PoolingLayer.RunPool | pooling.h:77 | filling a pool's map window by window in row-major order produces the pool's map |
| PoolingLayer.Pooling.constructor | pooling.h:64 | a layer for the given input size with no pools and an empty output |
| PoolingLayer.Pooling.AddPool | pooling.h:67 | grows n by one and returns the old n. Existing pools are kept and the new pool has the given size |
| PoolingLayer.Pooling.SetPoolWidth | pooling.h:68 | changes only the width of pool i |
| PoolingLayer.Pooling.SetPoolHeight | pooling.h:69 | changes only the height of pool i |
| PoolingLayer.Pooling.SetPoolHorzStride | pooling.h:70 | changes only the horizontal stride of pool i |
| PoolingLayer.Pooling.SetPoolVertStride | pooling.h:71 | changes only the vertical stride of pool i |
| PoolingLayer.Pooling.SetPoolFunc | pooling.h:72 | changes only the reduction of pool i |
| PoolingLayer.Pooling.OutputLen | pooling.h:76 | the length every run produces |
| PoolingLayer.Pooling.Run | pooling.h:77 | the output buffer is the concatenation of every pool's map in insertion order, and its length is the declared output length |
| UpresLayer.FillCode | upres.h:33-35 | every fill method's byte code is below 3 |
| UpresLayer.FillFromCode | upres.h:33-35 | a byte decodes exactly when it is below 3, to the method with that code |
| UpresLayer.FillCodeRoundTrip | upres.h:33-35 | decoding a method's code gives back the method |
| UpresLayer.OutLen | upres.h:50-53 | the output extent is n + stride*(n-1) + 2*padding |
| UpresLayer.OutWidth | upres.h:50-53 | output width is positive |
| UpresLayer.OutHeight | upres.h:50-53 | output height is positive |
| UpresLayer.DiagramGeometry | upres.h:11-22 | the 4x5 map becomes 7x9 at s = 1, p = 0 and 9x11 at s = 1, p = 1 |
| UpresLayer.Nearest | upres.h:34 | the nearest original sample along an axis is a valid sample index |
| UpresLayer.OriginalPosition | upres.h:12-21 | original sample j sits at padding + j*(stride+1), which is an original position whose nearest sample is j |
| UpresLayer.OriginalIsPlaced | upres.h:12-21 | every original position is padding + j*(stride+1) for its own sample j |
| UpresLayer.NearestIsClosest | upres.h:34 | no original sample along the axis is closer to a position than the one FILL_SAME copies |
| UpresLayer.UpresMap | upres.h:11-22 | one up-ressing's map has output height times output width entries |
| UpresLayer.CellOfOriginal | upres.h:12-21 | a cell on an original row and column holds the matching input cell |
| UpresLayer.OriginalPlacement | upres.h:12-21 | input cell (r, c) lands at output row padding_v + r*(stride_v+1), column padding_h + c*(stride_h+1), inside the output |
| UpresLayer.OriginalCellAt | upres.h:12-21 | an output cell at an original position holds the input cell its sample indices name |
| UpresLayer.ZeroFillLeavesOnlyOriginals | upres.h:12-22 | with FILL_ZERO for strides and padding every cell that is not an original is 0 |
| UpresLayer.SameFillCopiesNearest | upres.h:34 | with FILL_SAME for strides and padding every output cell copies the input cell nearest to it |
| UpresLayer.NoStrideNoPaddingIsIdentity | upres.h:50-53 | with all strides and paddings 0 the output equals the input |
| UpresLayer.MapsLenIsRunLength | upres.h:78 | the declared output length is the length of the concatenated maps for every input |
| UpresLayer.Upres.constructor | upres.h:64 | a layer for the given input size with no up-ressings |
| UpresLayer.Upres.AddParams | upres.h:67 | grows n by one and returns the old n. Existing records are kept |
| UpresLayer.Upres.SetParamsHorzStride | upres.h:68 | changes only the horizontal stride of record i |
| UpresLayer.Upres.SetParamsVertStride | upres.h:69 | changes only the vertical stride of record i |
| UpresLayer.Upres.SetParamsHorzPad | upres.h:70 | changes only the horizontal padding of record i |
| UpresLayer.Upres.SetParamsVertPad | upres.h:71 | changes only the vertical padding of record i |
| UpresLayer.Upres.SetParamsStrideMethod | upres.h:72 | changes only the stride fill method of record i |
| UpresLayer.Upres.SetParamsPaddingMethod | upres.h:73 | changes only the padding fill method of record i |
| UpresLayer.Upres.OutputLen | upres.h:78 | the length every run produces |
| UpresLayer.Upres.Run | upres.h:79 | the output buffer is the concatenation of every up-ressing's map in insertion order, and its length is the declared output length |
| DenseLayer.Weight | dense.cpp:28-32 | every initial weight made from a draw in [0, RAND_MAX] lies in [-1, 1] |
| DenseLayer.WeightEnds | dense.cpp:32 | draws 0 and RAND_MAX give -1 and 1 |
| DenseLayer.Augment | dense.h:10 | the effective input is x followed by a single 1 |
| DenseLayer.MaskEntry | dense.h:14 | a stored mask entry is 0 or 1. The bias row is 1, and another row is 1 exactly when the weight is unmasked |
| DenseLayer.MaskOf | dense.h:73 | a full mask setting gives an (inputs+1) x nodes 0/1 mask with its bias row all 1, unmasked exactly where the booleans say |
| DenseLayer.MaskColumn | dense.h:74 | a column setting keeps the bias entry 1, and every other entry is 1 exactly when unmasked and 0 exactly when masked |
| DenseLayer.Broadcast | dense.h:24 | W' is W times M entry by entry |
| DenseLayer.NetIsDotWithBroadcast | dense.h:24-25 | the masked column sum is the dot product of the augmented input with column j of W' |
| DenseLayer.UnmaskedBroadcastIsIdentity | dense.h:24 | with every weight unmasked, W' is W |
| DenseLayer.MaskedRowsAddNothing | dense.h:24-25 | rows masked out of column j add nothing to x'[j] |
| DenseLayer.FullyMaskedNodeSeesOnlyBias | dense.h:14-25 | if column j is masked on every non-bias row, x'[j] is the bias weight W[inputs][j] for every input |
| DenseLayer.Raw | dense.h:24-25 | the pre-activation vector has one entry per unit, each the masked dot product |
| DenseLayer.Output | dense.h:26 | one output per unit. Unit j applies f[j] with alpha[j] to x'[j], and SOFTMAX reads the whole pre-activation vector. RELU outputs are at least 0 and at least x'[j]. THRESHOLD outputs are 0 or 1. LINEAR outputs are alpha[j]*x'[j] |
| DenseLayer.Dense.constructor | dense.cpp:10-45 | W and M are (inputs+1) x nodes. W[y][x] is the weight of draw (y, x) and every mask entry is 1. Every unit is RELU with alpha 1, all LAYER_NAME_LEN name characters are NUL, and f and alpha have nodes entries |
| DenseLayer.Dense.SetW | dense.h:70 | replaces the whole weight matrix |
| DenseLayer.Dense.SetW_i | dense.h:71 | replaces column i of W and no other entry |
| DenseLayer.Dense.SetW_ij | dense.h:72 | replaces entry [i, j] of W and no other entry |
| DenseLayer.Dense.SetM | dense.h:73 | replaces the mask and keeps its bias row 1 |
| DenseLayer.Dense.SetM_i | dense.h:74 | replaces column i of M and keeps its bias entry 1 |
| DenseLayer.Dense.SetM_ij | dense.h:75 | replaces entry [i, j] of M. An entry of the bias row stays 1 |
| DenseLayer.Dense.SetF_i | dense.h:76 | changes only the activation of unit i |
| DenseLayer.Dense.SetA_i | dense.h:77 | changes only the parameter of unit i |
| DenseLayer.Dense.OutputLen | dense.h:81 | the length of every output |
| DenseLayer.Dense.Run | dense.h:82 | the output vector is the layer's output on x and has nodes entries |
| NormalizationLayer.DenormalizeNormalize | normalization.h:13-18 | with s and g non-zero, the inverse map recovers x |
| NormalizationLayer.NormalizeDenormalize | normalization.h:13-18 | with s and g non-zero, normalizing the inverse map recovers y |
| NormalizationLayer.MeanMapsToConstant | normalization.h:13-18 | x = m gives y = b |
| NormalizationLayer.NormalizeAll | normalization.h:13-18 | one output per input, y_i = g*((x_i - m)/s) + b |
| NormalizationLayer.OutputIsElementwise | normalization.h:13-18 | y_i depends only on x_i |
| NormalizationLayer.IdentityParameters | normalization.h:13-18 | m = 0, s = 1, g = 1, b = 0 is the identity |
| NormalizationLayer.Normalization.constructor | normalization.h:46 | an output buffer of inputs entries |
| NormalizationLayer.Normalization.SetM | normalization.h:49 | sets only m |
| NormalizationLayer.Normalization.SetS | normalization.h:50 | sets only s |
| NormalizationLayer.Normalization.SetG | normalization.h:51 | sets only g |
| NormalizationLayer.Normalization.SetB | normalization.h:52 | sets only b |
| NormalizationLayer.Normalization.OutputLen | normalization.h:57 | the output length is inputs |
| NormalizationLayer.Normalization.Run | normalization.h:58 | with s non-zero the buffer holds the normalized input and the length is inputs. With s = 0 it returns None and leaves the buffer unchanged |
| History.EmptyHistory | gru.h:30-34 | a zero cache holds the empty history |
| History.Prev | gru.h:30-34 | the previous state has length h and is zero before the first step |
| History.Record | gru.h:101-102 | while t < cache, step t writes column t and leaves every other column. Once t >= cache, columns shift one place left, dropping column 0, and the new state goes into column cache-1 |
| History.RecordKeepsWindow | gru.h:101-103 | after recording, the cache holds the last min(t, cache) states oldest first, then zeros |
| History.PrevIsLatest | gru.h:30-34 | after at least one step the previous state read from the cache is the last state produced |
| History.Latest | gru.h:30-34 | the output after t steps, for both recurrent layers: the zero vector before the first step, otherwise the latest state, h long |
| History.Store | gru.h:101-102 | the in-place column write or shift-then-write computes Record |
| GruLayer.GRU.CurrentParams | gru.h:13-28 | Wz, Wr, Wh are h x d, Uz, Ur, Uh are h x h, and the biases have length h |
| GruLayer.GRU.constructor | gru.h:64 | d, h and cache as given, t = 0 and a zero h x cache H |
| GruLayer.GRU.SetWz | gru.h:67 | replaces Wz only |
| GruLayer.GRU.SetWr | gru.h:68 | replaces Wr only |
| GruLayer.GRU.SetWh | gru.h:69 | replaces Wh only |
| GruLayer.GRU.SetWz_ij | gru.h:71 | changes only entry [i, j] of Wz |
| GruLayer.GRU.SetWr_ij | gru.h:72 | changes only entry [i, j] of Wr |
| GruLayer.GRU.SetWh_ij | gru.h:73 | changes only entry [i, j] of Wh |
| GruLayer.GRU.SetUz | gru.h:75 | replaces Uz only |
| GruLayer.GRU.SetUr | gru.h:76 | replaces Ur only |
| GruLayer.GRU.SetUh | gru.h:77 | replaces Uh only |
| GruLayer.GRU.SetUz_ij | gru.h:79 | changes only entry [i, j] of Uz |
| GruLayer.GRU.SetUr_ij | gru.h:80 | changes only entry [i, j] of Ur |
| GruLayer.GRU.SetUh_ij | gru.h:81 | changes only entry [i, j] of Uh |
| GruLayer.GRU.Setbz | gru.h:83 | replaces bz only |
| GruLayer.GRU.Setbr | gru.h:84 | replaces br only |
| GruLayer.GRU.Setbh | gru.h:85 | replaces bh only |
| GruLayer.GRU.Setbz_i | gru.h:87 | changes only entry i of bz |
| GruLayer.GRU.Setbr_i | gru.h:88 | changes only entry i of br |
| GruLayer.GRU.Setbh_i | gru.h:89 | changes only entry i of bh |
| GruLayer.GRU.OutputLen | gru.h:94 | the output length is the length of the current output |
| GruLayer.GRU.Output | gru.h:30-34 | the current output is zero before the first step and otherwise the latest state |
| GruLayer.GRU.Run | gru.h:95 | the new state is recorded in H by the cache rule, t advances by one, H stays h x cache and the output is the new state |
| GruLayer.GRU.Reset | gru.h:96 | H is cleared to zeros of the same shape and t is 0 |
| LstmLayer.LSTM.CurrentParams | lstm.h:13-28 | Wi, Wo, Wf, Wc are h x d, Ui, Uo, Uf, Uc are h x h, and the biases have length h |
| LstmLayer.LSTM.constructor | lstm.h:64 | d, h and cache as given, t = 0, a zero cell state of length h and a zero h x cache H |
| LstmLayer.LSTM.SetWi | lstm.h:67 | replaces Wi only |
| LstmLayer.LSTM.SetWo | lstm.h:68 | replaces Wo only |
| LstmLayer.LSTM.SetWf | lstm.h:69 | replaces Wf only |
| LstmLayer.LSTM.SetWc | lstm.h:70 | replaces Wc only |
| LstmLayer.LSTM.SetWi_ij | lstm.h:71 | changes only entry [i, j] of Wi |
| LstmLayer.LSTM.SetWo_ij | lstm.h:72 | changes only entry [i, j] of Wo |
| LstmLayer.LSTM.SetWf_ij | lstm.h:73 | changes only entry [i, j] of Wf |
| LstmLayer.LSTM.SetWc_ij | lstm.h:74 | changes only entry [i, j] of Wc |
| LstmLayer.LSTM.SetUi | lstm.h:75 | replaces Ui only |
| LstmLayer.LSTM.SetUo | lstm.h:76 | replaces Uo only |
| LstmLayer.LSTM.SetUf | lstm.h:77 | replaces Uf only |
| LstmLayer.LSTM.SetUc | lstm.h:78 | replaces Uc only |
| LstmLayer.LSTM.SetUi_ij | lstm.h:79 | changes only entry [i, j] of Ui |
| LstmLayer.LSTM.SetUo_ij | lstm.h:80 | changes only entry [i, j] of Uo |
| LstmLayer.LSTM.SetUf_ij | lstm.h:81 | changes only entry [i, j] of Uf |
| LstmLayer.LSTM.SetUc_ij | lstm.h:82 | changes only entry [i, j] of Uc |
| LstmLayer.LSTM.Setbi | lstm.h:83 | replaces bi only |
| LstmLayer.LSTM.Setbo | lstm.h:84 | replaces bo only |
| LstmLayer.LSTM.Setbf | lstm.h:85 | replaces bf only |
| LstmLayer.LSTM.Setbc | lstm.h:86 | replaces bc only |
| LstmLayer.LSTM.Setbi_i | lstm.h:87 | changes only entry i of bi |
| LstmLayer.LSTM.Setbo_i | lstm.h:88 | changes only entry i of bo |
| LstmLayer.LSTM.Setbf_i | lstm.h:89 | changes only entry i of bf |
| LstmLayer.LSTM.Setbc_i | lstm.h:90 | changes only entry i of bc |
| LstmLayer.LSTM.OutputLen | lstm.h:94 | the output length is the length of the current output |
| LstmLayer.LSTM.Output | lstm.h:30-34 | the current output is zero before the first step and otherwise the latest state |
| LstmLayer.LSTM.Run | lstm.h:95 | the new hidden state is recorded in H by the cache rule and the cell state is replaced. t advances by one and H stays h x cache |
| LstmLayer.LSTM.Reset | lstm.h:96 | H and the cell state are cleared to zeros of the same shape and t is 0 |
| Conv2DLayer.WeightIndex | conv2d.h:62 | filter cell (r, c) is stored row-major at an index below w*h that / and % map back to (r, c) |
| Conv2DLayer.BiasIndex | conv2d.h:62 | the bias is stored after every cell weight |
| Conv2DLayer.WeightLayoutIsOneToOne | conv2d.h:62 | every stored cell weight belongs to a filter cell |
| Conv2DLayer.WeightIndexInjective | conv2d.h:62 | distinct filter cells are stored at distinct places |
| Conv2DLayer.CellWeights | conv2d.h:62 | one weight per filter cell, w*h of them |
| Conv2DLayer.WeightsAreCellsThenBias | conv2d.h:62 | the weight array is exactly the cell weights row by row followed by the bias |
| Conv2DLayer.SetWeightChangesOneCell | conv2d.h:62 | writing weight j changes cell (j/w, j%w) only when j < w*h, and the bias only when j = w*h |
| Conv2DLayer.Conv2D.constructor | conv2d.h:70 | a layer for the given input size with no filters |
| Conv2DLayer.Conv2D.AddFilter | conv2d.h:73 | grows n by one and returns the old n. Existing filters keep their order, and the new filter has the given size and w*h+1 weights |
| Conv2DLayer.Conv2D.SetW_i | conv2d.h:74 | replaces the weights of filter i only, with w*h+1 values |
| Conv2DLayer.Conv2D.SetW_ij | conv2d.h:75 | changes only weight j of filter i |
| Conv2DLayer.Conv2D.SetHorzStride_i | conv2d.h:76 | changes only the horizontal stride of filter i |
| Conv2DLayer.Conv2D.SetVertStride_i | conv2d.h:77 | changes only the vertical stride of filter i |
| Conv2DLayer.Conv2D.SetF_i | conv2d.h:78 | changes only the activation of filter i |
| Conv2DLayer.Conv2D.SetA_i | conv2d.h:79 | changes only the parameter of filter i |
| AccumLayer.Accum.constructor | accum.h:33 | an accumulator with the given number of inputs |
| NeuralNetwork.TypeCode | neuron.h:25-33 | tags are 0..8 and tag 0 is exactly the network input |
| NeuralNetwork.TypeFromCode | neuron.h:25-33 | a byte names a node type exactly when it is at most 8, and it names the type with that code |
| NeuralNetwork.TypeCodeRoundTrip | neuron.h:25-33 | decoding a type's tag gives back the type |
| NeuralNetwork.Selected | neuron.h:65-66 | an edge carries the half-open slice [selectorStart, selectorEnd) of the source output, of length selectorEnd - selectorStart |
| NeuralNetwork.AdjacentSelectorsConcatenate | neuron.h:65-66 | two adjacent selectors together carry the union of their slices, in order |
| NeuralNetwork.InsertBy | neuron.h:84 | inserting an edge adds exactly that edge and keeps the list ordered by the key |
| NeuralNetwork.NeuralNet.constructor | neuron.h:77 | an empty network: no edges, no layers and no variables |
| NeuralNetwork.NeuralNet.LinkLayers | neuron.h:81 | returns true exactly when the edge is linkable. On success the list grows by exactly that edge with the given fields. On failure the list is unchanged |
| NeuralNetwork.NeuralNet.SortEdges | neuron.h:84 | the list is ordered by the key and is a permutation of the old list: no edge is added, dropped or changed |
| NeuralNetwork.NeuralNet.AddDense | neuron.h:91 | appends a new dense layer and increments only denseLen |
| NeuralNetwork.NeuralNet.AddConv2D | neuron.h:92 | appends a new convolutional layer and increments only convLen |
| NeuralNetwork.NeuralNet.AddAccum | neuron.h:93 | appends a new accumulator and increments only accumLen |
| NeuralNetwork.NeuralNet.AddLSTM | neuron.h:94 | appends a new LSTM layer and increments only lstmLen |
| NeuralNetwork.NeuralNet.AddGRU | neuron.h:95 | appends a new GRU layer and increments only gruLen |
| NeuralNetwork.NeuralNet.AddPool | neuron.h:96 | appends a new pooling layer and increments only poolLen |
| NeuralNetwork.NeuralNet.AddUpres | neuron.h:97 | appends a new up-res layer and increments only upresLen |
| NeuralNetwork.NeuralNet.AddNormal | neuron.h:98 | appends a new normalization layer and increments only normalLen |

The network invariant `NeuralNet.Valid` is kept by every method. It says that each counter
equals its collection's length, that variable keys fit in 16 characters and the comment in
64, and that there are at most 255 variables, since the counter is an unsigned char
(neuron.h:35-37, neuron.h:50, neuron.h:131, neuron.h:135).

## Left out

- SIGMOID, HYPERBOLIC_TANGENT, SYMMETRICAL_SIGMOID and SOFTMAX are transcendental floating-point functions. They are fields of the `Transcendental` parameter, so only their placement is modelled.
- The GRU and LSTM gate arithmetic is the `cell` parameter of `Run`, for the same reason.
- FILL_INTERP (bilinear interpolation) is the `interp` parameter of the up-res maps. It is floating point and its edge policy is not stated.
- IEEE double and float rounding: values are `real`.
- Unsigned integer widths, wrap-around and the unsigned-char flag fields are not modelled, because sizes and indices are unbounded `nat`.
- The Conv2D sliding-window forward pass, `outputLen` and `run` are not modelled. The header describes the filters but not the sweep.
- Accum's `run` and `outputLen` are not modelled. No behaviour is stated beyond "no bias-1".
- `NeuralNet::run` and its scheduling are not modelled. They are declared only.
- `nameIndex` and `nameType` are not modelled. They are declared only.
- `NeuralNet.LinkLayers`: the cycle check and the check that the selector fits the source's output length are not modelled, since neither is given. The model refuses only unknown tags, a destination that is the network input, nonexistent indices and an empty selector.
- `NeuralNet.SortEdges`: the ordering key is not given, so it is a parameter.
- `NeuralNet.SortEdges`: the source permutes the array in place. The model reassigns the `seq` field with a functional insertion sort.
- `load` and `write` (file I/O) and every `print*` method (console output) are left out.
- `setName` and `name` are left out. The name buffer is modelled only where the dense constructor blanks it.
- `rand()` and its seeding are left out. The dense constructor takes its draws as a parameter in [0, RAND_MAX], with RAND_MAX = 2147483647.
- malloc failure with `exit(1)`, `new`/`delete` and the destructors are left out.
- Eigen matrices are sequences of rows.
- The source does not compile as written, and the model follows the evident intent:
  - `W` and `M` are declared `MatrixXf` but assigned `new MatrixXf(...)` in dense.cpp;
  - neuron.h names `DenseLayer`, `Conv2DLayer`, `AccumLayer`, `LSTMLayer`, `GRULayer`, `Pool2DLayer`, `UpresLayer` and `NormalLayer` where the classes are `Dense`, `Conv2D`, `Accum`, `LSTM`, `GRU`, `Pooling`, `Upres` and `Normalization`.
- dense.cpp's `outputLen` (dense.cpp:119-121) and `run` (dense.cpp:127-130) fall off the end without a return. That compiles, but the result is undefined behaviour when they are called. The model gives them the results the header promises.
- The empty method bodies in dense.cpp are not modelled as no-ops. The setters, `outputLen` and `run` follow the header contracts.
- PoolingLayer.Pooling.AddPool: the contract leaves the new pool's strides and reduction open, because the defaults are not in the source.
- UpresLayer.Upres.AddParams: the contract leaves the new record open. The roles of its two arguments and the default fill methods are not in the source.
- Conv2DLayer.Conv2D.AddFilter: the contract leaves the new filter's strides, activation, parameter and weight values open, because the defaults are not in the source.
- NormalizationLayer.Normalization.constructor: the contract leaves the initial m, s, g and b open, because the defaults are not in the source.
- GruLayer.GRU.constructor: the contract leaves the initial weights and biases open, because they are not in the source.
- LstmLayer.LSTM.constructor: the contract leaves the initial weights and biases open, because they are not in the source.
- NormalizationLayer.Normalization.Run: s = 0 is refused with `None` rather than dividing by zero. The header does not say what happens then.
- DenseLayer.Dense.SetM: the boolean setters take the bias-row booleans but always store 1 there, because the header requires the bias row of M to stay all 1.
- DenseLayer.Dense.SetM_i and DenseLayer.Dense.SetM_ij follow the same rule.
- The setters take decoded `Func`, `FillMethod` and `PoolFunc` values, so an out-of-range flag byte is not modelled.
- GruLayer.GRU.constructor and LstmLayer.LSTM.constructor require cache >= 1. With no columns there is nowhere to store a step.
- UpresLayer.Upres.constructor requires an input of at least 1 x 1. The output extent n + stride*(n-1) is not meaningful for n = 0 in unsigned arithmetic.
- PoolingLayer.Pooling.Run requires every pool to fit the map: size at least 1 and at most the map, strides at least 1. Otherwise the unsigned subtraction wraps and the division divides by zero.
- The FILL_SAME nearest-neighbour rule is not specified for a tie between two originals. The model gives a tie to the earlier (upper or left) original.
- MEDIAN is rank floor(n/2) of the ascending window, so an even window takes the upper middle value.
- The pooling quicksort in the source sorts an array of pointers to the window's values. The model sorts the values themselves, so pointer aliasing is not modelled.
- GruLayer.GRU.Run and LstmLayer.LSTM.Run: both take the gate arithmetic as an abstract cell, and they require it to return vectors of length h (for LSTM, both the state and the carry). The shape of H and of the output rests on that requirement.
- The Dense setters SetW, SetW_i, SetM and SetM_i and the GRU and LSTM matrix and vector setters take rows and sequences. The source passes flat `double*` and `bool*` buffers, and their layout is not modelled.
- Up-resolution inserts `stride` synthetic rows and columns between originals, as the field comments and the diagram (upres.h:11-22, upres.h:50-51) show.
