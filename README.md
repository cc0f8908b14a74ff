# tinygrad kernels in Dafny

This project models the kernel layer of tinygrad (`tinygrad/ops.py`). Each
differentiable operation is a pair of functions. `forward` computes the
output and saves what `backward` needs in a context. `backward` turns the
gradient of the output into gradients of the inputs. The model covers these
operations:

- Reshape, Mul, Add, ReLU, Dot and Sum.
- The direct two-dimensional convolution Conv2D: stride 1, no padding.
- MaxPool2x2: 2x2 blocks, stride 2.

Array elements are exact integers. Every tensor keeps its dimensions
explicitly, so an array with a zero-sized axis still knows its other axes, as
a numpy array does. There are three representations:

- a flat tensor: a shape and a row-major element sequence, for the
  rank-agnostic kernels;
- a matrix, for Dot;
- a 4-D tensor indexed `[batch, channel, row, column]`, for Conv2D and
  MaxPool2x2.

Where numpy refuses the operands, the forward pass returns an `Err`:

- a reshape target it cannot resolve;
- mismatched inner dimensions in Dot;
- in Conv2D, a kernel with no output channels, a kernel taller or wider
  than the input plus one, and, when there is at least one output position,
  an empty batch or, for a kernel of non-zero height and width, mismatched
  channels;
- an odd height or width in MaxPool2x2.

The kernels that work by loops and in-place updates are methods over Dafny
arrays:

- Conv2D forward and backward;
- MaxPool2x2 backward;
- ReLU backward.

MaxPool2x2 forward builds its list of the four strided views in a loop, over
a Dafny sequence, as the source builds a Python list.

Each of these loops is proved equal to a closed-form specification
function. Every operation also has a chain-rule statement that ties its
backward pass to its forward pass. For Reshape, Mul, Add, Dot and Sum, moving an input
by any `d` changes the output, weighted by the incoming gradient, by exactly
the input gradient weighted by `d`. ReLU has the same statement for moves
that keep each entry on its side of 0. MaxPool2x2 has an adjoint identity
instead. For Conv2D, each gradient is proved to be the adjoint of the
convolution in its operand, and the convolution linear in each operand;
together these give the same chain-rule statement as for Dot.

Modules:

- `Sums` (`sums.dfy`): finite sums, their algebra, and the vector dot product.
- `Tensors` (`tensors.dfy`): the value types and inner products.
- `ReshapeOp` (`reshape.dfy`).
- `MulOp`, `AddOp`, `ReLUOp` and `SumOp` (`elementwise.dfy`).
- `DotOp` (`dot.dfy`).
- `Conv2DOp` (`conv2d.dfy`): forward, backward and their specifications.
- `Conv2DGradient` (`conv2d_gradient.dfy`): the adjoint and chain-rule
  statements for Conv2D.
- `MaxPoolOp` (`maxpool.dfy`).

## Model

| member | source | states |
|---|---|---|
| ReshapeOp.ResolveShape | tinygrad/ops.py:9 | A resolved reshape target fills in every unknown (negative) entry, keeps every non-negative entry, has at most one unknown, and holds exactly the input's element count. |
| ReshapeOp.ResolveShapeUnique | tinygrad/ops.py:9 | The resolved shape is the only way of filling in the target to the element count. |
| ReshapeOp.ResolveShapeComplete | tinygrad/ops.py:9 | Whenever some filling-in of the target has the element count, numpy resolves the target. The one exception is an unknown beside a zero-sized entry. |
| ReshapeOp.ResolveShapeAmbiguous | tinygrad/ops.py:9 | An unknown entry beside a zero-sized entry is refused, whatever the element count. |
| ReshapeOp.ReshapeToRows | tinygrad/ops.py:101 | `reshape(rows, -1)` of rows*rest elements gives `[rows, rest]`. It is refused when rows is 0. |
| ReshapeOp.ReshapeForward | tinygrad/ops.py:7-9 | Forward keeps the element sequence and saves the input shape. The new shape completes the target. It fails exactly when the target cannot be resolved. |
| ReshapeOp.ReshapeBackward | tinygrad/ops.py:12-14 | Backward gives the gradient the saved input shape, unchanged in content, and gives no gradient for the shape argument. |
| ReshapeOp.ReshapeRoundTrip | tinygrad/ops.py:5-14 | Reshaping to a target and back to the input's shape returns the input. Backward through both returns the incoming gradient. |
| ReshapeOp.ReshapeGradient | tinygrad/ops.py:5-14 | Chain rule for Reshape: moving the input by d keeps the move resolvable and changes the output, weighted by grad, by exactly the returned gradient weighted by d. |
| ReshapeOp.NegativeEntriesAlike | tinygrad/ops.py:9 | Every negative target entry names the unknown dimension, as numpy reads it: replacing one negative entry by another leaves the resolved shape or the refusal unchanged. |
| MulOp.MulForward | tinygrad/ops.py:19-21 | The output is the entrywise product, and both operands are saved. |
| MulOp.MulBackward | tinygrad/ops.py:24-26 | The gradient for x is y*grad and the gradient for y is x*grad, entry by entry. |
| MulOp.MovedLeft | tinygrad/ops.py:19-21 | Moving the left factor by t moves the entrywise product by exactly t times the right factor. |
| MulOp.MovedRight | tinygrad/ops.py:19-21 | Moving the right factor by t moves the entrywise product by exactly the left factor times t. |
| MulOp.WeightedProduct | tinygrad/ops.py:24-26 | A move scaled entrywise by the other factor, weighted by grad, equals the move weighted by that factor times grad: the form backward returns. |
| MulOp.MulGradient | tinygrad/ops.py:17-26 | Chain rule: moving x by d, or y by e, changes the product by exactly what the matching backward gradient, weighted by d or e, predicts. |
| AddOp.AddForward | tinygrad/ops.py:31-32 | The output is the entrywise sum. |
| AddOp.AddBackward | tinygrad/ops.py:35-36 | Both operands receive the incoming gradient unchanged. |
| AddOp.MovedSum | tinygrad/ops.py:31-32 | Moving either summand by t moves the entrywise sum by exactly t. |
| AddOp.AddGradient | tinygrad/ops.py:29-36 | Chain rule for either operand of Add. |
| ReLUOp.ReLUForward | tinygrad/ops.py:41-43 | Each output entry is non-negative and at least its input. It is either 0 or the input, and it is the input where the input is non-negative. The input is saved. |
| ReLUOp.ReLUBackward | tinygrad/ops.py:46-50 | The gradient is copied and zeroed exactly where the saved input is negative. It passes through where the input is 0. |
| ReLUOp.ReLUGradient | tinygrad/ops.py:39-50 | Chain rule for every move that keeps each entry on its side of 0: right-hand slope at 0. |
| DotOp.DotForward | tinygrad/ops.py:55-57 | The product has shape n-by-m and both operands are saved. It fails exactly when the inner dimensions differ. |
| DotOp.DotBackward | tinygrad/ops.py:60-64 | The input gradient has the input's shape and the weight gradient has the weight's shape. |
| DotOp.TransposeMatMul | tinygrad/ops.py:63 | (A B)T = BT AT. |
| DotOp.TransposeTwice | tinygrad/ops.py:62-63 | Transposing twice returns the matrix. |
| DotOp.DotWeightGradient | tinygrad/ops.py:63 | `grad_output.T.dot(input).T` is `inputT . grad_output`. |
| DotOp.InnerMatMulLeft | tinygrad/ops.py:62 | <G, A B> = <G BT, A>: the input gradient is the adjoint of right multiplication by the weight. |
| DotOp.InnerMatMulRight | tinygrad/ops.py:63 | <G, A B> = <AT G, B>: the weight gradient is the adjoint of left multiplication by the input. |
| DotOp.InnerTranspose | tinygrad/ops.py:62-63 | Transposing both matrices keeps their inner product. |
| DotOp.DotGradient | tinygrad/ops.py:53-64 | Chain rule for Dot: moving the input by d, or the weight by e, changes the output, weighted by grad, by the input gradient weighted by d, or the weight gradient weighted by e. |
| SumOp.SumForward | tinygrad/ops.py:69-71 | The output is the one-element array of the total, and the input is saved. |
| SumOp.SumBackward | tinygrad/ops.py:74-76 | Every entry of the input gradient is the incoming scalar, in the input's shape, or (1,) for a 0-d input. |
| SumOp.SumGradient | tinygrad/ops.py:67-76 | Chain rule: the incoming scalar times the change of the total is the broadcast gradient weighted by the move. |
| Conv2DOp.Conv | tinygrad/ops.py:99-110 | The convolution has shape (bs, cout, h-H+1, w-W+1). Entry [b,co,Y,X] is the sum of x[b,ci,Y+i,X+j]*w[co,ci,i,j]. |
| Conv2DOp.ConvReshapes | tinygrad/ops.py:101-108 | `w.reshape(cout, -1)` and the window `reshape(bs, -1)` fail exactly when cout or bs is 0. |
| Conv2DOp.DotFlatten3 | tinygrad/ops.py:108-109 | The dot product of two row-major flattenings of a c-by-h-by-w block is the sum of the entrywise products over the block. |
| Conv2DOp.FillPosition | tinygrad/ops.py:107-109 | Writing output position (Y, X) sets every `ret[:, :, Y, X]` entry to its convolution value, keeps the positions before it in row-major order, and leaves every other position unchanged. |
| Conv2DOp.WindowDot | tinygrad/ops.py:101-109 | The flattened window, dotted with the flattened kernel, is the output entry at that position. |
| Conv2DOp.SlideKernel | tinygrad/ops.py:105-109 | After the loop over all output positions in row-major order, every entry of ret is its convolution value. |
| Conv2DOp.ConvForward | tinygrad/ops.py:99-110 | Forward returns the convolution and saves both operands. It fails exactly in the cases numpy refuses, and with numpy's reason. |
| Conv2DOp.AddWeightStep | tinygrad/ops.py:122-124 | One position's `gg.T.dot(tx)` adds its term to every dw entry. |
| Conv2DOp.AddInputStep | tinygrad/ops.py:122-125 | One position's `gg.dot(tw)` adds its term to the dx entries under its window only. |
| Conv2DOp.Accumulate | tinygrad/ops.py:119-125 | After all output positions, dw holds at every entry the sum of all positions' weight contributions, and dx holds at every cell the sum over the positions whose window covers it. |
| Conv2DOp.ZeroGrads | tinygrad/ops.py:119 | dx and dw start as two distinct fresh arrays of the input's and the kernel's shape holding no contribution, that is 0 everywhere. |
| Conv2DOp.AccumulateRow | tinygrad/ops.py:121-125 | The inner loop over one row Y of output positions adds exactly their contributions to dx and dw, on top of those of the rows before it. |
| Conv2DOp.ConvBackward | tinygrad/ops.py:113-126 | Backward returns exactly the accumulated input gradient and weight gradient. |
| Conv2DGradient.OutputEntry | tinygrad/ops.py:105-109 | One output entry, weighted by the incoming gradient there, is the sum over the kernel block of the gradient times each input-kernel product. |
| Conv2DGradient.WindowAsCells | tinygrad/ops.py:122-125 | The window sum at an output position equals a sum over all input cells, where cells outside the window contribute 0. |
| Conv2DGradient.ConvWeightAdjoint | tinygrad/ops.py:99-126 | The weight gradient is the adjoint of the convolution in its kernel. For any kernel e, <g, Conv(x, e)> equals <dw, e>. |
| Conv2DGradient.ConvInputAdjoint | tinygrad/ops.py:99-126 | The input gradient is the adjoint of the convolution in its input. For any input d, <g, Conv(d, w)> equals <dx, d>. |
| Conv2DGradient.ConvAtSumInput | tinygrad/ops.py:105-109 | An output entry of the convolution of a sum of inputs is the sum of the two entries. |
| Conv2DGradient.ConvAtSumKernel | tinygrad/ops.py:105-109 | An output entry of the convolution by a sum of kernels is the sum of the two entries. |
| Conv2DGradient.ConvLinearInput | tinygrad/ops.py:99-110 | Moving the input by d moves the whole output by exactly Conv(d, w). |
| Conv2DGradient.ConvLinearKernel | tinygrad/ops.py:99-110 | Moving the kernel by e moves the whole output by exactly Conv(x, e). |
| Conv2DGradient.ConvInputGradient | tinygrad/ops.py:97-126 | Chain rule for Conv2D, input side: moving the input by d changes the output, weighted by grad, by exactly the returned input gradient weighted by d. |
| Conv2DGradient.ConvWeightGradient | tinygrad/ops.py:97-126 | Chain rule for Conv2D, kernel side: moving the kernel by e changes the output, weighted by grad, by exactly the returned weight gradient weighted by e. |
| MaxPoolOp.ArgMax | tinygrad/ops.py:182 | np.argmax: a position holding the largest entry, the first such. |
| MaxPoolOp.MaxOf | tinygrad/ops.py:184 | np.max: an entry of the sequence no smaller than any other. |
| MaxPoolOp.ArgMaxHoldsMax | tinygrad/ops.py:182-184 | The saved index points at the pooled value. |
| MaxPoolOp.Strided | tinygrad/ops.py:180 | `x[:, :, Y::2, X::2]` has ceil-halved extents. Its entry [y, xx] is x at [2y+Y, 2xx+X]. |
| MaxPoolOp.ViewStackShape | tinygrad/ops.py:177-181 | The four strided views concatenate exactly when the height and width are even. |
| MaxPoolOp.ViewStackColumn | tinygrad/ops.py:178-182 | The column of the stack at an output cell is that cell's 2x2 block, in view order Y*2+X. |
| MaxPoolOp.ReduceViewStackMax | tinygrad/ops.py:184 | np.max over the stack of views is the block maximum at every cell. |
| MaxPoolOp.ReduceViewStackArgMax | tinygrad/ops.py:182 | np.argmax over the stack of views is the first block winner at every cell. |
| MaxPoolOp.StackViews | tinygrad/ops.py:177-180 | The loop builds the list of the four strided views in the order Y*2+X. |
| MaxPoolOp.StackRow | tinygrad/ops.py:179-180 | The inner loop appends the two views of row parity Y after the ones before them. |
| MaxPoolOp.MaxPoolForward | tinygrad/ops.py:176-184 | Forward returns the block maxima and saves the block winners. An odd height or width is refused. |
| MaxPoolOp.Unpool | tinygrad/ops.py:190-193 | The input gradient has twice the height and width. Each cell holds the gradient of its block if it won, else 0. |
| MaxPoolOp.RouteView | tinygrad/ops.py:192-193 | `ret[:, :, Y::2, X::2] = grad_output * (idxs == Y*2+X)` gives every cell of view Y*2+X its routed gradient, keeps the views written before, and leaves every cell outside view Y*2+X unchanged. |
| MaxPoolOp.MaxPoolBackward | tinygrad/ops.py:187-194 | Backward, four strided writes into a zero array, yields exactly the routed gradient. |
| MaxPoolOp.BlockSum | tinygrad/ops.py:191-193 | The four cells of a block together receive exactly the block's incoming gradient. |
| MaxPoolOp.GatherWinners | tinygrad/ops.py:182-184 | Picking every block's saved winner from the input gives the pooled output. |
| MaxPoolOp.PickWinner | tinygrad/ops.py:182-184 | Picking the cell named by np.argmax of a block gives np.max of the block. |
| MaxPoolOp.UnpoolAdjoint | tinygrad/ops.py:187-194 | Backward is the adjoint of gathering at the saved indices: <Unpool(idxs, g), d> = <g, Gather(idxs, d)>. |
| MaxPoolOp.MaxPoolAdjoint | tinygrad/ops.py:174-194 | The routed gradient weighted by the input equals the incoming gradient weighted by the pooled output. |

## Left out

- LogSoftmax (tinygrad/ops.py:79-94): it works on floating-point exp and log, which exact integer elements cannot express.
- FastConv2D (tinygrad/ops.py:129-171): it is built on `im2col`/`col2im` in `tinygrad/utils.py`, which is not part of this model. The direct Conv2D it replaces is modelled.
- The `register` calls and the `Function` engine in `tinygrad/tensor.py`: they are not part of this model. Each backward pass takes the forward output's shape for its gradient as a precondition, because the engine guarantees it.
- numpy broadcasting and dtypes: Mul and Add are modelled on operands of one shape, and all elements are unbounded integers, so overflow and rounding are not modelled.
- DotOp.DotForward: models rank-2 operands only. numpy's `dot` on vectors and higher ranks is not modelled.
- Errors are modelled as `ShapeMismatch` or `NegativeDimension`, not as numpy's exception text.
- ReLUOp.ReLUGradient: holds only for moves that keep every entry on its side of 0, because ReLU has no derivative at 0.
- SumOp.SumForward: the source saves the whole input, although backward uses only its shape. The model saves the input, as the code does.
- Conv2DOp.ConvBackward: requires the kernel and input to pass forward's checks, and the gradient to have the output's shape. The source's backward is only reached after a successful forward.
- Conv2DGradient.ConvInputAdjoint: stated for inputs whose channel count equals the kernel's. Forward accepts a mismatch only when there is no output position or the kernel is empty in height or width, and then there is no gradient to relate.
- Conv2DGradient.ConvInputGradient: carries the same channel precondition as ConvInputAdjoint, for the same reason.
- MaxPoolOp.MaxPoolBackward: requires the saved indices to have the gradient's shape, as a successful forward guarantees.
- The training script `examples/hlb_cifar10.py`: it is a driver, not a kernel.
