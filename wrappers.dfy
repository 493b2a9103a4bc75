/** Option and Result, and the failures the modelled code raises. */
module Wrappers {

  datatype Option<+T> = None | Some(value: T)

  /** A failure-compatible result: `:-` propagates the first failure. */
  datatype Result<+T, +E> = Ok(value: T) | Err(error: E) {
    predicate IsFailure() { Err? }

    function PropagateFailure<U>(): Result<U, E>
      requires Err?
    {
      Err(error)
    }

    function Extract(): T
      requires Ok?
    {
      value
    }
  }

  /** The exceptions the network builder and the forward passes raise, by cause. */
  datatype Error =
    | EmptyConfig                          // cfg[0] on an empty configuration list
    | HeadNotChannelCount                  // the head of a configuration is not an integer (refused up front)
    | EmptyToken                           // v[0] on the empty string (IndexError)
    | BadInteger(token: string)            // int(...) on a non-numeric part of a token (ValueError)
    | UnknownToken(token: string)          // "Error reading net cfg, unknown later" followed by exit(1)
    | ResBlockRatio(inCh: int, outCh: int) // assert(out_ch==2*in_ch) in the residual block
    | NegativeDimension(size: int)         // a layer's parameter tensor given a negative size (RuntimeError)
    | GroupCount(channels: int)            // nn.GroupNorm(8, channels) on a width 8 does not divide (ValueError)
    | NotAChannelCount(token: string)      // a string handed to nn.Conv2d as a channel count
    | NotCallable                          // the weight_norm flag called as if it were a function
    | LevelIndex(index: int)               // levels[p] out of range (IndexError)
    | NotAnUpBlock(stage: nat)             // a plain stage called with a skip input (TypeError)
    | UndefinedLevels                      // the anchor variant reads a name it never defined (NameError)
    | EmptyStack                           // torch.stack on an empty list of tensors (RuntimeError)
    | HookIndex                            // net_down_modules[-2] on a one-element list (IndexError)
    | SkipMissing                          // an up block called without its skip input (TypeError)
    | TrunkShape                           // a trunk output without the final convolution's channel count
    | ViewSize                             // view(..., -1, w) on a number of values that w does not divide
}
