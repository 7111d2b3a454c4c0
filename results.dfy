/** Outcome types shared by the whole model. */
module Results {

  /** A fallible step, as `anyhow::Result` in the source. */
  datatype Result<T, E> = Ok(value: T) | Err(error: E)

  /** An optional value; the constructors avoid the name `None`, which belongs to `Lib.Action`. */
  datatype Option<T> = Nothing | Some(value: T)

  /** The reasons a backtest pass aborts. */
  datatype Error =
    | InsufficientData   // fewer ETH candles than one window
    | PromptUnreadable   // the base prompt file cannot be read
    | ModelTransport     // the model call failed (non-2xx status, timeout, bad envelope)
    | NotJson            // the per-window answer is not JSON after stripping code fences
    | MissingAction      // the per-window answer has no string `action` field
    | LedgerUnreadable   // the history file exists but cannot be read
}
