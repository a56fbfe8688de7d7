/**
  What several components share: optional values and the constants of the program.
*/
module Common {

  datatype Option<T> = None | Some(value: T)

  const PAGE_SIZE: nat := 0x1000

  /** The number of values of an unsigned long, and of addresses. */
  const WORDS: nat := 0x1_0000_0000_0000_0000

  /** How often disable_cs_trace tries before it gives up. */
  const TRACE_DISABLE_TRIAL: nat := 8
}
