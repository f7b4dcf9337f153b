/** The constants of the protocol and of the server's budgets. */
module Limits {

  const MAX_PLAINTEXT := 16384 - 2
  const FRAME_HEADER := 7
  const MAX_PAYLOAD := MAX_PLAINTEXT - FRAME_HEADER

  const WINDOW := 4 * 0x10_0000
  const CREDIT_THRESHOLD := WINDOW / 2
  const SESSION_CAP := 128 * 0x10_0000
  const GLOBAL_CAP := 256 * 0x10_0000

  const MAX_CONCURRENT_OPENS := 64

  const TWO32 := 0x1_0000_0000

  type StreamId = n: nat | n < TWO32
}
