// The AI Gateway's vocabulary.
module Domain {
  datatype ProviderKind = Unspecified | Ollama | Stub | OpenAI | Anthropic

  datatype FinishReason = NoReason | Stop | Length | ContentFilter | Failed

  const MAX_INT32 := 0x7FFF_FFFF
  const MIN_INT32 := -0x8000_0000

  type int32 = n: int | MIN_INT32 <= n <= MAX_INT32

  // 32-bit signed addition, which wraps around.
  function Add32(a: int32, b: int32): int32 {
    if a + b > MAX_INT32 then a + b - 0x1_0000_0000
    else if a + b < MIN_INT32 then a + b + 0x1_0000_0000
    else a + b
  }

  datatype TokenUsage = TokenUsage(promptTokens: int32, completionTokens: int32, totalTokens: int32, costMicroUSD: int)

  const NO_USAGE := TokenUsage(0, 0, 0, 0)

  // One frame of a streamed completion.
  datatype Delta = Delta(text: string, done: bool, usage: TokenUsage, finish: FinishReason)

  const ERROR_FRAME := Delta("", true, NO_USAGE, Failed)

  // The sum differs from the true one by a multiple of 2^32, and by nothing if that fits.
  lemma Add32Wraps(a: int32, b: int32)
    ensures (Add32(a, b) - (a + b)) % 0x1_0000_0000 == 0
    ensures MIN_INT32 <= a + b <= MAX_INT32 ==> Add32(a, b) == a + b
  {}
}
