// Pricing a completion in micro-USD.
module Cost {
  import opened Domain

  datatype Rate = Rate(promptMicroPer1K: nat, outputMicroPer1K: nat)

  function RateOf(kind: ProviderKind): Rate {
    match kind
    case Ollama => Rate(100, 400)
    case Stub => Rate(100, 400)
    case OpenAI => Rate(500, 1500)
    case Anthropic => Rate(800, 2400)
    case Unspecified => Rate(0, 0)
  }

  // Integer division that truncates toward zero.
  function Quotient(a: int, b: int): int
    requires b > 0
  {
    if a >= 0 then a / b else -(-a / b)
  }

  // A thousand times what tokens cost at a rate per thousand.
  function Milli(tokens: int, rate: nat): int { tokens * rate }

  function CostMicroUSD(kind: ProviderKind, promptTokens: int32, outputTokens: int32): int {
    var r := RateOf(kind);
    Quotient(Milli(promptTokens, r.promptMicroPer1K), 1000) + Quotient(Milli(outputTokens, r.outputMicroPer1K), 1000)
  }

  // A thousand times the exact price.
  function ExactMilli(kind: ProviderKind, promptTokens: int, outputTokens: int): int {
    Milli(promptTokens, RateOf(kind).promptMicroPer1K) + Milli(outputTokens, RateOf(kind).outputMicroPer1K)
  }

  lemma MilliIsBounded(tokens: int32, rate: nat)
    requires tokens >= 0 && rate <= 2400
    ensures 0 <= Milli(tokens, rate) <= MAX_INT32 * 2400
  {
    assert tokens * rate <= tokens * 2400;
  }

  lemma RoundsDown(x: nat, y: nat)
    requires x <= MAX_INT32 * 2400 && y <= MAX_INT32 * 2400
    ensures var cost := Quotient(x, 1000) + Quotient(y, 1000);
            1000 * cost <= x + y < 1000 * cost + 2000 && 0 <= cost < 0x8000_0000_0000_0000
  {}

  // Charging rounds down, by less than two micro-USD, and fits in 64 bits.
  lemma CostRoundsDown(kind: ProviderKind, promptTokens: int32, outputTokens: int32)
    requires promptTokens >= 0 && outputTokens >= 0
    ensures var cost := CostMicroUSD(kind, promptTokens, outputTokens);
            && 1000 * cost <= ExactMilli(kind, promptTokens, outputTokens) < 1000 * cost + 2000
            && 0 <= cost < 0x8000_0000_0000_0000
  {
    var r := RateOf(kind);
    MilliIsBounded(promptTokens, r.promptMicroPer1K);
    MilliIsBounded(outputTokens, r.outputMicroPer1K);
    RoundsDown(Milli(promptTokens, r.promptMicroPer1K), Milli(outputTokens, r.outputMicroPer1K));
  }

  // q is x thousandths with the fraction dropped.
  predicate Truncated(x: int, q: int) {
    (x >= 0 ==> 0 <= 1000 * q <= x < 1000 * q + 1000) && (x <= 0 ==> 1000 * q - 1000 < x <= 1000 * q <= 0)
  }

  // Prompt and answer are rounded apart, each toward zero.
  lemma PartsAreTruncated(kind: ProviderKind, promptTokens: int32, outputTokens: int32)
    ensures var prompt, output := CostMicroUSD(kind, promptTokens, 0), CostMicroUSD(kind, 0, outputTokens);
            && CostMicroUSD(kind, promptTokens, outputTokens) == prompt + output
            && Truncated(ExactMilli(kind, promptTokens, 0), prompt)
            && Truncated(ExactMilli(kind, 0, outputTokens), output)
  {
    assert forall rate: nat :: Milli(0, rate) == 0;
    QuotientTruncates(Milli(promptTokens, RateOf(kind).promptMicroPer1K));
    QuotientTruncates(Milli(outputTokens, RateOf(kind).outputMicroPer1K));
  }

  lemma QuotientTruncates(x: int)
    ensures Truncated(x, Quotient(x, 1000))
  {}

  // What a thousand tokens cost with each provider, prompts and answers; an unknown provider is free.
  lemma PricesPerThousand(prompts: nat, outputs: nat)
    requires 1000 * prompts <= MAX_INT32 && 1000 * outputs <= MAX_INT32
    ensures CostMicroUSD(Ollama, 1000 * prompts, 1000 * outputs) == 100 * prompts + 400 * outputs
    ensures CostMicroUSD(Stub, 1000 * prompts, 1000 * outputs) == 100 * prompts + 400 * outputs
    ensures CostMicroUSD(OpenAI, 1000 * prompts, 1000 * outputs) == 500 * prompts + 1500 * outputs
    ensures CostMicroUSD(Anthropic, 1000 * prompts, 1000 * outputs) == 800 * prompts + 2400 * outputs
    ensures CostMicroUSD(Unspecified, 1000 * prompts, 1000 * outputs) == 0
  {}
}
