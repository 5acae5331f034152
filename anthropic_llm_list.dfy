/** The table of Anthropic models the app offers, in menu order. */
module AnthropicModels {
  import opened Wrappers
  import opened LlmTypes

  const PlatformLink := "https://docs.anthropic.com/claude/reference/getting-started-with-the-api"

  /** The price unit every priced Anthropic entry uses. */
  function PerMillion(inputCost: real, outputCost: real): Option<Pricing> {
    Some(Pricing("USD", "1M tokens", inputCost, outputCost))
  }

  const Claude2 := LLM("claude-2.1", "Claude 2", "anthropic", "claude-2.1", PlatformLink, false, PerMillion(8.0, 24.0))
  const ClaudeInstant := LLM("claude-instant-1.2", "Claude Instant", "anthropic", "claude-instant-1.2", PlatformLink, false, PerMillion(0.8, 2.4))
  const Claude3Haiku := LLM("claude-3-haiku-20240307", "Claude 3 Haiku", "anthropic", "claude-3-haiku-20240307", PlatformLink, true, PerMillion(0.25, 1.25))
  const Claude3Sonnet := LLM("claude-3-sonnet-20240229", "Claude 3 Sonnet", "anthropic", "claude-3-sonnet-20240229", PlatformLink, true, PerMillion(3.0, 15.0))
  const Claude3Opus := LLM("claude-3-opus-20240229", "Claude 3 Opus", "anthropic", "claude-3-opus-20240229", PlatformLink, true, PerMillion(15.0, 75.0))
  const Claude35Sonnet := LLM("claude-3-5-sonnet-20240620", "Claude 3.5 Sonnet", "anthropic", "claude-3-5-sonnet-20240620", PlatformLink, true, PerMillion(3.0, 15.0))
  const Claude35Haiku := LLM("claude-3-5-haiku-20241022", "Claude 3.5 Haiku", "anthropic", "claude-3-5-haiku-20241022", PlatformLink, true, None)
  const Claude37Sonnet := LLM("claude-3-7-sonnet-20250219", "Claude 3.7 Sonnet", "anthropic", "claude-3-7-sonnet-20250219", PlatformLink, true, None)
  const Claude4Sonnet := LLM("claude-sonnet-4-20250514", "Claude 4 Sonnet", "anthropic", "claude-sonnet-4-20250514", PlatformLink, true, None)
  const Claude4Opus := LLM("claude-opus-4-20250514", "Claude 4 Opus", "anthropic", "claude-opus-4-20250514", PlatformLink, true, None)
  const Claude41Opus := LLM("claude-opus-4-1-20250805", "Claude 4.1 Opus", "anthropic", "claude-opus-4-1-20250805", PlatformLink, true, None)
  const Claude45Sonnet := LLM("claude-sonnet-4-5-20250929", "Claude 4.5 Sonnet", "anthropic", "claude-sonnet-4-5-20250929", PlatformLink, true, None)
  const Claude45Haiku := LLM("claude-haiku-4-5-20251001", "Claude 4.5 Haiku", "anthropic", "claude-haiku-4-5-20251001", PlatformLink, true, None)
  const Claude45Opus := LLM("claude-opus-4-5-20251101", "Claude 4.5 Opus", "anthropic", "claude-opus-4-5-20251101", PlatformLink, true, None)

  const AnthropicLlmList: seq<LLM> := [
    Claude2, ClaudeInstant, Claude3Haiku, Claude3Sonnet, Claude3Opus, Claude35Sonnet,
    Claude35Haiku, Claude37Sonnet, Claude4Sonnet, Claude4Opus, Claude41Opus,
    Claude45Sonnet, Claude45Haiku, Claude45Opus
  ]

  /** Fourteen entries, from Claude 2 to Claude 4.5 Opus in declaration order. */
  lemma {:induction false} ListOrder()
    ensures ModelIds(AnthropicLlmList) == [
      "claude-2.1", "claude-instant-1.2", "claude-3-haiku-20240307",
      "claude-3-sonnet-20240229", "claude-3-opus-20240229", "claude-3-5-sonnet-20240620",
      "claude-3-5-haiku-20241022", "claude-3-7-sonnet-20250219", "claude-sonnet-4-20250514",
      "claude-opus-4-20250514", "claude-opus-4-1-20250805", "claude-sonnet-4-5-20250929",
      "claude-haiku-4-5-20251001", "claude-opus-4-5-20251101"]
    ensures |AnthropicLlmList| == 14
  {
  }

  /** Every entry is an Anthropic model called by its own id. */
  lemma {:induction false} AllAnthropic()
    ensures forall m :: m in AnthropicLlmList ==>
              m.provider == "anthropic" && m.hostedId == m.modelId && m.platformLink == PlatformLink
  {
  }

  /** No id is listed twice. */
  lemma {:induction false} IdsDistinct()
    ensures DistinctIds(AnthropicLlmList)
  {
    ListOrder();
  }

  /** The hard-coded fallback default is the sixth entry. */
  lemma {:induction false} FallbackListed()
    ensures AnthropicLlmList[5].modelId == "claude-3-5-sonnet-20240620"
    ensures "claude-3-5-sonnet-20240620" in ModelIds(AnthropicLlmList)
  {
    assert ModelIds(AnthropicLlmList)[5] == "claude-3-5-sonnet-20240620";
  }

  /** Only Claude 2 and Claude Instant refuse image input. */
  lemma {:induction false} ImageInputFromThirdEntry()
    ensures forall i :: 0 <= i < |AnthropicLlmList| ==> (!AnthropicLlmList[i].imageInput <==> i < 2)
  {
  }

  /** The first six entries carry a USD price per million tokens; the rest
      carry none. */
  lemma {:induction false} PricingOnFirstSix()
    ensures forall i :: 0 <= i < |AnthropicLlmList| ==> (AnthropicLlmList[i].pricing.Some? <==> i < 6)
    ensures forall i :: 0 <= i < |AnthropicLlmList| && AnthropicLlmList[i].pricing.Some? ==>
              AnthropicLlmList[i].pricing.value.currency == "USD"
              && AnthropicLlmList[i].pricing.value.unit == "1M tokens"
  {
  }

  /** The model id written into provisioned home workspaces is not listed. */
  lemma {:induction false} WorkspaceDefaultNotListed()
    ensures "gpt-4-1106-preview" !in ModelIds(AnthropicLlmList)
  {
    ListOrder();
  }
}
