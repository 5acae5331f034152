/** The table of free Pollinations text models. */
module PollinationsModels {
  import opened Wrappers
  import opened JsText
  import opened LlmTypes

  const PlatformLink := "https://pollinations.ai"

  /** Pollinations models cost nothing. */
  const Free := Some(Pricing("USD", "1M tokens", 0.0, 0.0))

  const PollinationsOpenAI := LLM("pollinations-openai", "Pollinations OpenAI", "pollinations", "openai", PlatformLink, true, Free)
  const PollinationsOpenAILarge := LLM("pollinations-openai-large", "Pollinations OpenAI Large", "pollinations", "openai-large", PlatformLink, true, Free)
  const PollinationsMistral := LLM("pollinations-mistral", "Pollinations Mistral", "pollinations", "mistral", PlatformLink, true, Free)
  const PollinationsLlama := LLM("pollinations-llama", "Pollinations Llama 3.3", "pollinations", "llama", PlatformLink, false, Free)

  const PollinationsLlmList: seq<LLM> := [PollinationsOpenAI, PollinationsOpenAILarge, PollinationsMistral, PollinationsLlama]

  /** Four entries: openai, openai-large, mistral, llama. */
  lemma {:induction false} ListOrder()
    ensures ModelIds(PollinationsLlmList) == ["pollinations-openai", "pollinations-openai-large", "pollinations-mistral", "pollinations-llama"]
    ensures |PollinationsLlmList| == 4
  {
  }

  /** Every entry is a free Pollinations model. */
  lemma {:induction false} AllFreePollinations()
    ensures forall i :: 0 <= i < |PollinationsLlmList| ==>
              PollinationsLlmList[i].provider == "pollinations"
              && PollinationsLlmList[i].pricing.Some?
              && PollinationsLlmList[i].pricing.value.inputCost == 0.0
              && PollinationsLlmList[i].pricing.value.outputCost == 0.0
  {
  }

  /** The ids are distinct and all carry the "pollinations-" prefix. */
  lemma {:induction false} IdsDistinctAndPrefixed()
    ensures DistinctIds(PollinationsLlmList)
    ensures forall i :: 0 <= i < |PollinationsLlmList| ==> StartsWith(PollinationsLlmList[i].modelId, "pollinations-")
  {
  }

  /** Only the Llama entry refuses image input. */
  lemma {:induction false} ImageInputExceptLlama()
    ensures forall i :: 0 <= i < |PollinationsLlmList| ==>
              (!PollinationsLlmList[i].imageInput <==> PollinationsLlmList[i].modelId == "pollinations-llama")
  {
  }
}
