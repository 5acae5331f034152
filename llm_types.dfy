/** The record describing one language model offered in the model picker. */
module LlmTypes {
  import opened Wrappers

  /** Price per unit of tokens, in `currency`. */
  datatype Pricing = Pricing(currency: string, unit: string, inputCost: real, outputCost: real)

  /** One model: its id in the app, display name, provider, the id the
      provider's API expects, a documentation link, whether it takes images,
      and its price when known. */
  datatype LLM = LLM(modelId: string, modelName: string, provider: string, hostedId: string,
                     platformLink: string, imageInput: bool, pricing: Option<Pricing>)

  /** The `modelId`s of a list of models, in order. */
  function ModelIds(models: seq<LLM>): (ids: seq<string>)
    ensures |ids| == |models|
    ensures forall i :: 0 <= i < |models| ==> ids[i] == models[i].modelId
  {
    seq(|models|, i requires 0 <= i < |models| => models[i].modelId)
  }

  /** No two models of the list share a `modelId`. */
  predicate DistinctIds(models: seq<LLM>) {
    forall i, j :: 0 <= i < j < |models| ==> models[i].modelId != models[j].modelId
  }
}
