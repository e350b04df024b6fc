/**
 * The consumer's per-message dispatch: a received JSON object is taken for a
 * standard or a premium order by which properties it has. `ContainsKey` on a
 * JObject compares names exactly (ordinal, case-sensitive), which is map
 * membership here. The consume loop and the console output around it are
 * not modelled.
 */
module Dispatch {
  import opened Json

  datatype OrderKind = StandardOrder | PremiumOrder | UnknownOrder

  const StandardKey: string := "standardFeatures"
  const DiscountKey: string := "premiumDiscountPercentage"
  const SupportKey: string := "dedicatedSupportContact"

  /** Which branch of the consumer's if/else chain a received object takes. */
  function Classify(received: map<string, Json>): (k: OrderKind)
    ensures k == StandardOrder <==> StandardKey in received
    ensures k == PremiumOrder <==>
      StandardKey !in received && DiscountKey in received && SupportKey in received
    ensures k == UnknownOrder <==>
      StandardKey !in received && (DiscountKey !in received || SupportKey !in received)
  {
    if StandardKey in received then StandardOrder
    else if DiscountKey in received && SupportKey in received then PremiumOrder
    else UnknownOrder
  }

  /** `standardFeatures` wins even when both premium properties are present too. */
  lemma StandardTakesPrecedence(received: map<string, Json>, v: Json)
    ensures Classify(received[StandardKey := v]) == StandardOrder
  {
  }

  /** One premium property without the other is not enough. */
  lemma OnePremiumKeyIsUnknown(received: map<string, Json>)
    requires StandardKey !in received
    requires (DiscountKey in received) != (SupportKey in received)
    ensures Classify(received) == UnknownOrder
  {
  }

  /** An object with none of the three properties is unknown. */
  lemma NoKeysIsUnknown(received: map<string, Json>)
    requires StandardKey !in received && DiscountKey !in received && SupportKey !in received
    ensures Classify(received) == UnknownOrder
  {
  }

  /** Only the property names matter, never their values. */
  lemma ClassifyReadsOnlyNames(r1: map<string, Json>, r2: map<string, Json>)
    requires r1.Keys == r2.Keys
    ensures Classify(r1) == Classify(r2)
  {
  }

  /** Names are matched exactly: the PascalCase spelling of a property does not count. */
  lemma NamesAreCaseSensitive(v: Json)
    ensures Classify(map["StandardFeatures" := v]) == UnknownOrder
    ensures Classify(map["PremiumDiscountPercentage" := v, "DedicatedSupportContact" := v]) == UnknownOrder
  {
  }
}
