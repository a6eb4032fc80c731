/** IntentRequestBuilder: merges the caller's overrides into the shared IntentRequest
    template, in place, builds a RequestBuilder from the result and sets the intent name. */
module IntentBuilder {
  import opened Wrappers
  import opened AlexaRequest
  import opened Templates
  import opened Builder

  /** The document a new IntentRequestBuilder(intentName) holds, given its merged seed. */
  function IntentInitialized(seed: Document, intentName: string, oracle: Oracle): Document
    requires seed.request.intent.Some?
  {
    InitializedKeepsSkeleton(seed, oracle);
    assert Skeleton(Initialized(seed, oracle)).request.intent == Initialized(seed, oracle).request.intent;
    WithIntentName(Initialized(seed, oracle), intentName)
  }

  /** The intent carries the requested name and keeps the rest of the seed's intent;
      apart from the intent the document is exactly the base constructor's. */
  lemma IntentInitializedSpec(seed: Document, intentName: string, oracle: Oracle)
    requires seed.request.intent.Some?
    ensures var r := IntentInitialized(seed, intentName, oracle);
      && r.request.intent == Some(seed.request.intent.value.(name := intentName))
      && r.(request := r.request.(intent := seed.request.intent)) == Initialized(seed, oracle)
  {
    InitializedKeepsSkeleton(seed, oracle);
    assert Skeleton(Initialized(seed, oracle)).request.intent == Initialized(seed, oracle).request.intent;
  }

  /** new IntentRequestBuilder(intentName, request); `intentRequest` is the shared
      IntentRequest template, whose merged value must carry an intent object. */
  method NewIntentRequestBuilder(intentRequest: Template, intentName: string, request: seq<Property>,
                                 oracle: Oracle)
    returns (b: RequestBuilder)
    requires Assign(intentRequest.document, request).request.intent.Some?
    modifies intentRequest
    ensures intentRequest.document == Assign(old(intentRequest.document), request)
    ensures fresh(b) && !b.initting
    ensures b.request == IntentInitialized(intentRequest.document, intentName, oracle)
    ensures b.GetIntentName() == intentName
  {
    var merged := intentRequest.AssignFrom(request);
    b := new RequestBuilder(merged.document, oracle);
    InitializedKeepsSkeleton(merged.document, oracle);
    assert Skeleton(b.request).request.intent == b.request.request.intent;
    var _ := b.SetIntentName(intentName);
  }
}
