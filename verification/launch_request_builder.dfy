/** LaunchRequestBuilder: merges the caller's overrides into the shared LaunchRequest
    template, in place, and builds a RequestBuilder from the result. */
module LaunchBuilder {
  import opened AlexaRequest
  import opened Templates
  import opened Builder

  /** new LaunchRequestBuilder(request); `launchRequest` is the shared LaunchRequest template. */
  method NewLaunchRequestBuilder(launchRequest: Template, request: seq<Property>, oracle: Oracle)
    returns (b: RequestBuilder)
    modifies launchRequest
    ensures launchRequest.document == Assign(old(launchRequest.document), request)
    ensures fresh(b) && !b.initting
    ensures b.request == Initialized(launchRequest.document, oracle)
  {
    var merged := launchRequest.AssignFrom(request);
    b := new RequestBuilder(merged.document, oracle);
  }

  /** What the builder's tests read from LaunchRequest.json: version 1.0, a new session,
      locale en-US. */
  predicate IsLaunchTemplate(d: Document) {
    d.version == "1.0" && d.session.isNew && d.request.locale == "en-US"
  }

  /** A launch request built from the untouched template keeps the template's version,
      session flag and locale. */
  lemma LaunchDefaults(template: Document, oracle: Oracle)
    requires IsLaunchTemplate(template)
    ensures var r := Initialized(Assign(template, []), oracle);
      r.version == "1.0" && r.session.isNew && r.request.locale == "en-US"
  {
    InitializedKeepsSkeleton(template, oracle);
    assert Skeleton(Initialized(template, oracle)).request.locale == Initialized(template, oracle).request.locale;
  }

  /** Two launch builders in a row: the first caller's overrides stay in the shared
      template and reach the second builder, while a setter on the first builder leaves
      the template alone. */
  method TemplateSharing(launchRequest: Template, first: seq<Property>, second: seq<Property>,
                         oracle1: Oracle, oracle2: Oracle, locale: string)
    returns (b1: RequestBuilder, b2: RequestBuilder)
    modifies launchRequest
    ensures launchRequest.document == Assign(old(launchRequest.document), first + second)
    ensures fresh(b1) && fresh(b2) && b1 != b2
    ensures b1.GetLocale() == locale
    ensures b2.request == Initialized(Assign(old(launchRequest.document), first + second), oracle2)
  {
    b1 := NewLaunchRequestBuilder(launchRequest, first, oracle1);
    var _ := b1.SetLocale(locale);
    b2 := NewLaunchRequestBuilder(launchRequest, second, oracle2);
    AssignAppend(old(launchRequest.document), first, second);
  }
}
