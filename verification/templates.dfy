/** The shared request templates (LaunchRequest.json, IntentRequest.json) and
    Object.assign(template, request), the shallow merge both builder subclasses apply to
    them in place before constructing. */
module Templates {
  import opened Wrappers
  import opened AlexaRequest

  /** The top-level keys of a request document. */
  datatype Key = VersionKey | SessionKey | ContextKey | RequestKey

  /** One own property of the caller's `request` object: a top-level key and the whole
      value it carries. */
  datatype Property =
    | VersionProperty(version: string)
    | SessionProperty(session: Session)
    | ContextProperty(context: Context)
    | RequestProperty(body: Body)

  function KeyOf(p: Property): Key {
    match p
    case VersionProperty(_) => VersionKey
    case SessionProperty(_) => SessionKey
    case ContextProperty(_) => ContextKey
    case RequestProperty(_) => RequestKey
  }

  /** `target[key] = value` for one property: the whole top-level value is replaced. */
  function SetProperty(target: Document, p: Property): Document {
    match p
    case VersionProperty(v) => target.(version := v)
    case SessionProperty(s) => target.(session := s)
    case ContextProperty(c) => target.(context := c)
    case RequestProperty(b) => target.(request := b)
  }

  /** Object.assign(target, source): the properties of source copied onto target in order. */
  function Assign(target: Document, source: seq<Property>): Document {
    if source == [] then target
    else SetProperty(Assign(target, source[..|source| - 1]), source[|source| - 1])
  }

  /** The last property of source under key k, if any. */
  function LastWith(source: seq<Property>, k: Key): (r: Option<Property>)
    ensures r.Some? ==> r.value in source && KeyOf(r.value) == k
    ensures r.None? <==> forall p :: p in source ==> KeyOf(p) != k
  {
    if source == [] then None
    else if KeyOf(source[|source| - 1]) == k then Some(source[|source| - 1])
    else
      var r := LastWith(source[..|source| - 1], k);
      assert forall p :: p in source ==> p in source[..|source| - 1] || p == source[|source| - 1];
      r
  }

  /** Each top-level key the caller's object sets takes its (last) value there, wholesale;
      every other key keeps the template's value. */
  lemma {:induction false} AssignTakesLastValue(target: Document, source: seq<Property>)
    ensures var r := Assign(target, source);
      && r.version == (match LastWith(source, VersionKey)
                       case Some(VersionProperty(v)) => v
                       case _ => target.version)
      && r.session == (match LastWith(source, SessionKey)
                       case Some(SessionProperty(s)) => s
                       case _ => target.session)
      && r.context == (match LastWith(source, ContextKey)
                       case Some(ContextProperty(c)) => c
                       case _ => target.context)
      && r.request == (match LastWith(source, RequestKey)
                       case Some(RequestProperty(b)) => b
                       case _ => target.request)
  {
    if source != [] {
      AssignTakesLastValue(target, source[..|source| - 1]);
    }
  }

  /** With the default `request = {}` the template is left as it is. */
  lemma AssignEmpty(target: Document)
    ensures Assign(target, []) == target
  {
  }

  /** Two merges in a row are one merge of the concatenated properties: the first
      caller's overrides persist in the template under the second caller's. */
  lemma {:induction false} AssignAppend(target: Document, first: seq<Property>, second: seq<Property>)
    ensures Assign(Assign(target, first), second) == Assign(target, first + second)
  {
    if second != [] {
      var init := second[..|second| - 1];
      assert (first + second)[..|first + second| - 1] == first + init;
      AssignAppend(target, first, init);
    } else {
      assert first + second == first;
    }
  }

  /** Merging the same object twice changes nothing more. */
  lemma AssignIdempotent(target: Document, source: seq<Property>)
    ensures Assign(Assign(target, source), source) == Assign(target, source)
  {
    AssignTakesLastValue(target, source);
    AssignTakesLastValue(Assign(target, source), source);
  }

  /** A template object, shared by every builder of its kind. */
  class Template {
    var document: Document

    constructor (document: Document)
      ensures this.document == document
    {
      this.document := document;
    }

    /** Object.assign(this, source): merges in place and returns the template itself. */
    method AssignFrom(source: seq<Property>) returns (self: Template)
      modifies this
      ensures self == this
      ensures document == Assign(old(document), source)
    {
      document := Assign(document, source);
      self := this;
    }
  }
}
