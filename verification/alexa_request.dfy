/** The request document a skill handler receives: the nested record that the
    LaunchRequest and IntentRequest JSON templates hold and RequestBuilder edits.
    Only the properties the builder reads or writes are modelled. */
module AlexaRequest {
  import opened Wrappers

  /** An arbitrary JSON value, as stored under context.System.device.supportedInterfaces. */
  datatype Json =
    | JNull
    | JBool(b: bool)
    | JNumber(n: int)
    | JString(s: string)
    | JArray(items: seq<Json>)
    | JObject(members: map<string, Json>)

  /** The empty object `{}`, the default value of addSupportedInterface. */
  const EmptyObject: Json := JObject(map[])

  datatype Application = Application(applicationId: Option<string>)

  datatype User = User(userId: Option<string>)

  /** `session`; isNew is the JSON property `new`. */
  datatype Session = Session(isNew: bool, sessionId: Option<string>, application: Application, user: User)

  datatype Device = Device(deviceId: Option<string>, supportedInterfaces: map<string, Json>)

  /** `context.System` */
  datatype SystemContext = SystemContext(
    application: Application,
    user: User,
    device: Device,
    apiEndpoint: string,
    apiAccessToken: Option<string>)

  datatype Context = Context(system: SystemContext)

  datatype Intent = Intent(name: string, confirmationStatus: Option<string>)

  /** The inner `request` object; requestType is the JSON property `type`. */
  datatype Body = Body(
    requestType: string,
    requestId: Option<string>,
    timestamp: Option<string>,
    locale: string,
    intent: Option<Intent>)

  datatype Document = Document(version: string, session: Session, context: Context, request: Body)

  /** JavaScript truthiness of a string property: an absent property and '' are falsy. */
  predicate Truthy(p: Option<string>) {
    p.Some? && p.value != ""
  }

  /** The value of the JavaScript expression `a || fallback` for a string argument `a`. */
  function Or(a: Option<string>, fallback: string): string {
    if Truthy(a) then a.value else fallback
  }

  /** session.application.applicationId and context.System.application.applicationId agree. */
  predicate ApplicationIdsMirrored(d: Document) {
    d.session.application.applicationId == d.context.system.application.applicationId
  }

  /** session.user.userId and context.System.user.userId agree. */
  predicate UserIdsMirrored(d: Document) {
    d.session.user.userId == d.context.system.user.userId
  }

  /** The document with its eight identifier properties (the six the constructor fills,
      counting the mirrored copies of application and user id) erased: two documents with
      the same skeleton differ at most in their identifiers. */
  function Skeleton(d: Document): Document {
    d.(session := d.session.(sessionId := None,
                             application := Application(None),
                             user := User(None)),
       context := Context(d.context.system.(application := Application(None),
                                            user := User(None),
                                            device := d.context.system.device.(deviceId := None))),
       request := d.request.(requestId := None, timestamp := None))
  }
}
