/** RequestBuilder: a mutable request document with a getter and setter per property.
    Construction copies the seed and runs the six identifier setters while `initting`
    is true, so that they fill only identifiers the seed leaves falsy; afterwards every
    setter overwrites. */
module Builder {
  import opened Wrappers
  import opened AlexaRequest
  import RandomIds

  const SessionIdPrefix := "amzn1.ask.session"
  const ApplicationIdPrefix := "amzn1.ask.skill."
  const RequestIdPrefix := "amzn1.echo-api.request."

  /** The random draws and the clock reading that construction consumes, one per
      generated identifier; they stand for RandExp and `new Date()`. */
  datatype Oracle = Oracle(
    userDraw: seq<nat>,
    sessionDraw: seq<nat>,
    requestDraw: seq<nat>,
    applicationDraw: seq<nat>,
    deviceDraw: seq<nat>,
    now: string)

  datatype BuilderError = InvalidArgument(message: string)

  const ConfirmationStatusMessage := "Confirmation status must be 'NONE', 'CONFIRMED' or 'DENIED'"

  /** __shouldSet(prop): before construction ends only a falsy property may be set;
      afterwards every property may. */
  function ShouldSet(initting: bool, prop: Option<string>): (r: bool)
    ensures !initting ==> r
    ensures initting ==> (r <==> !Truthy(prop))
  {
    !initting || (initting && !Truthy(prop))
  }

  // The document after each identifier setter, given the phase and the setter's argument.

  function WithUserId(d: Document, initting: bool, id: Option<string>, draw: seq<nat>): Document {
    var userId := Some(Or(id, RandomIds.RandomUserId(draw)));
    if ShouldSet(initting, d.session.user.userId) then
      d.(session := d.session.(user := User(userId)),
         context := Context(d.context.system.(user := User(userId))))
    else d
  }

  function WithSessionId(d: Document, initting: bool, id: Option<string>, draw: seq<nat>): Document {
    var sessionId := Some(Or(id, RandomIds.GenerateRandomString(SessionIdPrefix, draw)));
    if ShouldSet(initting, d.session.sessionId) then d.(session := d.session.(sessionId := sessionId))
    else d
  }

  function WithRequestId(d: Document, initting: bool, id: Option<string>, draw: seq<nat>): Document {
    var requestId := Some(Or(id, RandomIds.GenerateRandomString(RequestIdPrefix, draw)));
    if ShouldSet(initting, d.request.requestId) then d.(request := d.request.(requestId := requestId))
    else d
  }

  function WithApplicationId(d: Document, initting: bool, id: Option<string>, draw: seq<nat>): Document {
    var applicationId := Some(Or(id, RandomIds.GenerateRandomString(ApplicationIdPrefix, draw)));
    if ShouldSet(initting, d.session.application.applicationId) then
      d.(session := d.session.(application := Application(applicationId)),
         context := Context(d.context.system.(application := Application(applicationId))))
    else d
  }

  function WithDeviceId(d: Document, initting: bool, id: Option<string>, draw: seq<nat>): Document {
    var deviceId := Some(Or(id, RandomIds.RandomDeviceId(draw)));
    if ShouldSet(initting, d.context.system.device.deviceId) then
      d.(context := Context(d.context.system.(device := d.context.system.device.(deviceId := deviceId))))
    else d
  }

  function WithTimestamp(d: Document, initting: bool, timestamp: Option<string>, now: string): Document {
    if ShouldSet(initting, d.request.timestamp) then
      d.(request := d.request.(timestamp := Some(Or(timestamp, now))))
    else d
  }

  function WithIntentName(d: Document, intentName: string): Document
    requires d.request.intent.Some?
  {
    d.(request := d.request.(intent := Some(d.request.intent.value.(name := intentName))))
  }

  predicate IsConfirmationStatus(status: string) {
    status == "NONE" || status == "CONFIRMED" || status == "DENIED"
  }

  /** setIntentConfirmationStatus on a document: only the three statuses are accepted;
      anything else fails and leaves no document behind. The intent must exist only when
      the status is accepted, because only then is it dereferenced. */
  function WithConfirmationStatus(d: Document, status: string): (r: Result<Document, BuilderError>)
    requires IsConfirmationStatus(status) ==> d.request.intent.Some?
    ensures r.Success? <==> status in {"NONE", "CONFIRMED", "DENIED"}
    ensures r.Success? ==> (r.value.request.intent.Some?
                            && r.value.request.intent.value.confirmationStatus == Some(status)
                            && r.value.request.intent.value.name == d.request.intent.value.name)
    ensures r.Success? ==> r.value.(request := r.value.request.(intent := d.request.intent)) == d
    ensures r.Failure? ==> r.error == InvalidArgument(ConfirmationStatusMessage)
  {
    if IsConfirmationStatus(status) then
      Success(d.(request := d.request.(intent := Some(d.request.intent.value.(confirmationStatus := Some(status))))))
    else
      Failure(InvalidArgument(ConfirmationStatusMessage))
  }

  /** __buildRequest: the six identifier setters in the source's order, each without an argument. */
  function FillIdentifiers(d: Document, initting: bool, oracle: Oracle): Document {
    var d1 := WithUserId(d, initting, None, oracle.userDraw);
    var d2 := WithSessionId(d1, initting, None, oracle.sessionDraw);
    var d3 := WithRequestId(d2, initting, None, oracle.requestDraw);
    var d4 := WithApplicationId(d3, initting, None, oracle.applicationDraw);
    var d5 := WithDeviceId(d4, initting, None, oracle.deviceDraw);
    WithTimestamp(d5, initting, None, oracle.now)
  }

  /** The document a new RequestBuilder(seed) holds. */
  function Initialized(seed: Document, oracle: Oracle): Document {
    FillIdentifiers(seed, true, oracle)
  }

  /** Fill-if-absent: each identifier the seed holds truthily survives construction; each
      falsy one receives a generated value. The context copies of application and user id
      follow their session copy's guard. */
  lemma InitializedFillsIfAbsent(seed: Document, oracle: Oracle)
    ensures var r := Initialized(seed, oracle);
      && r.session.user.userId ==
           (if Truthy(seed.session.user.userId) then seed.session.user.userId
            else Some(RandomIds.RandomUserId(oracle.userDraw)))
      && r.context.system.user.userId ==
           (if Truthy(seed.session.user.userId) then seed.context.system.user.userId
            else Some(RandomIds.RandomUserId(oracle.userDraw)))
      && r.session.sessionId ==
           (if Truthy(seed.session.sessionId) then seed.session.sessionId
            else Some(RandomIds.GenerateRandomString(SessionIdPrefix, oracle.sessionDraw)))
      && r.request.requestId ==
           (if Truthy(seed.request.requestId) then seed.request.requestId
            else Some(RandomIds.GenerateRandomString(RequestIdPrefix, oracle.requestDraw)))
      && r.session.application.applicationId ==
           (if Truthy(seed.session.application.applicationId) then seed.session.application.applicationId
            else Some(RandomIds.GenerateRandomString(ApplicationIdPrefix, oracle.applicationDraw)))
      && r.context.system.application.applicationId ==
           (if Truthy(seed.session.application.applicationId) then seed.context.system.application.applicationId
            else Some(RandomIds.GenerateRandomString(ApplicationIdPrefix, oracle.applicationDraw)))
      && r.context.system.device.deviceId ==
           (if Truthy(seed.context.system.device.deviceId) then seed.context.system.device.deviceId
            else Some(RandomIds.RandomDeviceId(oracle.deviceDraw)))
      && r.request.timestamp ==
           (if Truthy(seed.request.timestamp) then seed.request.timestamp else Some(oracle.now))
  {
    var d1 := WithUserId(seed, true, None, oracle.userDraw);
    var d2 := WithSessionId(d1, true, None, oracle.sessionDraw);
    var d3 := WithRequestId(d2, true, None, oracle.requestDraw);
    var d4 := WithApplicationId(d3, true, None, oracle.applicationDraw);
    var d5 := WithDeviceId(d4, true, None, oracle.deviceDraw);
    var r := WithTimestamp(d5, true, None, oracle.now);
    assert r == Initialized(seed, oracle);
    // each step writes only its own identifiers
    assert d5.session == d4.session && d3.session == d2.session;
    assert d4.session.user == d3.session.user && d2.session.user == d1.session.user;
    assert d2.session.sessionId == d5.session.sessionId == r.session.sessionId;
    assert d5.context.system.user == d1.context.system.user;
    assert seed.request.requestId == d2.request.requestId && d3.request.requestId == r.request.requestId;
    assert seed.session.application == d3.session.application;
    assert seed.context.system.application == d3.context.system.application;
    assert d4.context.system.application == r.context.system.application;
    assert seed.context.system.device == d4.context.system.device;
    assert seed.request.timestamp == d5.request.timestamp;
  }

  /** Construction touches nothing but the identifiers. */
  lemma InitializedKeepsSkeleton(seed: Document, oracle: Oracle)
    ensures Skeleton(Initialized(seed, oracle)) == Skeleton(seed)
  {
  }

  /** After construction every session-side identifier is truthy, and so is the timestamp
      when the seed or the clock supplies one. */
  lemma InitializedIdsTruthy(seed: Document, oracle: Oracle)
    ensures var r := Initialized(seed, oracle);
      && Truthy(r.session.user.userId)
      && Truthy(r.session.sessionId)
      && Truthy(r.request.requestId)
      && Truthy(r.session.application.applicationId)
      && Truthy(r.context.system.device.deviceId)
      && (Truthy(r.request.timestamp) <==> Truthy(seed.request.timestamp) || oracle.now != "")
  {
    InitializedFillsIfAbsent(seed, oracle);
  }

  /** The constructor leaves the two application ids equal exactly when the seed's were
      equal or the seed's session copy was falsy; likewise for the user ids. */
  lemma InitializedMirrors(seed: Document, oracle: Oracle)
    ensures ApplicationIdsMirrored(Initialized(seed, oracle)) <==>
      (!Truthy(seed.session.application.applicationId) || ApplicationIdsMirrored(seed))
    ensures UserIdsMirrored(Initialized(seed, oracle)) <==>
      (!Truthy(seed.session.user.userId) || UserIdsMirrored(seed))
  {
    InitializedFillsIfAbsent(seed, oracle);
  }

  /** Once construction is over, every identifier setter overwrites: a truthy argument is
      stored verbatim, a falsy one is replaced by a generated identifier. */
  lemma SettersOverwriteAfterInit(d: Document, id: Option<string>, draw: seq<nat>, now: string)
    ensures WithUserId(d, false, id, draw).session.user.userId == Some(Or(id, RandomIds.RandomUserId(draw)))
    ensures WithSessionId(d, false, id, draw).session.sessionId
      == Some(Or(id, RandomIds.GenerateRandomString(SessionIdPrefix, draw)))
    ensures WithRequestId(d, false, id, draw).request.requestId
      == Some(Or(id, RandomIds.GenerateRandomString(RequestIdPrefix, draw)))
    ensures WithApplicationId(d, false, id, draw).session.application.applicationId
      == Some(Or(id, RandomIds.GenerateRandomString(ApplicationIdPrefix, draw)))
    ensures WithDeviceId(d, false, id, draw).context.system.device.deviceId
      == Some(Or(id, RandomIds.RandomDeviceId(draw)))
    ensures WithTimestamp(d, false, id, now).request.timestamp == Some(Or(id, now))
  {
  }

  /** setApplicationId writes the same value to both copies or writes nothing, and the
      guard looks at the session copy only; setUserId likewise. Every other identifier
      setter keeps both mirror relations. */
  lemma SettersKeepMirrors(d: Document, initting: bool, id: Option<string>, draw: seq<nat>, now: string)
    ensures ShouldSet(initting, d.session.application.applicationId) ==>
      ApplicationIdsMirrored(WithApplicationId(d, initting, id, draw))
    ensures !ShouldSet(initting, d.session.application.applicationId) ==>
      WithApplicationId(d, initting, id, draw) == d
    ensures ShouldSet(initting, d.session.user.userId) ==> UserIdsMirrored(WithUserId(d, initting, id, draw))
    ensures !ShouldSet(initting, d.session.user.userId) ==> WithUserId(d, initting, id, draw) == d
    ensures ApplicationIdsMirrored(d) ==>
      && ApplicationIdsMirrored(WithApplicationId(d, initting, id, draw))
      && ApplicationIdsMirrored(WithUserId(d, initting, id, draw))
      && ApplicationIdsMirrored(WithSessionId(d, initting, id, draw))
      && ApplicationIdsMirrored(WithRequestId(d, initting, id, draw))
      && ApplicationIdsMirrored(WithDeviceId(d, initting, id, draw))
      && ApplicationIdsMirrored(WithTimestamp(d, initting, id, now))
    ensures UserIdsMirrored(d) ==>
      && UserIdsMirrored(WithUserId(d, initting, id, draw))
      && UserIdsMirrored(WithApplicationId(d, initting, id, draw))
      && UserIdsMirrored(WithSessionId(d, initting, id, draw))
      && UserIdsMirrored(WithRequestId(d, initting, id, draw))
      && UserIdsMirrored(WithDeviceId(d, initting, id, draw))
      && UserIdsMirrored(WithTimestamp(d, initting, id, now))
  {
  }

  class RequestBuilder {
    /** The builder's own copy of the request document. */
    var request: Document
    /** True only while the constructor runs __buildRequest. */
    var initting: bool

    /** new RequestBuilder(seed): deep-copies the seed (a value here), then fills the
        identifiers the seed leaves falsy. */
    constructor (seed: Document, oracle: Oracle)
      ensures !initting
      ensures request == Initialized(seed, oracle)
    {
      request := seed;
      initting := true;
      new;
      BuildRequest(oracle);
      initting := false;
    }

    /** __buildRequest */
    method BuildRequest(oracle: Oracle)
      modifies this`request
      ensures request == FillIdentifiers(old(request), initting, oracle)
    {
      var _ := SetUserId(None, oracle.userDraw);
      var _ := SetSessionId(None, oracle.sessionDraw);
      var _ := SetRequestId(None, oracle.requestDraw);
      var _ := SetApplicationId(None, oracle.applicationDraw);
      var _ := SetDeviceId(None, oracle.deviceDraw);
      var _ := SetTimestamp(None, oracle.now);
    }

    /** getRequest */
    function GetRequest(): Document
      reads this
    {
      request
    }

    function GetVersion(): string
      reads this
    {
      request.version
    }

    method SetVersion(version: string) returns (self: RequestBuilder)
      modifies this`request
      ensures self == this
      ensures GetVersion() == version
      ensures request == old(request).(version := version)
    {
      request := request.(version := version);
      self := this;
    }

    function GetIsNewSession(): bool
      reads this
    {
      request.session.isNew
    }

    method SetIsNewSession(isNew: bool) returns (self: RequestBuilder)
      modifies this`request
      ensures self == this
      ensures GetIsNewSession() == isNew
      ensures request == old(request).(session := old(request).session.(isNew := isNew))
    {
      request := request.(session := request.session.(isNew := isNew));
      self := this;
    }

    function GetSessionId(): Option<string>
      reads this
    {
      request.session.sessionId
    }

    method SetSessionId(id: Option<string>, draw: seq<nat>) returns (self: RequestBuilder)
      modifies this`request
      ensures self == this
      ensures request == WithSessionId(old(request), initting, id, draw)
      ensures !initting ==> GetSessionId() == Some(Or(id, RandomIds.GenerateRandomString(SessionIdPrefix, draw)))
    {
      var sessionId := Or(id, RandomIds.GenerateRandomString(SessionIdPrefix, draw));
      if ShouldSet(initting, request.session.sessionId) {
        request := request.(session := request.session.(sessionId := Some(sessionId)));
      }
      self := this;
    }

    function GetApplicationId(): Option<string>
      reads this
    {
      request.session.application.applicationId
    }

    method SetApplicationId(id: Option<string>, draw: seq<nat>) returns (self: RequestBuilder)
      modifies this`request
      ensures self == this
      ensures request == WithApplicationId(old(request), initting, id, draw)
      ensures ShouldSet(initting, old(request).session.application.applicationId) ==>
        GetApplicationId() == request.context.system.application.applicationId
          == Some(Or(id, RandomIds.GenerateRandomString(ApplicationIdPrefix, draw)))
    {
      var applicationId := Or(id, RandomIds.GenerateRandomString(ApplicationIdPrefix, draw));
      if ShouldSet(initting, request.session.application.applicationId) {
        request := request.(session := request.session.(application := Application(Some(applicationId))));
        request := request.(context := Context(request.context.system.(application := Application(Some(applicationId)))));
      }
      self := this;
    }

    function GetUserId(): Option<string>
      reads this
    {
      request.session.user.userId
    }

    method SetUserId(id: Option<string>, draw: seq<nat>) returns (self: RequestBuilder)
      modifies this`request
      ensures self == this
      ensures request == WithUserId(old(request), initting, id, draw)
      ensures ShouldSet(initting, old(request).session.user.userId) ==>
        GetUserId() == request.context.system.user.userId == Some(Or(id, RandomIds.RandomUserId(draw)))
    {
      var userId := Or(id, RandomIds.RandomUserId(draw));
      if ShouldSet(initting, request.session.user.userId) {
        request := request.(session := request.session.(user := User(Some(userId))));
        request := request.(context := Context(request.context.system.(user := User(Some(userId)))));
      }
      self := this;
    }

    function GetDeviceId(): Option<string>
      reads this
    {
      request.context.system.device.deviceId
    }

    method SetDeviceId(id: Option<string>, draw: seq<nat>) returns (self: RequestBuilder)
      modifies this`request
      ensures self == this
      ensures request == WithDeviceId(old(request), initting, id, draw)
      ensures !initting ==> GetDeviceId() == Some(Or(id, RandomIds.RandomDeviceId(draw)))
    {
      var deviceId := Or(id, RandomIds.RandomDeviceId(draw));
      if ShouldSet(initting, request.context.system.device.deviceId) {
        var device := request.context.system.device.(deviceId := Some(deviceId));
        request := request.(context := Context(request.context.system.(device := device)));
      }
      self := this;
    }

    function GetSupportedInterfaces(): map<string, Json>
      reads this
    {
      request.context.system.device.supportedInterfaces
    }

    method SetSupportedInterfaces(interfaces: map<string, Json>) returns (self: RequestBuilder)
      modifies this`request
      ensures self == this
      ensures GetSupportedInterfaces() == interfaces
      ensures request == old(request).(context := Context(old(request).context.system.(
        device := old(request).context.system.device.(supportedInterfaces := interfaces))))
    {
      var device := request.context.system.device.(supportedInterfaces := interfaces);
      request := request.(context := Context(request.context.system.(device := device)));
      self := this;
    }

    /** addSupportedInterface(name, value = {}): inserts or overwrites the one key `name`. */
    method AddSupportedInterface(name: string, value: Json := EmptyObject) returns (self: RequestBuilder)
      modifies this`request
      ensures self == this
      ensures GetSupportedInterfaces().Keys == old(GetSupportedInterfaces()).Keys + {name}
      ensures GetSupportedInterfaces()[name] == value
      ensures forall k :: k in old(GetSupportedInterfaces()) && k != name ==>
        GetSupportedInterfaces()[k] == old(GetSupportedInterfaces())[k]
      ensures request == old(request).(context := Context(old(request).context.system.(
        device := old(request).context.system.device.(supportedInterfaces := GetSupportedInterfaces()))))
    {
      var interfaces := request.context.system.device.supportedInterfaces[name := value];
      var device := request.context.system.device.(supportedInterfaces := interfaces);
      request := request.(context := Context(request.context.system.(device := device)));
      self := this;
    }

    /** supportsAudioInterface(value = {}): addSupportedInterface('AudioPlayer', value). */
    method SupportsAudioInterface(value: Json := EmptyObject) returns (self: RequestBuilder)
      modifies this`request
      ensures self == this
      ensures request == old(request).(context := Context(old(request).context.system.(
        device := old(request).context.system.device.(
          supportedInterfaces := old(GetSupportedInterfaces())["AudioPlayer" := value]))))
    {
      var _ := AddSupportedInterface("AudioPlayer", value);
      self := this;
    }

    function GetApiEndpoint(): string
      reads this
    {
      request.context.system.apiEndpoint
    }

    method SetApiEndpoint(endpoint: string) returns (self: RequestBuilder)
      modifies this`request
      ensures self == this
      ensures GetApiEndpoint() == endpoint
      ensures request == old(request).(context := Context(old(request).context.system.(apiEndpoint := endpoint)))
    {
      request := request.(context := Context(request.context.system.(apiEndpoint := endpoint)));
      self := this;
    }

    function GetRequestId(): Option<string>
      reads this
    {
      request.request.requestId
    }

    method SetRequestId(id: Option<string>, draw: seq<nat>) returns (self: RequestBuilder)
      modifies this`request
      ensures self == this
      ensures request == WithRequestId(old(request), initting, id, draw)
      ensures !initting ==> GetRequestId() == Some(Or(id, RandomIds.GenerateRandomString(RequestIdPrefix, draw)))
    {
      var requestId := Or(id, RandomIds.GenerateRandomString(RequestIdPrefix, draw));
      if ShouldSet(initting, request.request.requestId) {
        request := request.(request := request.request.(requestId := Some(requestId)));
      }
      self := this;
    }

    function GetApiAccessToken(): Option<string>
      reads this
    {
      request.context.system.apiAccessToken
    }

    /** setApiAccessToken: not gated by the construction phase; always overwrites. */
    method SetApiAccessToken(token: Option<string>, draw: seq<nat>) returns (self: RequestBuilder)
      modifies this`request
      ensures self == this
      ensures GetApiAccessToken() == Some(Or(token, RandomIds.RandomAccessToken(draw)))
      ensures request == old(request).(context := Context(old(request).context.system.(
        apiAccessToken := GetApiAccessToken())))
    {
      var value := Or(token, RandomIds.RandomAccessToken(draw));
      request := request.(context := Context(request.context.system.(apiAccessToken := Some(value))));
      self := this;
    }

    function GetLocale(): string
      reads this
    {
      request.request.locale
    }

    method SetLocale(locale: string) returns (self: RequestBuilder)
      modifies this`request
      ensures self == this
      ensures GetLocale() == locale
      ensures request == old(request).(request := old(request).request.(locale := locale))
    {
      request := request.(request := request.request.(locale := locale));
      self := this;
    }

    function GetTimestamp(): Option<string>
      reads this
    {
      request.request.timestamp
    }

    /** setTimestamp(timestamp): `now` stands for the current time rendered as ISO-8601. */
    method SetTimestamp(timestamp: Option<string>, now: string) returns (self: RequestBuilder)
      modifies this`request
      ensures self == this
      ensures request == WithTimestamp(old(request), initting, timestamp, now)
      ensures !initting ==> GetTimestamp() == Some(Or(timestamp, now))
    {
      if ShouldSet(initting, request.request.timestamp) {
        request := request.(request := request.request.(timestamp := Some(Or(timestamp, now))));
      }
      self := this;
    }

    function GetRequestType(): string
      reads this
    {
      request.request.requestType
    }

    method SetRequestType(requestType: string) returns (self: RequestBuilder)
      modifies this`request
      ensures self == this
      ensures GetRequestType() == requestType
      ensures request == old(request).(request := old(request).request.(requestType := requestType))
    {
      request := request.(request := request.request.(requestType := requestType));
      self := this;
    }

    function GetIntentName(): string
      reads this
      requires request.request.intent.Some?
    {
      request.request.intent.value.name
    }

    method SetIntentName(intentName: string) returns (self: RequestBuilder)
      requires request.request.intent.Some?
      modifies this`request
      ensures self == this
      ensures request == WithIntentName(old(request), intentName)
      ensures GetIntentName() == intentName
    {
      var intent := request.request.intent.value.(name := intentName);
      request := request.(request := request.request.(intent := Some(intent)));
      self := this;
    }

    function GetIntentConfirmationStatus(): Option<string>
      reads this
      requires request.request.intent.Some?
    {
      request.request.intent.value.confirmationStatus
    }

    /** setIntentConfirmationStatus: throws, changing nothing, unless the status is one of
        NONE, CONFIRMED and DENIED. */
    method SetIntentConfirmationStatus(status: string) returns (r: Result<RequestBuilder, BuilderError>)
      requires IsConfirmationStatus(status) ==> request.request.intent.Some?
      modifies this`request
      ensures r.Success? <==> IsConfirmationStatus(status)
      ensures r.Success? ==> r.value == this && Success(request) == WithConfirmationStatus(old(request), status)
      ensures r.Success? ==> GetIntentConfirmationStatus() == Some(status)
      ensures r.Failure? ==> (request == old(request)
                              && Failure(r.error) == WithConfirmationStatus(old(request), status))
    {
      if status == "NONE" || status == "CONFIRMED" || status == "DENIED" {
        var intent := request.request.intent.value.(confirmationStatus := Some(status));
        request := request.(request := request.request.(intent := Some(intent)));
        return Success(this);
      } else {
        return Failure(InvalidArgument(ConfirmationStatusMessage));
      }
    }
  }
}
