# Alexa request builder, modelled in Dafny

This project models the request builder of alexa-skill-tester: the `RequestBuilder` class that
holds a synthetic Alexa request document and edits it through getters and setters, and the two
subclasses `LaunchRequestBuilder` and `IntentRequestBuilder` that seed it from a shared JSON
template.

- `AlexaRequest` (alexa_request.dfy) holds the request document: `version`, `session`,
  `context.System` and the inner `request` with an optional `intent`. Identifier properties are
  `Option<string>`. JavaScript truthiness is `Truthy`: an absent property and `''` are falsy.
- `RandomIds` (random_ids.dfy) holds the identifier generators. The source draws every character
  of a regular expression at random. Here the random choices are a parameter `draw: seq<nat>`.
  Each generator is proved to produce exactly the strings of its documented shape: every draw
  gives such a string, and every such string comes from some draw.
- `Builder` (request_builder.dfy) holds class `RequestBuilder`, with the fields `request` and
  `initting`. Each setter that `__shouldSet` guards is specified by a function on documents
  (`WithUserId`, `WithSessionId`, ...). `Initialized(seed, oracle)` is the document the
  constructor leaves. The fill-if-absent rule, the two-phase overwrite rule and the mirroring of
  application and user ids are proved as lemmas about those functions.
- `Templates` (templates.dfy) models the shared template object and `Object.assign`. The caller's
  `request` object is a sequence of top-level properties, copied onto the template in order.
- `LaunchBuilder` and `IntentBuilder` model the two subclass constructors. Dafny has no class
  inheritance here, so each constructor is a method that merges into the template and then
  constructs a `RequestBuilder`.

Construction consumes five random draws and one clock reading. They are bundled in
`Builder.Oracle`.

## Model

| member | source | states |
|---|---|---|
| `RandomIds.GenerateMatches` | requests/RequestBuilder.js:424 | every draw yields a string matching the pattern position by position |
| `RandomIds.GenerateOnto` | requests/RequestBuilder.js:424 | every string matching a pattern is generated by some draw |
| `RandomIds.AlexaIdBodyMatches` | requests/RequestBuilder.js:424 | the regular expression `[0-9a-z]{7}[0-9]-…-[0-9a-z]{11}[0-9]` matches exactly the 36-character bodies with dashes at 8, 13, 18, 23, a digit at 7, 12, 17, 22, 35 and lower-case alphanumerics elsewhere |
| `RandomIds.GenerateRandomString` | requests/RequestBuilder.js:423-427 | `__generateRandomString(prepend)` is `prepend` followed by a 36-character Alexa id body |
| `RandomIds.GenerateRandomStringOnto` | requests/RequestBuilder.js:423-427 | every `prepend` plus a well-formed body can be generated |
| `RandomIds.RandomUserId` | requests/RequestBuilder.js:142 | the default user id is `amzn1.ask.account.` followed by 207 characters of [0-9A-Z] |
| `RandomIds.RandomUserIdOnto` | requests/RequestBuilder.js:142 | every string of that shape is a possible default user id |
| `RandomIds.RandomDeviceId` | requests/RequestBuilder.js:168 | the default device id is `amzn1.ask.device.` followed by 156 characters of [0-9A-Z] |
| `RandomIds.RandomDeviceIdOnto` | requests/RequestBuilder.js:168 | every string of that shape is a possible default device id |
| `RandomIds.RandomAccessToken` | requests/RequestBuilder.js:288 | the default API access token is 50 characters of [0-9A-Z_] |
| `RandomIds.RandomAccessTokenOnto` | requests/RequestBuilder.js:288 | every string of that shape is a possible default token |
| `Builder.ShouldSet` | requests/RequestBuilder.js:435-437 | after construction a property may always be set; during construction only a falsy one |
| `Builder.WithConfirmationStatus` | requests/RequestBuilder.js:398-406 | succeeds exactly for NONE, CONFIRMED and DENIED, then sets only the intent's confirmationStatus and keeps its name; otherwise fails with the source's message |
| `Builder.InitializedFillsIfAbsent` | requests/RequestBuilder.js:11-28 | construction keeps each truthy identifier of the seed and fills each falsy one with a generated id or the clock; the context copies of application and user id follow the guard on their session copy |
| `Builder.InitializedKeepsSkeleton` | requests/RequestBuilder.js:11-28 | construction changes nothing but the identifiers |
| `Builder.InitializedIdsTruthy` | requests/RequestBuilder.js:11-28 | after construction the user, session, request, application and device ids are truthy; the timestamp is truthy if and only if the seed or the clock supplied one |
| `Builder.InitializedMirrors` | requests/RequestBuilder.js:114-123 | after construction the two application ids agree if and only if the seed's session copy was falsy or the seed's copies already agreed; likewise the user ids (lines 141-150) |
| `Builder.SettersOverwriteAfterInit` | requests/RequestBuilder.js:89-97 | once `initting` is false every identifier setter stores its truthy argument verbatim or a generated id, whatever the property held (also lines 114-175, 261-270, 332-338) |
| `Builder.SettersKeepMirrors` | requests/RequestBuilder.js:114-150 | setApplicationId and setUserId write the same value to the session and context copies, or write nothing; no identifier setter breaks either mirror relation |
| `Builder.FillIdentifiers` | requests/RequestBuilder.js:21-28 | the document after `__buildRequest`: the user, session, request, application, device id and timestamp setters applied without arguments, in that order, in the given phase |
| `Builder.Initialized` | requests/RequestBuilder.js:11-16 | the document a new builder holds: `FillIdentifiers` of the seed while `initting` is true |
| `Builder.RequestBuilder.constructor` | requests/RequestBuilder.js:11-16 | the new builder holds `Initialized(seed, oracle)` and `initting` is false |
| `Builder.RequestBuilder.BuildRequest` | requests/RequestBuilder.js:21-28 | runs the six identifier setters without arguments, in the source's order |
| `Builder.RequestBuilder.SetVersion` | requests/RequestBuilder.js:46-60 | changes only `version`; `GetVersion` then returns the new value; returns the builder |
| `Builder.RequestBuilder.SetIsNewSession` | requests/RequestBuilder.js:68-81 | changes only `session.new`; `GetIsNewSession` then returns it |
| `Builder.RequestBuilder.SetSessionId` | requests/RequestBuilder.js:89-106 | the document becomes `WithSessionId(old, initting, id, draw)`; after construction `GetSessionId` returns the argument or the generated id |
| `Builder.RequestBuilder.SetApplicationId` | requests/RequestBuilder.js:114-132 | guarded by the session copy only; when it writes, both copies get the same value |
| `Builder.RequestBuilder.SetUserId` | requests/RequestBuilder.js:141-159 | guarded by the session copy only; when it writes, both copies get the same value |
| `Builder.RequestBuilder.SetDeviceId` | requests/RequestBuilder.js:167-184 | writes only `context.System.device.deviceId`, when the guard allows |
| `Builder.RequestBuilder.SetSupportedInterfaces` | requests/RequestBuilder.js:193-206 | replaces the interface map wholesale and nothing else |
| `Builder.RequestBuilder.AddSupportedInterface` | requests/RequestBuilder.js:215-219 | inserts or overwrites the one key `name`; every other key keeps its value; nothing else changes |
| `Builder.RequestBuilder.SupportsAudioInterface` | requests/RequestBuilder.js:227-231 | has the effect of `AddSupportedInterface("AudioPlayer", value)` |
| `Builder.RequestBuilder.SetApiEndpoint` | requests/RequestBuilder.js:240-253 | changes only `context.System.apiEndpoint` |
| `Builder.RequestBuilder.SetRequestId` | requests/RequestBuilder.js:261-279 | the document becomes `WithRequestId(old, initting, id, draw)`; after construction it always overwrites |
| `Builder.RequestBuilder.SetApiAccessToken` | requests/RequestBuilder.js:287-302 | not phase-gated: always stores the truthy argument or a generated token, and nothing else |
| `Builder.RequestBuilder.SetLocale` | requests/RequestBuilder.js:311-324 | changes only the locale |
| `Builder.RequestBuilder.SetTimestamp` | requests/RequestBuilder.js:332-347 | the guard is checked first; the value is the argument or the current time |
| `Builder.RequestBuilder.SetRequestType` | requests/RequestBuilder.js:355-368 | changes only `request.type` |
| `Builder.RequestBuilder.SetIntentName` | requests/RequestBuilder.js:376-389 | changes only the intent's name; `GetIntentName` then returns it |
| `Builder.RequestBuilder.SetIntentConfirmationStatus` | requests/RequestBuilder.js:398-415 | succeeds exactly for the three statuses, after which `GetIntentConfirmationStatus` returns the status; otherwise fails and leaves the document unchanged |
| `Builder.RequestBuilder.GetRequest` | requests/RequestBuilder.js:35-37 | the whole request document |
| `Builder.RequestBuilder.GetVersion` | requests/RequestBuilder.js:58-60 | `version` |
| `Builder.RequestBuilder.GetIsNewSession` | requests/RequestBuilder.js:79-81 | `session.new` |
| `Builder.RequestBuilder.GetSessionId` | requests/RequestBuilder.js:104-106 | `session.sessionId` |
| `Builder.RequestBuilder.GetApplicationId` | requests/RequestBuilder.js:130-132 | the session copy `session.application.applicationId` only |
| `Builder.RequestBuilder.GetUserId` | requests/RequestBuilder.js:157-159 | the session copy `session.user.userId` only |
| `Builder.RequestBuilder.GetDeviceId` | requests/RequestBuilder.js:182-184 | `context.System.device.deviceId` |
| `Builder.RequestBuilder.GetSupportedInterfaces` | requests/RequestBuilder.js:204-206 | the interface map `context.System.device.supportedInterfaces` |
| `Builder.RequestBuilder.GetApiEndpoint` | requests/RequestBuilder.js:251-253 | `context.System.apiEndpoint` |
| `Builder.RequestBuilder.GetRequestId` | requests/RequestBuilder.js:277-279 | `request.requestId` |
| `Builder.RequestBuilder.GetApiAccessToken` | requests/RequestBuilder.js:300-302 | `context.System.apiAccessToken` |
| `Builder.RequestBuilder.GetLocale` | requests/RequestBuilder.js:322-324 | `request.locale` |
| `Builder.RequestBuilder.GetTimestamp` | requests/RequestBuilder.js:345-347 | `request.timestamp` |
| `Builder.RequestBuilder.GetRequestType` | requests/RequestBuilder.js:366-368 | `request.type` |
| `Builder.RequestBuilder.GetIntentName` | requests/RequestBuilder.js:387-389 | `request.intent.name`; the intent must exist, as the source dereferences it |
| `Builder.RequestBuilder.GetIntentConfirmationStatus` | requests/RequestBuilder.js:413-415 | `request.intent.confirmationStatus`, absent when never set; the intent must exist |
| `Templates.Assign` | requests/LaunchRequestBuilder.js:6 | `Object.assign(target, source)`: the caller's top-level properties copied onto the template one by one, in order (IntentRequestBuilder.js:6 likewise) |
| `Templates.AssignTakesLastValue` | requests/LaunchRequestBuilder.js:6 | each top-level key the caller's object sets replaces the template's whole value; other keys keep the template's value (IntentRequestBuilder.js:6 likewise) |
| `Templates.AssignEmpty` | requests/LaunchRequestBuilder.js:5-6 | with the default `request = {}` the seed is the template unchanged |
| `Templates.AssignAppend` | requests/IntentRequestBuilder.js:6 | two merges into the same template are one merge of both objects, so earlier overrides persist |
| `Templates.AssignIdempotent` | requests/IntentRequestBuilder.js:6 | merging the same object again changes nothing |
| `Templates.Template.AssignFrom` | requests/LaunchRequestBuilder.js:6 | `Object.assign` changes the shared template object in place and returns it |
| `LaunchBuilder.NewLaunchRequestBuilder` | requests/LaunchRequestBuilder.js:5-8 | the template becomes the merge; the fresh builder holds the fill-if-absent result of the merged seed |
| `LaunchBuilder.LaunchDefaults` | tests/test.js:8-27 | a builder made from the untouched launch template keeps version 1.0, a new session and locale en-US (also lines 130-138) |
| `LaunchBuilder.TemplateSharing` | requests/LaunchRequestBuilder.js:6-7 | a second builder sees the first caller's overrides, and a setter on the first builder does not reach the template |
| `IntentBuilder.IntentInitialized` | requests/IntentRequestBuilder.js:5-9 | the document a new intent builder holds: the base constructor's result with the intent name set |
| `IntentBuilder.IntentInitializedSpec` | requests/IntentRequestBuilder.js:5-9 | the intent gets the requested name and keeps its other properties; the rest of the document is exactly what the base constructor produced |
| `IntentBuilder.NewIntentRequestBuilder` | requests/IntentRequestBuilder.js:5-9 | the template becomes the merge; the fresh builder's `GetIntentName` equals `intentName` |

## Left out

- handlers/Request.js (invoking a handler through lambda-local and configuring the winston logger) is not part of this model. It is I/O and a foreign call.
- Random generation: the random choices of RandExp are the explicit `draw` parameters. The proved shape is the whole promise; that two builders get different ids is a matter of probability and is not modelled.
- The clock: the default timestamp is the parameter `now`, an opaque string. How `new Date()` is formatted is not modelled. That includes the fact that `toUTCString().substr(0, 25)` drops the zone and is parsed back as local time.
- Deep copy: documents are values, so `cloneDeep` is plain assignment. The builder never shares its document with the template.
- `Builder.RequestBuilder.SetSupportedInterfaces`: the source stores the caller's object itself, so a later `addSupportedInterface` writes into the caller's object and the caller's own later edits reach the builder. The model stores a map value, so this aliasing is not captured.
- `Builder.RequestBuilder.GetSupportedInterfaces`: the source returns the live interface object, so a caller who edits it changes the builder's document. The model returns a map value, so this aliasing is not captured.
- `Builder.RequestBuilder.AddSupportedInterface`: the source stores the caller's `value` object by reference, so the caller's later edits to it reach the builder, and two builders given the same `value` share it. The model stores a JSON value, so this aliasing is not captured. `Builder.RequestBuilder.SupportsAudioInterface` inherits the same gap.
- `Templates.Template.AssignFrom`: `Object.assign` puts the caller's `session`, `context` and `request` objects into the shared template by reference, so a caller who later mutates one of them changes the seed of every later builder. The model copies values, so this aliasing is not captured.
- `Builder.RequestBuilder.GetRequest`: returns the document as a value. A caller that mutates the object returned by the source's `getRequest` changes the builder's document; that aliasing is not modelled.
- Documents whose sub-objects are missing (`session.user`, `context.System.device`, ...), where the source throws a TypeError, are not modelled: every document has all of them. Likewise `version`, `session.new`, `context.System.apiEndpoint`, `request.type`, `request.locale` and `intent.name` are always present in the model, because they are plain fields and not `Option`s. In the source a caller can leave them out. For example, `new LaunchRequestBuilder({request: {type: 'LaunchRequest'}})` replaces the whole inner `request`, after which `getLocale()` returns `undefined`. The model cannot express that state. A missing `intent` is handled by a precondition on the intent operations. `setIntentConfirmationStatus` requires the intent only when the status is valid, because an invalid status throws first.
- Setter arguments have the types the documents declare. Arbitrary JavaScript values are not modelled. Identifier arguments are `Option<string>`, where `None` stands for an omitted argument.
- `Object.assign` with an own property whose value is `undefined`, and top-level keys other than version, session, context and request, are not modelled.
- The JSON templates are parameters. The launch template is constrained only by what the tests read from it (`LaunchBuilder.IsLaunchTemplate`).
- requests/LaunchRequestBulider.js is a duplicate of the launch builder, and index.js only re-exports. Neither is modelled separately.
- setDialogState and the slot helpers (withSlot, getSlot, resolveSlot, ...) do not exist in requests/RequestBuilder.js and are not modelled. The fill-if-absent test is falsiness, not absence: `''` is filled as well, as the code does.
