# Where-to Winnebago: Alexa skill dispatcher, modelled in Dafny

This project models the AWS Lambda function behind the "Where-to Winnebago" Alexa skill
(`skill_files/lambdaFun/index.js`). It covers three parts of that function:

- **Dispatcher.** The entry point `exports.handler` takes the event's request type, its intent,
  the intent's slot values and the session attributes. It first fills in missing session
  attributes with an empty map. It then produces exactly one outcome:
  - a response (`context.succeed`);
  - a failure text `"Exception: " + e` (`context.fail`);
  - nothing, for `SessionEndedRequest`.
- **Response builder.** `buildResponse` turns a handler's options record into the response record.
- **Intent handlers.** There is one handler each for Launch, PickState, NhPlace, CaActivity and
  StartOver, plus the inline Stop/Cancel branch.

Modules:

- `Wrappers`: `Option` (a JavaScript value that may be `undefined`) and `Result` (a computation that
  may throw).
- `Text`: `toLowerCase` as `ToLower`, and case-insensitive equality.
- `ResponseBuilder`: the options and response records and `BuildResponse`. A partner `ReadBack`
  parses a response back into the view it presents. `Unwrap` is the inverse of the SSML `speak`
  wrapping (W3C SSML 1.1, section 3.1.1).
- `Handlers`: the catalogue strings (opaque constants) and one function per handler.
- `Dispatcher`: the request, intent and slot records, and the `Session` class whose `attributes`
  field the handler defaults in place. `Dispatch` is the specification function of the whole turn.
  The method `Handler` follows the source's statement order and is proved equal to `Dispatch` on
  the defaulted attributes. The lemmas state the dispatch table.

The handler implements no session navigation:
- No handler writes `currentState`, `place` or `activity` into the session.
- There is no MoreInfoIntent or BackIntent handler. Those names fail with `"Exception: Unknown intent"`
  (`NavigationIntentsUnknown`).
- An unmatched NhPlace or CaActivity value is not a clarification prompt. It leaves the speech
  undefined, so the response says `<speak>undefined</speak>` and shows no card.
- An IntentRequest without an intent, a missing slot, or a PickState slot without a value is not a
  fallback branch. It is a JavaScript TypeError, and the handler reports it through `context.fail`.

The `if` at index.js:110-112 has an empty body, so it has no effect and is not modelled.

## Model

| member | source | states |
|---|---|---|
| `Text.ToLower` | skill_files/lambdaFun/index.js:109 | the lower-cased slot text has the same length, and each character is the lower-case form of the character at the same position |
| `Text.LowerChar` | skill_files/lambdaFun/index.js:109 | one character is lower-cased: capitals A-Z map 32 code points up to a-z, everything else is kept, and the result is never a capital |
| `Text.ToLowerIdempotent` | skill_files/lambdaFun/index.js:109 | lower-casing an already lower-cased string changes nothing |
| `Text.ToLowerEqualIff` | skill_files/lambdaFun/index.js:109-113 | two slot texts lower-case to the same string iff they differ only in the case of their letters |
| `ResponseBuilder.Wrap` | skill_files/lambdaFun/index.js:60 | the SSML is the `<speak>` open tag, then the text unescaped, then the `</speak>` close tag, with nothing else |
| `ResponseBuilder.Unwrap` | skill_files/lambdaFun/index.js:60 | a text read back out of SSML re-wraps to exactly that SSML |
| `ResponseBuilder.UnwrapWrap` | skill_files/lambdaFun/index.js:60 | reading back wrapped text returns the original text |
| `ResponseBuilder.WrapInjective` | skill_files/lambdaFun/index.js:60 | two texts wrap to the same SSML iff they are equal |
| `ResponseBuilder.BuildResponse` | skill_files/lambdaFun/index.js:51-96 | version is "1.0"; speech is SSML `<speak>`+speechText+`</speak>`, with undefined rendered as "undefined"; shouldEndSession is endSession; a reprompt appears iff repromptText is non-empty, wrapped the same way; a card appears iff cardTitle is non-empty; it is Standard, with text equal to cardContent and both image URLs equal to imageUrl, iff imageUrl is non-empty, and otherwise Simple with content; sessionAttributes appear iff the options carry a session with attributes, and they are those attributes unchanged |
| `ResponseBuilder.ReadBackBuildResponse` | skill_files/lambdaFun/index.js:55-91 | parsing the built response recovers exactly the truthy part of the options: speech, non-empty reprompt, card with its image, end flag and echoed attributes |
| `ResponseBuilder.BuildResponseDeterminedByView` | skill_files/lambdaFun/index.js:55-91 | two options records give equal responses iff they agree on that visible part, so no falsy field leaks into a response and no visible field is lost |
| `Handlers.HandlePickStateIntent` | skill_files/lambdaFun/index.js:106-130 | a missing value throws in `toLowerCase`; otherwise the speech is the New Hampshire text with the New Hampshire banner iff the value lower-cases to "new hampshire", the California text with the California image iff it lower-cases to "california", and the clarification prompt with an empty image iff it lower-cases to neither; the card title is "Adventure Time!", the card content is "Let's go to " + the slot text as spoken + "!", there is no reprompt and no session, and the session stays open |
| `Handlers.HandleLaunchRequest` | skill_files/lambdaFun/index.js:98-104 | the welcome options: the welcome speech, the state question as reprompt, the session kept open, no card, no image and no session attached |
| `Handlers.HandleStartOverIntent` | skill_files/lambdaFun/index.js:166-172 | the start-over options: the root prompt, the state question as reprompt, the session kept open, no card, no image and no session attached |
| `Handlers.StopOrCancel` | skill_files/lambdaFun/index.js:31-35 | the farewell options: speech "Good bye. " and the session ended, with no reprompt, no card, no image and no session attached |
| `Handlers.PickStateCaseInsensitive` | skill_files/lambdaFun/index.js:109-125 | two slot values that differ only in case give the same speech and the same image |
| `Handlers.PickStateFallback` | skill_files/lambdaFun/index.js:122-127 | a value matching neither state gets the clarification prompt and, because its image is empty, a Simple card |
| `Handlers.HandleNhPlaceIntent` | skill_files/lambdaFun/index.js:132-147 | the session is always attached and the session stays open; the speech, card title and card content are the Twin Mountain KOA ones iff the value is exactly "hike" or "hike a mountain", the Wakeda ones iff it is exactly "seacoast" or "visit the seacoast", and all three are unset iff it is neither; there is never an image or a reprompt |
| `Handlers.HandleCaActivityIntent` | skill_files/lambdaFun/index.js:149-164 | the session is always attached and the session stays open; the speech, card title and card content are the Disneyland ones iff the value is exactly "family" or "family friendly", the American River Resort ones iff it is exactly "adults" or "adults only", and all three are unset iff it is neither; there is never an image or a reprompt |
| `Dispatcher.SlotValue` | skill_files/lambdaFun/index.js:108 | reading `slots.<name>.value` succeeds iff the slots object exists and holds that slot, and then gives the slot's value |
| `Dispatcher.FailureMessage` | skill_files/lambdaFun/index.js:45-46 | the text handed to `context.fail` is "Exception: " followed by the exception as string concatenation renders it |
| `Dispatcher.RouteIntent` | skill_files/lambdaFun/index.js:22-38 | an intent yields options iff it is present, its name is one of the six known names, and it carries the slot its handler reads (with a value for PickState); PickState, NhPlace and CaActivity reach their own handler with their own slot's value (the last two with the current attributes as session), StartOver its handler, Stop and Cancel the farewell; a missing intent throws the TypeError reading `name` and an unknown name throws "Unknown intent" |
| `Dispatcher.Dispatch` | skill_files/lambdaFun/index.js:13-47 | no reply iff the type is SessionEndedRequest; a response iff the request is a launch or an intent its handler answers; every failure text starts with "Exception: "; a response echoes no attributes or exactly the session's |
| `Dispatcher.Handler` | skill_files/lambdaFun/index.js:5-49 | missing session attributes are replaced in place by an empty map, present ones are kept, and the outcome is `Dispatch` on the resulting attributes |
| `Dispatcher.Session.constructor` | skill_files/lambdaFun/index.js:14 | a session starts with the attributes the event carries |
| `Dispatcher.LaunchReply` | skill_files/lambdaFun/index.js:98-104 | a launch gets the welcome speech with the state question as reprompt, stays open, shows no card and echoes no attributes |
| `Dispatcher.StartOverReply` | skill_files/lambdaFun/index.js:166-172 | StartOver gets the root prompt with the state question as reprompt, whatever the session holds; it stays open, shows no card and echoes no attributes |
| `Dispatcher.StopOrCancelReply` | skill_files/lambdaFun/index.js:31-35 | Stop and Cancel both say "Good bye. " and end the session, whatever the slots and the session hold |
| `Dispatcher.UnknownIntentFails` | skill_files/lambdaFun/index.js:36-37 | any intent name outside the six known ones fails with "Exception: Unknown intent" |
| `Dispatcher.NavigationIntentsUnknown` | skill_files/lambdaFun/index.js:23-37 | MoreInfoIntent and BackIntent have no handler and fail with "Exception: Unknown intent" |
| `Dispatcher.UnknownRequestTypeFails` | skill_files/lambdaFun/index.js:41-42 | a request type other than Launch, Intent and SessionEnded fails with "Exception: Unknown intent type" |
| `Dispatcher.MissingStateFails` | skill_files/lambdaFun/index.js:108-109 | PickState with a State slot that has no value fails through `context.fail` with the TypeError from `toLowerCase`, instead of answering |
| `Dispatcher.MissingIntentFails` | skill_files/lambdaFun/index.js:22-23 | an IntentRequest without an intent fails with the TypeError from reading `name` |
| `Dispatcher.MissingSlotFails` | skill_files/lambdaFun/index.js:108 | for PickState, NhPlace and CaActivity, a missing slots object fails with the TypeError from reading the slot's name, and a missing slot with the TypeError from reading `value` |
| `Dispatcher.PickStateReply` | skill_files/lambdaFun/index.js:106-130 | a State value lower-casing to "new hampshire" or "california" gets that state's speech and a Standard card with that state's image in both sizes; any other value gets the clarification prompt and a Simple card; the card text is "Let's go to " + the value as spoken + "!", nothing is echoed and the session stays open |
| `Dispatcher.NhPlaceMatched` | skill_files/lambdaFun/index.js:132-147 | a hike phrase gets the Twin Mountain KOA speech and Simple card, a seacoast phrase the Wakeda speech and Simple card, with the attributes echoed and the session open |
| `Dispatcher.CaActivityMatched` | skill_files/lambdaFun/index.js:149-164 | a family phrase gets the Disneyland speech and Simple card, an adults phrase the American River Resort speech and Simple card, with the attributes echoed and the session open |
| `Dispatcher.SessionEcho` | skill_files/lambdaFun/index.js:89-91 | a response echoes the attributes, unchanged, iff the intent is NhPlace or CaActivity; Launch, PickState, StartOver and Stop/Cancel never echo them |
| `Dispatcher.PickStateIgnoresCase` | skill_files/lambdaFun/index.js:108-129 | two PickState requests whose values differ only in case get the same speech, the same card type and the same image |
| `Dispatcher.NhPlaceUnmatched` | skill_files/lambdaFun/index.js:136-146 | an NhPlace value outside the four phrases, or a missing one, in any slots map, gives the speech `<speak>undefined</speak>`, no card, the echoed attributes and an open session |
| `Dispatcher.CaActivityUnmatched` | skill_files/lambdaFun/index.js:153-163 | a CaActivity value outside the four phrases, or a missing one, in any slots map, gives the speech `<speak>undefined</speak>`, no card, the echoed attributes and an open session |

## Left out

- `require('http')` (index.js:3) is never used, so it is not modelled.
- The `NODE_DEBUG_EN` debug logging is left out. It only writes to the console and never changes the outcome.
- The Lambda runtime is left out. `context.succeed` and `context.fail` become the returned `Outcome`.
- JSON serialisation of the response is left out. Undefined card fields are kept as `None`.
- Dispatch: its own contract states the outcome kind, the "Exception: " prefix and the attribute echo; the exact reply to each request is stated by the lemmas beside it (`LaunchReply`, `PickStateReply`, `NhPlaceMatched`, `CaActivityMatched`, the two `Unmatched` lemmas, `StartOverReply`, `StopOrCancelReply`) and the exact failures by `UnknownIntentFails`, `UnknownRequestTypeFails`, `MissingIntentFails`, `MissingSlotFails` and `MissingStateFails`.
- Text.LowerChar: maps only the ASCII capitals A-Z; the other case mappings of JavaScript's `toLowerCase` are not modelled (see the next line for why the PickState decision is unaffected).
- `Text.ToLower` lower-cases ASCII letters only. JavaScript's full Unicode case mapping is not modelled. The PickState decision is still exact, because no non-ASCII character lower-cases to a string made only of the letters of "new hampshire" or "california". The card text uses the slot text before lower-casing.
- Strings are sequences of Unicode scalar values, not UTF-16 code units.
- The TypeError text follows V8's wording, "Cannot read properties of undefined (reading …)". Other JavaScript engines word it differently.
- `request.type` and `intent.name` are always strings here. An absent one behaves like any unrecognised string, and that path is covered.
- The event's `request` and `session` objects are always present. A missing one would throw a TypeError before dispatch.
- Slot values are strings or absent. Non-string JSON values are not modelled.
- Session attribute values are strings. The handler passes them through without reading them.
- The handler does not run the session-state navigation (`currentState`, `place`, `activity`) or MoreInfo/Back, so the model does not add them.
