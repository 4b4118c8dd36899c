/** The Lambda entry point: defaults the session attributes, routes the request
    to a handler, and reports one outcome in place of the `context` callbacks. */
module Dispatcher {
  import opened Wrappers
  import opened ResponseBuilder
  import opened Handlers
  import Text

  datatype Slot = Slot(value: Option<string>)

  /** An intent as delivered: its name and its slots object (which may be missing). */
  datatype Intent = Intent(name: string, slots: Option<map<string, Slot>>)

  /** The request: its `type` and, for an IntentRequest, the intent (which may be missing). */
  datatype Request = Request(kind: string, intent: Option<Intent>)

  /** The event's session object, whose `attributes` the handler fills in place. */
  class Session {
    var attributes: Option<Attributes>

    constructor (attributes: Option<Attributes>)
      ensures this.attributes == attributes
    {
      this.attributes := attributes;
    }
  }

  datatype Event = Event(request: Request, session: Session)

  /** What the handler reports: `context.succeed(response)`, `context.fail(message)`, or nothing. */
  datatype Outcome = Succeed(response: Response) | Fail(message: string) | NoReply

  const PickStateIntent := "PickStateIntent"
  const NhPlaceIntent := "NhPlaceIntent"
  const CaActivityIntent := "CaActivityIntent"
  const StartOverIntent := "StartOverIntent"
  const StopIntent := "AMAZON.StopIntent"
  const CancelIntent := "AMAZON.CancelIntent"

  /** The closed set of intent names the handler answers. */
  const KnownIntents: set<string> :=
    {PickStateIntent, NhPlaceIntent, CaActivityIntent, StartOverIntent, StopIntent, CancelIntent}

  /** The text `context.fail` receives for an exception. */
  function FailureMessage(e: Exception): (m: string)
    ensures "Exception: " <= m && m[|"Exception: "|..] == e.Text()
  {
    "Exception: " + e.Text()
  }

  /** `request.intent.slots.<name>.value`, throwing when the slots object or the slot is missing. */
  function SlotValue(intent: Intent, name: string): (r: Result<Option<string>, Exception>)
    ensures r.Success? <==> intent.slots.Some? && name in intent.slots.value
    ensures r.Success? ==> r.value == intent.slots.value[name].value
  {
    match intent.slots
    case None => Failure(TypeError(name))
    case Some(slots) => if name in slots then Success(slots[name].value) else Failure(TypeError("value"))
  }

  /** The options an IntentRequest's handler builds, or what it throws. */
  function RouteIntent(intent: Option<Intent>, attributes: Attributes): (r: Result<Options, Exception>)
    ensures r.Success? <==> intent.Some? && Handles(intent.value)
    ensures r.Success? ==> r.value.session in {None, Some(SessionValue(Some(attributes)))}
    ensures intent.None? ==> r == Failure(TypeError("name"))
    ensures intent.Some? && intent.value.name !in KnownIntents ==> r == Failure(Thrown("Unknown intent"))
    ensures r.Success? && intent.value.name == PickStateIntent ==>
      r == HandlePickStateIntent(intent.value.slots.value["State"].value)
    ensures r.Success? && intent.value.name == NhPlaceIntent ==>
      r.value == HandleNhPlaceIntent(intent.value.slots.value["NhPlace"].value, SessionValue(Some(attributes)))
    ensures r.Success? && intent.value.name == CaActivityIntent ==>
      r.value == HandleCaActivityIntent(intent.value.slots.value["CaActivity"].value, SessionValue(Some(attributes)))
    ensures intent.Some? && intent.value.name == StartOverIntent ==> r == Success(HandleStartOverIntent())
    ensures intent.Some? && intent.value.name in {StopIntent, CancelIntent} ==> r == Success(StopOrCancel())
  {
    match intent
    case None => Failure(TypeError("name"))
    case Some(i) =>
      if i.name == PickStateIntent then
        var state :- SlotValue(i, "State");
        HandlePickStateIntent(state)
      else if i.name == NhPlaceIntent then
        var place :- SlotValue(i, "NhPlace");
        Success(HandleNhPlaceIntent(place, SessionValue(Some(attributes))))
      else if i.name == CaActivityIntent then
        var activity :- SlotValue(i, "CaActivity");
        Success(HandleCaActivityIntent(activity, SessionValue(Some(attributes))))
      else if i.name == StartOverIntent then
        Success(HandleStartOverIntent())
      else if i.name == StopIntent || i.name == CancelIntent then
        Success(StopOrCancel())
      else
        Failure(Thrown("Unknown intent"))
  }

  /** The slot each known intent reads, if any. */
  function RequiredSlot(name: string): Option<string> {
    if name == PickStateIntent then Some("State")
    else if name == NhPlaceIntent then Some("NhPlace")
    else if name == CaActivityIntent then Some("CaActivity")
    else None
  }

  /** An intent its handler answers: a known name, carrying the slot that handler reads
      (with a value, for PickStateIntent, which lower-cases it). */
  predicate Handles(i: Intent) {
    && i.name in KnownIntents
    && (RequiredSlot(i.name).Some? ==>
          && i.slots.Some? && RequiredSlot(i.name).value in i.slots.value
          && (i.name == PickStateIntent ==> i.slots.value["State"].value.Some?))
  }

  /** A request answered with a response: a launch, or an intent its handler answers. */
  predicate Answered(r: Request) {
    || r.kind == "LaunchRequest"
    || (r.kind == "IntentRequest" && r.intent.Some? && Handles(r.intent.value))
  }

  /** The whole handler on already-defaulted session attributes. */
  function Dispatch(r: Request, attributes: Attributes): (o: Outcome)
    ensures o.NoReply? <==> r.kind == "SessionEndedRequest"
    ensures o.Succeed? <==> Answered(r)
    ensures o.Fail? ==> "Exception: " <= o.message
    ensures o.Succeed? ==> o.response.sessionAttributes in {None, Some(attributes)}
  {
    if r.kind == "LaunchRequest" then
      Succeed(BuildResponse(HandleLaunchRequest()))
    else if r.kind == "IntentRequest" then
      match RouteIntent(r.intent, attributes)
      case Success(options) => Succeed(BuildResponse(options))
      case Failure(e) => Fail(FailureMessage(e))
    else if r.kind == "SessionEndedRequest" then
      NoReply
    else
      Fail(FailureMessage(Thrown("Unknown intent type")))
  }

  /** `exports.handler(event, context)`: fills in missing session attributes with
      an empty map, then answers as `Dispatch` does on them. The body is the source's
      statement sequence (default in place, then the request-type chain and the catch);
      `Dispatch` is the same chain as a function, which the lemmas below reason about. */
  method Handler(event: Event) returns (outcome: Outcome)
    modifies event.session
    ensures event.session.attributes == Some(old(event.session.attributes).GetOr(map[]))
    ensures outcome == Dispatch(event.request, event.session.attributes.value)
  {
    var request := event.request;
    var session := event.session;
    if session.attributes.None? {
      session.attributes := Some(map[]);
    }
    if request.kind == "LaunchRequest" {
      outcome := Succeed(BuildResponse(HandleLaunchRequest()));
    } else if request.kind == "IntentRequest" {
      var routed := RouteIntent(request.intent, session.attributes.value);
      if routed.Success? {
        outcome := Succeed(BuildResponse(routed.value));
      } else {
        outcome := Fail(FailureMessage(routed.error));
      }
    } else if request.kind == "SessionEndedRequest" {
      outcome := NoReply;
    } else {
      outcome := Fail(FailureMessage(Thrown("Unknown intent type")));
    }
  }

  /** A LaunchRequest gets the welcome speech with the state question as reprompt,
      keeps the session open, shows no card and echoes no attributes. */
  lemma LaunchReply(intent: Option<Intent>, attributes: Attributes)
    ensures Dispatch(Request("LaunchRequest", intent), attributes)
         == Succeed(Response("1.0",
              ResponseBody(OutputSpeech("SSML", "<speak>" + WelcomeSpeech + "</speak>"), false,
                           Some(Reprompt(OutputSpeech("SSML", "<speak>" + StatePrompt + "</speak>"))), None),
              None))
  {
  }

  /** StartOverIntent gets the root prompt with the state question as reprompt, whatever the
      session holds; it keeps the session open, shows no card and echoes no attributes. */
  lemma StartOverReply(slots: Option<map<string, Slot>>, attributes: Attributes)
    ensures Dispatch(Request("IntentRequest", Some(Intent(StartOverIntent, slots))), attributes)
         == Succeed(Response("1.0",
              ResponseBody(OutputSpeech("SSML", "<speak>" + StartOverSpeech + "</speak>"), false,
                           Some(Reprompt(OutputSpeech("SSML", "<speak>" + StatePrompt + "</speak>"))), None),
              None))
  {
  }

  /** Stop and Cancel say good-bye and end the session, whatever the slots and the session hold. */
  lemma StopOrCancelReply(name: string, slots: Option<map<string, Slot>>, attributes: Attributes)
    requires name == StopIntent || name == CancelIntent
    ensures Dispatch(Request("IntentRequest", Some(Intent(name, slots))), attributes)
         == Succeed(Response("1.0",
              ResponseBody(OutputSpeech("SSML", "<speak>" + FarewellSpeech + "</speak>"), true, None, None), None))
  {
    assert RouteIntent(Some(Intent(name, slots)), attributes) == Success(StopOrCancel());
  }

  /** An intent name outside the known set throws "Unknown intent", whatever it carries. */
  lemma UnknownIntentFails(i: Intent, attributes: Attributes)
    requires i.name !in KnownIntents
    ensures Dispatch(Request("IntentRequest", Some(i)), attributes) == Fail("Exception: Unknown intent")
  {
  }

  /** There is no MoreInfoIntent or BackIntent handler: both names throw "Unknown intent". */
  lemma NavigationIntentsUnknown(slots: Option<map<string, Slot>>, attributes: Attributes)
    ensures Dispatch(Request("IntentRequest", Some(Intent("MoreInfoIntent", slots))), attributes)
         == Fail("Exception: Unknown intent")
    ensures Dispatch(Request("IntentRequest", Some(Intent("BackIntent", slots))), attributes)
         == Fail("Exception: Unknown intent")
  {
    UnknownIntentFails(Intent("MoreInfoIntent", slots), attributes);
    UnknownIntentFails(Intent("BackIntent", slots), attributes);
  }

  /** A request type other than the three handled throws "Unknown intent type". */
  lemma UnknownRequestTypeFails(r: Request, attributes: Attributes)
    requires r.kind !in {"LaunchRequest", "IntentRequest", "SessionEndedRequest"}
    ensures Dispatch(r, attributes) == Fail("Exception: Unknown intent type")
  {
  }

  /** PickStateIntent with a `State` slot that has no value fails in `toLowerCase`
      instead of answering. */
  lemma MissingStateFails(slots: map<string, Slot>, attributes: Attributes)
    requires "State" in slots && slots["State"].value.None?
    ensures Dispatch(Request("IntentRequest", Some(Intent(PickStateIntent, Some(slots)))), attributes)
         == Fail(FailureMessage(TypeError("toLowerCase")))
  {
  }

  /** Only NhPlaceIntent and CaActivityIntent echo the session attributes, and they echo them unchanged. */
  lemma SessionEcho(r: Request, attributes: Attributes)
    requires Dispatch(r, attributes).Succeed?
    ensures Dispatch(r, attributes).response.sessionAttributes
         == if r.kind == "IntentRequest" && r.intent.value.name in {NhPlaceIntent, CaActivityIntent}
            then Some(attributes) else None
  {
  }

  /** State names that differ only in case get the same speech and the same card type and image;
      the card text keeps the casing spoken. */
  lemma PickStateIgnoresCase(s: string, t: string, attributes: Attributes)
    requires Text.EqualIgnoringCase(s, t)
    ensures
      var rs := Dispatch(Request("IntentRequest", Some(Intent(PickStateIntent, Some(map["State" := Slot(Some(s))])))), attributes);
      var rt := Dispatch(Request("IntentRequest", Some(Intent(PickStateIntent, Some(map["State" := Slot(Some(t))])))), attributes);
      && rs.Succeed? && rt.Succeed?
      && rs.response.response.outputSpeech == rt.response.response.outputSpeech
      && rs.response.response.card.value.Kind() == rt.response.response.card.value.Kind()
      && (rs.response.response.card.value.Standard? ==>
            rs.response.response.card.value.image == rt.response.response.card.value.image)
  {
    PickStateCaseInsensitive(s, t);
  }

  /** A missing intent, a missing slots object and a missing slot are TypeErrors that reach
      `context.fail`: reading `name`, the slot's name, and `value` respectively. */
  lemma MissingIntentFails(attributes: Attributes)
    ensures Dispatch(Request("IntentRequest", None), attributes) == Fail(FailureMessage(TypeError("name")))
  {
  }

  lemma MissingSlotFails(i: Intent, attributes: Attributes)
    requires RequiredSlot(i.name).Some?
    ensures i.slots.None? ==>
      Dispatch(Request("IntentRequest", Some(i)), attributes) == Fail(FailureMessage(TypeError(RequiredSlot(i.name).value)))
    ensures i.slots.Some? && RequiredSlot(i.name).value !in i.slots.value ==>
      Dispatch(Request("IntentRequest", Some(i)), attributes) == Fail(FailureMessage(TypeError("value")))
  {
  }

  /** A State value that lower-cases to a state name gets that state's speech and a Standard card
      with its banner; any other value gets the clarification prompt and a Simple card. The card
      text is the value as spoken; nothing is echoed and the session stays open. */
  lemma PickStateReply(s: string, slots: map<string, Slot>, attributes: Attributes)
    requires "State" in slots && slots["State"].value == Some(s)
    ensures
      var card := "Let's go to " + s + "!";
      Dispatch(Request("IntentRequest", Some(Intent(PickStateIntent, Some(slots)))), attributes)
      == Succeed(Response("1.0", ResponseBody(
           if Text.ToLower(s) == "new hampshire" then OutputSpeech("SSML", "<speak>" + NewHampshireSpeech + "</speak>")
           else if Text.ToLower(s) == "california" then OutputSpeech("SSML", "<speak>" + CaliforniaSpeech + "</speak>")
           else OutputSpeech("SSML", "<speak>" + UnknownStateSpeech + "</speak>"),
           false, None,
           Some(if Text.ToLower(s) == "new hampshire" then Standard(AdventureTitle, Some(card), Image(NewHampshireImage, NewHampshireImage))
                else if Text.ToLower(s) == "california" then Standard(AdventureTitle, Some(card), Image(CaliforniaImage, CaliforniaImage))
                else Simple(AdventureTitle, Some(card)))),
         None))
  {
    var i := Intent(PickStateIntent, Some(slots));
    assert RouteIntent(Some(i), attributes) == HandlePickStateIntent(Some(s));
  }

  /** A hike phrase gets the Twin Mountain KOA reply and a seacoast phrase the Wakeda reply, each
      with a Simple card; the attributes are echoed and the session stays open. */
  lemma NhPlaceMatched(slots: map<string, Slot>, attributes: Attributes)
    requires "NhPlace" in slots && slots["NhPlace"].value.Some?
    ensures
      var d := Dispatch(Request("IntentRequest", Some(Intent(NhPlaceIntent, Some(slots)))), attributes);
      && (slots["NhPlace"].value.value in HikePhrases ==>
            d == Succeed(Response("1.0", ResponseBody(OutputSpeech("SSML", "<speak>" + HikeSpeech + "</speak>"),
                   false, None, Some(Simple(HikeTitle, Some(HikeContent)))), Some(attributes))))
      && (slots["NhPlace"].value.value in SeacoastPhrases ==>
            d == Succeed(Response("1.0", ResponseBody(OutputSpeech("SSML", "<speak>" + SeacoastSpeech + "</speak>"),
                   false, None, Some(Simple(SeacoastTitle, Some(SeacoastContent)))), Some(attributes))))
  {
    var i := Intent(NhPlaceIntent, Some(slots));
    var o := HandleNhPlaceIntent(slots["NhPlace"].value, SessionValue(Some(attributes)));
    assert RouteIntent(Some(i), attributes) == Success(o);
  }

  /** A family phrase gets the Disneyland reply and an adults phrase the American River Resort
      reply, each with a Simple card; the attributes are echoed and the session stays open. */
  lemma CaActivityMatched(slots: map<string, Slot>, attributes: Attributes)
    requires "CaActivity" in slots && slots["CaActivity"].value.Some?
    ensures
      var d := Dispatch(Request("IntentRequest", Some(Intent(CaActivityIntent, Some(slots)))), attributes);
      && (slots["CaActivity"].value.value in FamilyPhrases ==>
            d == Succeed(Response("1.0", ResponseBody(OutputSpeech("SSML", "<speak>" + FamilySpeech + "</speak>"),
                   false, None, Some(Simple(FamilyTitle, Some(FamilyContent)))), Some(attributes))))
      && (slots["CaActivity"].value.value in AdultsPhrases ==>
            d == Succeed(Response("1.0", ResponseBody(OutputSpeech("SSML", "<speak>" + AdultsSpeech + "</speak>"),
                   false, None, Some(Simple(AdultsTitle, Some(AdultsContent)))), Some(attributes))))
  {
    var i := Intent(CaActivityIntent, Some(slots));
    var o := HandleCaActivityIntent(slots["CaActivity"].value, SessionValue(Some(attributes)));
    assert RouteIntent(Some(i), attributes) == Success(o);
  }

  /** An NhPlace value outside the four phrases, or a missing one, leaves the speech undefined,
      which renders as the text "undefined", and shows no card; the session is echoed and stays open. */
  lemma NhPlaceUnmatched(slots: map<string, Slot>, attributes: Attributes)
    requires "NhPlace" in slots
    requires !(slots["NhPlace"].value.Some? && slots["NhPlace"].value.value in HikePhrases + SeacoastPhrases)
    ensures Dispatch(Request("IntentRequest", Some(Intent(NhPlaceIntent, Some(slots)))), attributes)
         == Succeed(Response("1.0",
              ResponseBody(OutputSpeech("SSML", "<speak>" + "undefined" + "</speak>"), false, None, None), Some(attributes)))
  {
    var i := Intent(NhPlaceIntent, Some(slots));
    var o := EmptyOptions(false).(session := Some(SessionValue(Some(attributes))));
    assert HandleNhPlaceIntent(slots["NhPlace"].value, SessionValue(Some(attributes))) == o;
    assert RouteIntent(Some(i), attributes) == Success(o);
  }

  /** A CaActivity value outside the four phrases, or a missing one, leaves the speech undefined,
      which renders as the text "undefined", and shows no card; the session is echoed and stays open. */
  lemma CaActivityUnmatched(slots: map<string, Slot>, attributes: Attributes)
    requires "CaActivity" in slots
    requires !(slots["CaActivity"].value.Some? && slots["CaActivity"].value.value in FamilyPhrases + AdultsPhrases)
    ensures Dispatch(Request("IntentRequest", Some(Intent(CaActivityIntent, Some(slots)))), attributes)
         == Succeed(Response("1.0",
              ResponseBody(OutputSpeech("SSML", "<speak>" + "undefined" + "</speak>"), false, None, None), Some(attributes)))
  {
    var i := Intent(CaActivityIntent, Some(slots));
    var o := EmptyOptions(false).(session := Some(SessionValue(Some(attributes))));
    assert HandleCaActivityIntent(slots["CaActivity"].value, SessionValue(Some(attributes))) == o;
    assert RouteIntent(Some(i), attributes) == Success(o);
  }
}
