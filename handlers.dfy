/** The intent handlers: each fills in an options record for the response builder. */
module Handlers {
  import opened Wrappers
  import opened Text
  import opened ResponseBuilder

  const WelcomeSpeech :=
    "Hello, welcome to Where-to Winnebago! Let\U{2019}s get you started on your next adventure. "
    + "You can respond back to return to the previous question or start over to start a new adventure. "
    + "First let\U{2019}s pick a state. Would you rather explore New Hampshire or California?"
  const StartOverSpeech :=
    "Let\U{2019}s get you started on your next adventure. First let\U{2019}s pick a state. "
    + "Would you rather explore New Hampshire or California?"
  const StatePrompt := "Would you rather explore New Hampshire or California?"
  const FarewellSpeech := "Good bye. "

  const NewHampshireSpeech :=
    "Great, we think the granite state is pretty cool too. Would you like to hike a mountain or visit the seacoast?"
  const NewHampshireImage :=
    "https://www.rocketbanner.com/images/states/new-hampshire/new-hampshire-vinyl-banners.jpg"
  const CaliforniaSpeech := "Okay, are you interested in family friendly activities or adults only?"
  const CaliforniaImage := "https://cdn.history.com/sites/2/2015/09/GettyImages-501880463.jpg"
  const UnknownStateSpeech := "Please choose from either California or New Hampshire for this prototype."
  const AdventureTitle := "Adventure Time!"

  const HikeSpeech :=
    "Great, we\U{2019}d suggest Mount Washington, the tallest peak east of the Mississippi. "
    + "This mountain has an elevation of 6,289 feet and is home to some of the world\U{2019}s wildest weather. "
    + "You can stay at the nearby Twin Mountain KOA campground. "
    + "An adventure card has been sent with an address, phone number, and additional information."
  const HikeTitle := "Twin Mountain KOA campground"
  const HikeContent :=
    "Amenities:\n\U{2022}50 AMP Max\n\U{2022}90\U{2019} Max Length\n\U{2022}Wi-Fi\n\U{2022}Cable TV\n"
    + "\U{2022}Pool\n\U{2022}Dog Park\n\U{2022}Game Room\n\U{2022}General Store\n"
    + "http://koa.com/campgrounds/twin-mountain/\n372 NH-115\nCarroll, NH 03598\n(603) 846-5559"
  const SeacoastSpeech :=
    "Great, we recommend the Wakeda Campground located in Hampton Falls. "
    + "It\U{2019}s close to the beaches and a short drive from our home, the bustling seaside town of Portsmouth, NH.  "
    + "An adventure card has been sent with the address, phone number, and additional information."
  const SeacoastTitle := "Wakeda Campground"
  const SeacoastContent :=
    "http://www.wakedacampground.com/ \n 294 Exeter Rd, Hampton Falls, NH 03844 \n (603) 772-5274"

  const FamilySpeech :=
    "Everyone loves Disneyland, right? The closest place to park your RV near Disneyland is less than two miles away "
    + "at the Anaheim RV Park. An adventure card has been sent with an address, phone number, and additional information."
  const FamilyTitle := "Disneyland"
  const FamilyContent := "www.anaheimrvpark.com\n200 W Midway Dr\nAnaheim, CA 92805\n(714) 774-3860"
  const AdultsSpeech :=
    "Rad! Drive your Winnebago over to the American River Resort. "
    + "This resort also offers white water rafting excursions as one of their amenities. "
    + "An adventure card has been sent to you with and address, phone number and additional information."
  const AdultsTitle := "American River Resort"
  const AdultsContent :=
    "http://www.americanriverresort.com/\n6019 New River Road\nColoma, CA 95613\n(530) 622-6700"

  /** The phrases each place or activity branch accepts, compared exactly. */
  const HikePhrases: set<string> := {"hike", "hike a mountain"}
  const SeacoastPhrases: set<string> := {"seacoast", "visit the seacoast"}
  const FamilyPhrases: set<string> := {"family", "family friendly"}
  const AdultsPhrases: set<string> := {"adults", "adults only"}

  /** What a JavaScript handler throws: a string (`throw "..."`), or the
      TypeError raised by reading a property of `undefined`. */
  datatype Exception = Thrown(text: string) | TypeError(property: string) {
    /** The exception as string concatenation renders it (V8's wording for TypeError). */
    function Text(): string {
      match this
      case Thrown(t) => t
      case TypeError(p) => "TypeError: Cannot read properties of undefined (reading '" + p + "')"
    }
  }

  /** The welcome reply to a LaunchRequest. */
  function HandleLaunchRequest(): (o: Options)
    ensures o.speechText == Some(WelcomeSpeech) && o.repromptText == Some(StatePrompt)
    ensures !o.endSession && o.cardTitle.None? && o.imageUrl.None? && o.session.None?
  {
    EmptyOptions(false).(speechText := Some(WelcomeSpeech), repromptText := Some(StatePrompt))
  }

  /** The root prompt again, for StartOverIntent; the session is not touched. */
  function HandleStartOverIntent(): (o: Options)
    ensures o.speechText == Some(StartOverSpeech) && o.repromptText == Some(StatePrompt)
    ensures !o.endSession && o.cardTitle.None? && o.imageUrl.None? && o.session.None?
  {
    EmptyOptions(false).(speechText := Some(StartOverSpeech), repromptText := Some(StatePrompt))
  }

  /** The farewell shared by AMAZON.StopIntent and AMAZON.CancelIntent. */
  function StopOrCancel(): (o: Options)
    ensures o.speechText == Some(FarewellSpeech) && o.endSession
    ensures o.repromptText.None? && o.cardTitle.None? && o.imageUrl.None? && o.session.None?
  {
    EmptyOptions(true).(speechText := Some(FarewellSpeech))
  }

  /** PickStateIntent: the `State` slot matched case-insensitively against the two states.
      A missing value makes `toLowerCase` throw. The card shows the slot text as spoken. */
  function HandlePickStateIntent(state: Option<string>): (r: Result<Options, Exception>)
    ensures r.Failure? <==> state.None?
    ensures r.Failure? ==> r.error == TypeError("toLowerCase")
    ensures r.Success? ==>
      && r.value.cardTitle == Some(AdventureTitle)
      && r.value.cardContent == Some("Let's go to " + state.value + "!")
      && r.value.repromptText.None? && !r.value.endSession && r.value.session.None?
    ensures r.Success? ==>
      (r.value.speechText == Some(NewHampshireSpeech) && r.value.imageUrl == Some(NewHampshireImage)
       <==> ToLower(state.value) == "new hampshire")
    ensures r.Success? ==>
      (r.value.speechText == Some(CaliforniaSpeech) && r.value.imageUrl == Some(CaliforniaImage)
       <==> ToLower(state.value) == "california")
    ensures r.Success? ==>
      (r.value.speechText == Some(UnknownStateSpeech) && r.value.imageUrl == Some("")
       <==> ToLower(state.value) !in {"new hampshire", "california"})
  {
    match state
    case None => Failure(TypeError("toLowerCase"))
    case Some(s) =>
      var lower := ToLower(s);
      var (speech, image) :=
        if lower == "new hampshire" then (NewHampshireSpeech, NewHampshireImage)
        else if lower == "california" then (CaliforniaSpeech, CaliforniaImage)
        else (UnknownStateSpeech, "");
      Success(Options(Some(speech), None, Some(AdventureTitle), Some("Let's go to " + s + "!"),
                      Some(image), false, None))
  }

  /** NhPlaceIntent: the `NhPlace` slot matched exactly; any other value leaves speech and card unset.
      The session is always attached. */
  function HandleNhPlaceIntent(place: Option<string>, session: SessionValue): (o: Options)
    ensures o.session == Some(session) && !o.endSession
    ensures o.repromptText.None? && o.imageUrl.None?
    ensures o.speechText == Some(HikeSpeech) && o.cardTitle == Some(HikeTitle) && o.cardContent == Some(HikeContent)
            <==> place.Some? && place.value in HikePhrases
    ensures o.speechText == Some(SeacoastSpeech) && o.cardTitle == Some(SeacoastTitle) && o.cardContent == Some(SeacoastContent)
            <==> place.Some? && place.value in SeacoastPhrases
    ensures o.speechText.None? && o.cardTitle.None? && o.cardContent.None?
            <==> !(place.Some? && place.value in HikePhrases + SeacoastPhrases)
  {
    var o := EmptyOptions(false).(session := Some(session));
    if place == Some("hike") || place == Some("hike a mountain") then
      o.(speechText := Some(HikeSpeech), cardTitle := Some(HikeTitle), cardContent := Some(HikeContent))
    else if place == Some("seacoast") || place == Some("visit the seacoast") then
      o.(speechText := Some(SeacoastSpeech), cardTitle := Some(SeacoastTitle), cardContent := Some(SeacoastContent))
    else o
  }

  /** CaActivityIntent: the `CaActivity` slot matched exactly; any other value leaves speech and card unset.
      The session is always attached. */
  function HandleCaActivityIntent(activity: Option<string>, session: SessionValue): (o: Options)
    ensures o.session == Some(session) && !o.endSession
    ensures o.repromptText.None? && o.imageUrl.None?
    ensures o.speechText == Some(FamilySpeech) && o.cardTitle == Some(FamilyTitle) && o.cardContent == Some(FamilyContent)
            <==> activity.Some? && activity.value in FamilyPhrases
    ensures o.speechText == Some(AdultsSpeech) && o.cardTitle == Some(AdultsTitle) && o.cardContent == Some(AdultsContent)
            <==> activity.Some? && activity.value in AdultsPhrases
    ensures o.speechText.None? && o.cardTitle.None? && o.cardContent.None?
            <==> !(activity.Some? && activity.value in FamilyPhrases + AdultsPhrases)
  {
    var o := EmptyOptions(false).(session := Some(session));
    if activity == Some("family") || activity == Some("family friendly") then
      o.(speechText := Some(FamilySpeech), cardTitle := Some(FamilyTitle), cardContent := Some(FamilyContent))
    else if activity == Some("adults") || activity == Some("adults only") then
      o.(speechText := Some(AdultsSpeech), cardTitle := Some(AdultsTitle), cardContent := Some(AdultsContent))
    else o
  }

  /** Any casing of a state name picks the same branch: the same speech and the same image. */
  lemma PickStateCaseInsensitive(s: string, t: string)
    requires EqualIgnoringCase(s, t)
    ensures HandlePickStateIntent(Some(s)).value.speechText == HandlePickStateIntent(Some(t)).value.speechText
    ensures HandlePickStateIntent(Some(s)).value.imageUrl == HandlePickStateIntent(Some(t)).value.imageUrl
  {
    ToLowerEqualIff(s, t);
  }

  /** A value that lower-cases to neither state gets the clarification prompt and a Simple card. */
  lemma PickStateFallback(s: string)
    requires ToLower(s) != "new hampshire" && ToLower(s) != "california"
    ensures HandlePickStateIntent(Some(s)).value.speechText == Some(UnknownStateSpeech)
    ensures BuildResponse(HandlePickStateIntent(Some(s)).value).response.card
         == Some(Simple(AdventureTitle, Some("Let's go to " + s + "!")))
  {
  }
}
