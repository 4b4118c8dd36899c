/** The response builder: turns the options record a handler fills in into
    the response record returned to the voice platform. */
module ResponseBuilder {
  import opened Wrappers

  /** Session attributes: the key/value pairs the platform carries between turns. */
  type Attributes = map<string, string>

  /** The session object a handler may attach to its options; its `attributes`
      property may be missing. */
  datatype SessionValue = SessionValue(attributes: Option<Attributes>)

  /** The options record a handler fills in. A field the handler never assigns is `None`. */
  datatype Options = Options(
    speechText: Option<string>,
    repromptText: Option<string>,
    cardTitle: Option<string>,
    cardContent: Option<string>,
    imageUrl: Option<string>,
    endSession: bool,
    session: Option<SessionValue>)

  /** An options record with nothing but the end-of-session flag set. */
  function EmptyOptions(endSession: bool): Options {
    Options(None, None, None, None, None, endSession, None)
  }

  /** Speech output; `kind` is the wire `type` field. */
  datatype OutputSpeech = OutputSpeech(kind: string, ssml: string)

  datatype Reprompt = Reprompt(outputSpeech: OutputSpeech)

  datatype Image = Image(smallImageUrl: string, largeImageUrl: string)

  /** A `Simple` card carries `content`; a `Standard` card carries `text` and an image. */
  datatype Card =
    | Simple(title: string, content: Option<string>)
    | Standard(title: string, text: Option<string>, image: Image)
  {
    /** The wire `type` field. */
    function Kind(): string {
      if Simple? then "Simple" else "Standard"
    }
  }

  datatype ResponseBody = ResponseBody(
    outputSpeech: OutputSpeech,
    shouldEndSession: bool,
    reprompt: Option<Reprompt>,
    card: Option<Card>)

  datatype Response = Response(
    version: string,
    response: ResponseBody,
    sessionAttributes: Option<Attributes>)

  const SpeakOpen := "<speak>"
  const SpeakClose := "</speak>"

  /** JavaScript truthiness of an optional string: defined and non-empty. */
  predicate Truthy(s: Option<string>) {
    s.Some? && s.value != ""
  }

  /** String concatenation of a possibly undefined value: `undefined` becomes the text "undefined". */
  function Render(s: Option<string>): string {
    s.GetOr("undefined")
  }

  /** Wraps text in the SSML root element `speak` (W3C SSML 1.1, section 3.1.1);
      the text is not escaped. */
  function Wrap(text: string): (ssml: string)
    ensures |ssml| == |SpeakOpen| + |text| + |SpeakClose|
    ensures ssml[..|SpeakOpen|] == SpeakOpen
    ensures ssml[|SpeakOpen|..|SpeakOpen| + |text|] == text
    ensures ssml[|SpeakOpen| + |text|..] == SpeakClose
  {
    SpeakOpen + text + SpeakClose
  }

  /** Reads the text back out of a `speak` element; `None` when the markup is not of that shape. */
  function Unwrap(ssml: string): (text: Option<string>)
    ensures text.Some? ==> Wrap(text.value) == ssml
  {
    var n := |SpeakOpen| + |SpeakClose|;
    if |ssml| >= n && ssml[..|SpeakOpen|] == SpeakOpen && ssml[|ssml| - |SpeakClose|..] == SpeakClose
    then
      var inner := ssml[|SpeakOpen|..|ssml| - |SpeakClose|];
      assert ssml == SpeakOpen + inner + SpeakClose;
      Some(inner)
    else None
  }

  /** Reading back what was wrapped gives the original text. */
  lemma UnwrapWrap(text: string)
    ensures Unwrap(Wrap(text)) == Some(text)
  {
    var w := Wrap(text);
    assert w[|w| - |SpeakClose|..] == SpeakClose;
  }

  /** Different texts give different markup. */
  lemma WrapInjective(a: string, b: string)
    ensures Wrap(a) == Wrap(b) <==> a == b
  {
    if Wrap(a) == Wrap(b) {
      UnwrapWrap(a);
      UnwrapWrap(b);
    }
  }

  function SsmlSpeech(text: string): OutputSpeech {
    OutputSpeech("SSML", Wrap(text))
  }

  /** `buildResponse(options)`. */
  function BuildResponse(o: Options): (r: Response)
    ensures r.version == "1.0"
    ensures r.response.outputSpeech.kind == "SSML"
    ensures r.response.outputSpeech.ssml == SpeakOpen + Render(o.speechText) + SpeakClose
    ensures r.response.shouldEndSession == o.endSession
    ensures r.response.reprompt.Some? <==> Truthy(o.repromptText)
    ensures r.response.reprompt.Some? ==>
      r.response.reprompt.value.outputSpeech == OutputSpeech("SSML", SpeakOpen + o.repromptText.value + SpeakClose)
    ensures r.response.card.Some? <==> Truthy(o.cardTitle)
    ensures r.response.card.Some? ==> r.response.card.value.title == o.cardTitle.value
    ensures r.response.card.Some? ==>
      (r.response.card.value.Kind() == "Standard" <==> Truthy(o.imageUrl))
    ensures r.response.card.Some? && r.response.card.value.Standard? ==>
      r.response.card.value.text == o.cardContent &&
      r.response.card.value.image == Image(o.imageUrl.value, o.imageUrl.value)
    ensures r.response.card.Some? && r.response.card.value.Simple? ==>
      r.response.card.value.content == o.cardContent
    ensures r.sessionAttributes.Some? <==> o.session.Some? && o.session.value.attributes.Some?
    ensures r.sessionAttributes.Some? ==> r.sessionAttributes == o.session.value.attributes
  {
    var reprompt :=
      if Truthy(o.repromptText) then Some(Reprompt(SsmlSpeech(o.repromptText.value))) else None;
    var card :=
      if !Truthy(o.cardTitle) then None
      else if Truthy(o.imageUrl) then
        Some(Standard(o.cardTitle.value, o.cardContent, Image(o.imageUrl.value, o.imageUrl.value)))
      else Some(Simple(o.cardTitle.value, o.cardContent));
    var attributes :=
      if o.session.Some? && o.session.value.attributes.Some? then o.session.value.attributes else None;
    Response("1.0", ResponseBody(SsmlSpeech(Render(o.speechText)), o.endSession, reprompt, card), attributes)
  }

  /** What a response shows of the options: every falsy field dropped,
      the speech as concatenation renders it. */
  datatype CardView = CardView(title: string, content: Option<string>, imageUrl: Option<string>)

  datatype View = View(
    speech: string,
    reprompt: Option<string>,
    card: Option<CardView>,
    endSession: bool,
    attributes: Option<Attributes>)

  /** The part of an options record that reaches the response. */
  function Visible(o: Options): View {
    View(
      Render(o.speechText),
      if Truthy(o.repromptText) then o.repromptText else None,
      if Truthy(o.cardTitle)
      then Some(CardView(o.cardTitle.value, o.cardContent, if Truthy(o.imageUrl) then o.imageUrl else None))
      else None,
      o.endSession,
      if o.session.Some? then o.session.value.attributes else None)
  }

  /** Reads a response back into the view it presents; `None` for a response
      this builder could not have produced. */
  function ReadBack(r: Response): Option<View> {
    if r.version != "1.0" || r.response.outputSpeech.kind != "SSML" then None
    else
      match Unwrap(r.response.outputSpeech.ssml)
      case None => None
      case Some(speech) =>
        var reprompt :=
          match r.response.reprompt
          case None => Some(None)
          case Some(rp) =>
            if rp.outputSpeech.kind != "SSML" then None
            else match Unwrap(rp.outputSpeech.ssml)
              case None => None
              case Some(t) => if t == "" then None else Some(Some(t));
        var card :=
          match r.response.card
          case None => Some(None)
          case Some(Simple(title, content)) =>
            if title == "" then None else Some(Some(CardView(title, content, None)))
          case Some(Standard(title, text, Image(small, large))) =>
            if title == "" || small == "" || small != large then None
            else Some(Some(CardView(title, text, Some(small))));
        if reprompt.None? || card.None? then None
        else Some(View(speech, reprompt.value, card.value, r.response.shouldEndSession, r.sessionAttributes))
  }

  /** The response carries exactly the visible part of the options: reading it back recovers it. */
  lemma ReadBackBuildResponse(o: Options)
    ensures ReadBack(BuildResponse(o)) == Some(Visible(o))
  {
    UnwrapWrap(Render(o.speechText));
    if Truthy(o.repromptText) {
      UnwrapWrap(o.repromptText.value);
    }
  }

  /** Two options records give the same response exactly when they agree on what is visible. */
  lemma BuildResponseDeterminedByView(o1: Options, o2: Options)
    ensures BuildResponse(o1) == BuildResponse(o2) <==> Visible(o1) == Visible(o2)
  {
    ReadBackBuildResponse(o1);
    ReadBackBuildResponse(o2);
    if Visible(o1) == Visible(o2) {
      WrapInjective(Render(o1.speechText), Render(o2.speechText));
    }
  }
}
