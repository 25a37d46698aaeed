/**
 * The calls into the language model: the browser's `generateItinerary`,
 * `generateCaption` and `generateTrivia`, and the server's three
 * endpoints, which build the same prompts. The model is the oracle
 * `model`, mapping a prompt to its reply text or to a failed call;
 * `JSON.parse` is the oracle `parse`.
 */
module Gemini {
  import opened Wrappers
  import opened Text
  import opened Trip
  import opened Prompt
  import opened Reply

  /** What `model.generateContent(prompt)` comes back with: the reply's text, or a thrown error. */
  datatype ModelReply = Replied(text: string) | CallFailed

  /** The error `generateItinerary` rethrows when the model call fails. */
  const ItineraryFailure := "Failed to generate itinerary with Gemini API"
  /** The `error` field of the server's answer when the model call fails. */
  const ServerItineraryFailure := "Failed to generate itinerary"
  const ServerCaptionFailure := "Failed to generate caption"
  const ServerTriviaFailure := "Failed to generate trivia"

  /** What `generateCaption` answers when the model call fails. */
  const CaptionFallback := "Exploring the wonders of London! #LondonCalling"
  /** What `generateTrivia` answers when the model call fails. */
  const TriviaFallback := "An interesting fact about this location..."

  /**
   * The body of an itinerary handler once the prompt is sent: a failed call
   * is the error `failure`; a reply is classified.
   */
  function Handle<J>(reply: ModelReply, failure: string, parse: string -> Option<J>): (r: Result<Outcome<J>>)
    ensures r.Failure? <==> reply.CallFailed?
    ensures r.Failure? ==> r.error == failure
    ensures r.Success? && r.value.TextFormat? ==> r.value.itinerary == reply.text
    ensures r.Success? && r.value.Parsed? ==>
              var s := reply.text;
              FindBlock(s).Some? && Capture(s, FindBlock(s).value) != ""
              && parse(Capture(s, FindBlock(s).value)) == Some(r.value.value)
  {
    match reply
    case CallFailed => Failure(failure)
    case Replied(text) => Success(Classify(text, parse))
  }

  /** `generateItinerary(payload)`: the browser prompt goes to the model and the reply is classified. */
  function GenerateItinerary<J>(payload: Payload, currentDate: string, model: string -> ModelReply,
                                parse: string -> Option<J>): Result<Outcome<J>>
  {
    Handle(model(PromptFor(BrowserCopy, payload, currentDate)), ItineraryFailure, parse)
  }

  /** The `/api/generate-itinerary` handler: the server prompt goes to the model and the reply is classified. */
  function ServerItinerary<J>(payload: Payload, currentDate: string, model: string -> ModelReply,
                              parse: string -> Option<J>): Result<Outcome<J>>
  {
    Handle(model(PromptFor(ServerCopy, payload, currentDate)), ServerItineraryFailure, parse)
  }

  /** A reply without an opening fence comes back whole, in text format, from either handler. */
  lemma UnfencedReplyIsText<J>(reply: string, failure: string, parse: string -> Option<J>)
    requires !Contains(reply, Opener)
    ensures Handle(Replied(reply), failure, parse) == Success(TextFormat(reply))
  {
    NoFenceGivesText(reply, parse);
  }

  /**
   * A reply holding a block around `content`, with no fence before it and none
   * inside it, is the parse of `content` when that is non-empty and parses, and
   * the whole reply in text format otherwise.
   */
  lemma FencedReply<J>(before: string, content: string, after: string, failure: string,
                       parse: string -> Option<J>)
    requires !Contains(before + Opener[..|Opener| - 1], Opener)
    requires !Contains(content + Closer[..|Closer| - 1], Closer)
    ensures var s := LaidOut(before, content, after);
            Handle(Replied(s), failure, parse) ==
              if content != "" && parse(content).Some? then Success(Parsed(parse(content).value))
              else Success(TextFormat(s))
  {
    ClassifyLaidOut(before, content, after, parse);
  }

  /** The browser and the server treat the same reply alike; only the failure message differs. */
  lemma HandlersAgree<J>(reply: ModelReply, parse: string -> Option<J>)
    ensures reply.Replied? ==> Handle(reply, ItineraryFailure, parse) == Handle(reply, ServerItineraryFailure, parse)
    ensures reply.CallFailed? ==> Handle(reply, ItineraryFailure, parse) != Handle(reply, ServerItineraryFailure, parse)
  {
    if reply.CallFailed? {
      assert ItineraryFailure[|ServerItineraryFailure|] != ' ' || |ItineraryFailure| != |ServerItineraryFailure|;
    }
  }

  /** The reply text on success, `fallback` on a failed call. */
  function Answer(reply: ModelReply, fallback: string): (r: string)
    ensures reply.Replied? ==> r == reply.text
    ensures reply.CallFailed? ==> r == fallback
  {
    match reply
    case Replied(text) => text
    case CallFailed => fallback
  }

  const CaptionLead := "\nCreate a creative, engaging Instagram caption for a post about visiting \""
  const CaptionMiddle := "\" in London.\nActivity: "
  const CaptionRules :=
    "\n\nThe caption should:\n1. Be witty or clever\n2. Include 1-2 relevant hashtags\n"
    + "3. Be under 100 characters\n4. Have a London or British flavor to it\n"

  /** The caption prompt, the same text in the browser and on the server. */
  function CaptionPieces(location: string, activity: string): seq<string> {
    [CaptionLead, location, CaptionMiddle, activity, CaptionRules]
  }

  function CaptionPrompt(location: string, activity: string): string {
    Concat(CaptionPieces(location, activity))
  }

  const TriviaLead := "\nShare one interesting historical fact or trivia about \""
  const TriviaRules :=
    "\" in London.\nThe fact should be:\n1. Concise (under 100 characters)\n2. Interesting or surprising\n"
    + "3. Historically accurate\n4. Something most tourists wouldn't know\n"

  /** The trivia prompt, the same text in the browser and on the server. */
  function TriviaPieces(location: string): seq<string> {
    [TriviaLead, location, TriviaRules]
  }

  function TriviaPrompt(location: string): string {
    Concat(TriviaPieces(location))
  }

  /** The caption prompt names the location in quotes, followed by the activity line, and then the activity. */
  lemma CaptionPromptNames(location: string, activity: string)
    ensures Contains(CaptionPrompt(location, activity), location + CaptionMiddle + activity)
  {
    var xs := CaptionPieces(location, activity);
    ContainsPieces(xs, 1, 4);
    assert xs[1..4] == [location, CaptionMiddle, activity];
    assert [location, CaptionMiddle, activity][1..] == [CaptionMiddle, activity];
    ConcatPair(CaptionMiddle, activity);
    AppendAssoc(location, CaptionMiddle, activity);
  }

  /** The trivia prompt names the location, followed by the closing quote. */
  lemma TriviaPromptNames(location: string)
    ensures Contains(TriviaPrompt(location), location + TriviaRules)
  {
    var xs := TriviaPieces(location);
    ContainsPieces(xs, 1, 3);
    assert xs[1..3] == [location, TriviaRules];
    ConcatPair(location, TriviaRules);
  }

  /** `generateCaption(location, activity)`. */
  function GenerateCaption(location: string, activity: string, model: string -> ModelReply): (r: string)
    ensures model(CaptionPrompt(location, activity)).CallFailed? ==> r == "Exploring the wonders of London! #LondonCalling"
    ensures model(CaptionPrompt(location, activity)).Replied? ==> r == model(CaptionPrompt(location, activity)).text
  {
    Answer(model(CaptionPrompt(location, activity)), CaptionFallback)
  }

  /** `generateTrivia(location)`. */
  function GenerateTrivia(location: string, model: string -> ModelReply): (r: string)
    ensures model(TriviaPrompt(location)).CallFailed? ==> r == "An interesting fact about this location..."
    ensures model(TriviaPrompt(location)).Replied? ==> r == model(TriviaPrompt(location)).text
  {
    Answer(model(TriviaPrompt(location)), TriviaFallback)
  }

  /** The `/api/generate-caption` handler: `{caption: text}`, or the error on a failed call. */
  function ServerCaption(location: string, activity: string, model: string -> ModelReply): (r: Result<string>)
    ensures r.Success? <==> model(CaptionPrompt(location, activity)).Replied?
    ensures r.Success? ==> r.value == model(CaptionPrompt(location, activity)).text
    ensures r.Failure? ==> r.error == ServerCaptionFailure
  {
    match model(CaptionPrompt(location, activity))
    case Replied(text) => Success(text)
    case CallFailed => Failure(ServerCaptionFailure)
  }

  /** The `/api/generate-trivia` handler: `{trivia: text}`, or the error on a failed call. */
  function ServerTrivia(location: string, model: string -> ModelReply): (r: Result<string>)
    ensures r.Success? <==> model(TriviaPrompt(location)).Replied?
    ensures r.Success? ==> r.value == model(TriviaPrompt(location)).text
    ensures r.Failure? ==> r.error == ServerTriviaFailure
  {
    match model(TriviaPrompt(location))
    case Replied(text) => Success(text)
    case CallFailed => Failure(ServerTriviaFailure)
  }

  /**
   * The browser's caption never fails: it is the reply the server would send
   * back as `caption`, or the fallback when the call fails.
   */
  lemma CaptionMatchesServer(location: string, activity: string, model: string -> ModelReply)
    ensures var r := ServerCaption(location, activity, model);
            GenerateCaption(location, activity, model) == if r.Success? then r.value else CaptionFallback
  {
  }

  /** Likewise for the trivia fact. */
  lemma TriviaMatchesServer(location: string, model: string -> ModelReply)
    ensures var r := ServerTrivia(location, model);
            GenerateTrivia(location, model) == if r.Success? then r.value else TriviaFallback
  {
  }
}
