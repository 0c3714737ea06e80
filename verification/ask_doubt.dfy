/** The `ask-doubt` edge function: answers a student's question with a
    `TutorResponse`, falling back to a canned one that echoes the model's
    raw reply when that reply does not parse. */
module AskDoubtFunction {
  import opened Wrappers
  import opened Text
  import opened Fence
  import opened EdgeFunction

  /** The request body fields; a field absent from the JSON is `None`. */
  datatype Params = Params(question: Option<string>, language: string, imageDescription: Option<string>)

  /** The reply body: the parsed JSON as is, or the fallback structure. */
  datatype Reply<J> =
    | Parsed(json: J)
    | Fallback(explanation: Option<string>, steps: seq<string>, example: string, tip: string)

  const Table := Instructions(
    ("Answer entirely in Hindi " + "(Devanagari script). " + "Use simple language " + "suitable for school " + "students."),
    ("Answer in Hinglish (Hindi " + "written in English/Roman " + "script mixed with English). " + "Keep it casual and " + "student-friendly."),
    ("Answer in simple English " + "suitable for school " + "students."))

  const Limits := LimitMessages(
    ("Rate limit exceeded. " + "Please try again in " + "a moment."),
    "AI credits exhausted. Please try later.")

  const DefaultQuestion := "Please explain this."

  const ImageLead := "The student uploaded an image described as: \""
  const QuestionLead := "\". Their question: "

  /** `m` quotes the description `d` between the image lead and the closing
      quote, and the question `q` fills the rest. */
  predicate QuotesBoth(m: string, d: string, q: string) {
    && |m| == |ImageLead| + |d| + |QuestionLead| + |q|
    && m[..|ImageLead|] == ImageLead
    && m[|ImageLead|..|ImageLead| + |d|] == d
    && m[|ImageLead| + |d|..|ImageLead| + |d| + |QuestionLead|] == QuestionLead
    && m[|ImageLead| + |d| + |QuestionLead|..] == q
  }

  /** The user message: with a (truthy) image description, a sentence that
      quotes it and then the question, defaulting an empty or missing one;
      otherwise the question itself, which may be missing. */
  function UserMessage(p: Params): (m: Option<string>)
    ensures Truthy(p.imageDescription) ==>
      m.Some? && QuotesBoth(m.value, p.imageDescription.value, OrDefault(p.question, DefaultQuestion))
    ensures !Truthy(p.imageDescription) ==> m == p.question
  {
    if Truthy(p.imageDescription) then
      var d := p.imageDescription.value;
      var q := OrDefault(p.question, DefaultQuestion);
      var m := ImageLead + d + QuestionLead + q;
      assert m[..|ImageLead|] == ImageLead;
      assert m[|ImageLead|..|ImageLead| + |d|] == d;
      assert m[|ImageLead| + |d|..|ImageLead| + |d| + |QuestionLead|] == QuestionLead;
      Some(m)
    else p.question
  }

  /** With an image, the message ends with the student's question when one
      was typed, and with "Please explain this." when it is missing or
      empty; the description always sits inside the quotes. */
  lemma ImageMessageEnds(p: Params)
    requires Truthy(p.imageDescription)
    ensures var m := UserMessage(p).value; var d := p.imageDescription.value;
      && m[|ImageLead|..|ImageLead| + |d|] == d
      && (Truthy(p.question) ==> m[|m| - |p.question.value|..] == p.question.value)
      && (!Truthy(p.question) ==> m[|m| - |DefaultQuestion|..] == DefaultQuestion)
  {
  }

  function BuildPrompt(p: Params): Prompt {
    Prompt(TutorPrompt(Instruction(Table, p.language)), UserMessage(p))
  }

  /** The structure substituted for a reply that does not parse. */
  function FallbackFor<J>(content: Option<string>): (r: Reply<J>)
    ensures r.Fallback? && r.explanation == content && |r.steps| == 1
  {
    Fallback(content, ["Read the explanation above carefully"],
             "🌟 Try to relate this to your daily life!",
             "💡 Ask again if you need more clarity!")
  }

  /** The whole handler. */
  function Handle<J>(req: Request<Params>, apiKey: Option<string>,
                     gateway: Prompt -> GatewayReply, parse: string -> Option<J>): (r: Response<Reply<J>>)
    ensures req.httpMethod == "OPTIONS" <==> r == Preflight
    ensures req.httpMethod != "OPTIONS" && !Truthy(apiKey) ==> r == Failed(500, MissingKeyMessage)
    ensures r.Failed? ==> r.status in {429, 402, 500}
    ensures var st := Invoke(req.httpMethod, apiKey, gateway(BuildPrompt(req.params)), Limits);
      st.Stopped? ==> r == Failed(st.status, st.error)
    ensures r.Ok? <==> Invoke(req.httpMethod, apiKey, gateway(BuildPrompt(req.params)), Limits).Delivered?
    ensures r.Ok? ==>
      var content := gateway(BuildPrompt(req.params)).content;
      match Extract(content, parse)
      case Some(v) => r.body == Parsed(v)
      case None => r.body == FallbackFor(content)
  {
    match Invoke(req.httpMethod, apiKey, gateway(BuildPrompt(req.params)), Limits)
    case Preflighted => Preflight
    case Stopped(status, e) => Failed(status, e)
    case Delivered(content) =>
      match Extract(content, parse)
      case Some(v) => Ok(Parsed(v))
      case None => Ok(FallbackFor(content))
  }

  /** With the gateway up and the key set, a reply that does not parse never
      reaches the student as an error: it comes back as the fallback with the
      raw text as its explanation. */
  lemma UnparsableReplyDegrades<J>(req: Request<Params>, apiKey: Option<string>,
                                   gateway: Prompt -> GatewayReply, parse: string -> Option<J>)
    requires req.httpMethod != "OPTIONS" && Truthy(apiKey)
    requires gateway(BuildPrompt(req.params)).Reply?
    requires 200 <= gateway(BuildPrompt(req.params)).status <= 299
    requires Extract(gateway(BuildPrompt(req.params)).content, parse).None?
    ensures var r := Handle(req, apiKey, gateway, parse);
      r.Ok? && r.body.Fallback? && r.body.explanation == gateway(BuildPrompt(req.params)).content
  {
  }
}
