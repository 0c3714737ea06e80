/** The `learn-topic` edge function: teaches a topic as a `TopicLesson`,
    falling back to a canned lesson that echoes the model's raw reply when
    that reply does not parse. */
module LearnTopicFunction {
  import opened Wrappers
  import opened Text
  import opened Fence
  import opened EdgeFunction

  datatype Params = Params(topic: Option<string>, language: string)

  datatype PracticePair = PracticePair(q: string, a: string)

  datatype Reply<J> =
    | Parsed(json: J)
    | Fallback(definition: Option<string>, steps: seq<string>, mistakes: seq<string>, practice: seq<PracticePair>)

  const Table := Instructions(
    ("Respond entirely in " + "Hindi (Devanagari script). " + "Use simple language " + "for school students."),
    ("Respond in Hinglish " + "(Hindi in Roman script " + "mixed with English). " + "Keep it casual and " + "student-friendly."),
    ("Respond in simple English " + "suitable for school " + "students."))

  const Limits := LimitMessages("Rate limit exceeded. Please try again.", "AI credits exhausted.")

  const UserPrefix := "Teach me about: "

  /** The user message: the fixed request followed by the topic as a
      template literal renders it. */
  function UserMessage(p: Params): (m: string)
    ensures StartsWith(m, UserPrefix) && m[|UserPrefix|..] == Interpolate(p.topic)
  {
    UserPrefix + Interpolate(p.topic)
  }

  function BuildPrompt(p: Params): Prompt {
    Prompt(LessonPrompt(Instruction(Table, p.language), Interpolate(p.topic)), Some(UserMessage(p)))
  }

  function FallbackFor<J>(content: Option<string>): (r: Reply<J>)
    ensures r.Fallback? && r.definition == content
    ensures |r.steps| == 1 && |r.mistakes| == 1 && |r.practice| == 1
  {
    Fallback(content, ["Read the explanation above"], ["Don't skip practicing"],
             [PracticePair("What did you learn?", "Review the explanation above!")])
  }

  function Handle<J>(req: Request<Params>, apiKey: Option<string>,
                     gateway: Prompt -> GatewayReply, parse: string -> Option<J>): (r: Response<Reply<J>>)
    ensures req.httpMethod == "OPTIONS" <==> r == Preflight
    ensures req.httpMethod != "OPTIONS" && !Truthy(apiKey) ==> r == Failed(500, MissingKeyMessage)
    ensures r.Failed? ==> r.status in {429, 402, 500}
    ensures var st := Invoke(req.httpMethod, apiKey, gateway(BuildPrompt(req.params)), Limits);
      st.Stopped? ==> r == Failed(st.status, st.error)
    ensures r.Ok? <==> Invoke(req.httpMethod, apiKey, gateway(BuildPrompt(req.params)), Limits).Delivered?
    ensures r.Ok? ==>
      var content := gateway(BuildPrompt(req.params)).content;
      match Extract(content, parse)
      case Some(v) => r.body == Parsed(v)
      case None => r.body == FallbackFor(content)
  {
    match Invoke(req.httpMethod, apiKey, gateway(BuildPrompt(req.params)), Limits)
    case Preflighted => Preflight
    case Stopped(status, e) => Failed(status, e)
    case Delivered(content) =>
      match Extract(content, parse)
      case Some(v) => Ok(Parsed(v))
      case None => Ok(FallbackFor(content))
  }
}
