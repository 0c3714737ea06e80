/** The `generate-questions` edge function: asks for a quiz and returns it as
    `{questions}`. Unlike the other two it has no fallback: a reply that does
    not parse is a 500. */
module GenerateQuestionsFunction {
  import opened Wrappers
  import opened Text
  import opened Fence
  import opened EdgeFunction

  /** `count` is the JSON number from the body, when there is one. */
  datatype Params = Params(topic: Option<string>, count: Option<int>, language: string)

  datatype Body<J> = Questions(questions: J)

  const Table := Instructions(
    ("Generate everything " + "in Hindi (Devanagari " + "script). Keep language " + "simple for school students."),
    ("Generate in Hinglish " + "(Hindi in Roman script " + "mixed with English). " + "Keep it casual and " + "student-friendly."),
    ("Generate in simple English " + "suitable for school " + "students."))

  const Limits := LimitMessages("Rate limit exceeded. Please try again.", "AI credits exhausted.")

  const ParseFailureMessage := "Failed to parse AI response"

  /** `count || 5`: a missing count and a zero count both become five. */
  function RequestedCount(count: Option<int>): (n: int)
    ensures n != 0
    ensures count.Some? && count.value != 0 ==> n == count.value
    ensures count.None? || count.value == 0 ==> n == 5
  {
    if count.Some? && count.value != 0 then count.value else 5
  }

  const UserPrefix := "Generate "

  /** The user message names the requested count and then the topic. */
  function UserMessage(p: Params): (m: string)
    ensures StartsWith(m, UserPrefix + IntToString(RequestedCount(p.count)) + " MCQ questions about: ")
    ensures m[|UserPrefix + IntToString(RequestedCount(p.count)) + " MCQ questions about: "|..] == Interpolate(p.topic)
  {
    UserPrefix + IntToString(RequestedCount(p.count)) + " MCQ questions about: " + Interpolate(p.topic)
  }

  /** The system template and the user message carry the same count. */
  function BuildPrompt(p: Params): (pr: Prompt)
    ensures pr.system.QuizPrompt? && pr.system.count == RequestedCount(p.count)
    ensures pr.user.Some? && StartsWith(pr.user.value, UserPrefix + IntToString(pr.system.count))
  {
    var n := RequestedCount(p.count);
    Prompt(QuizPrompt(Instruction(Table, p.language), n, Interpolate(p.topic)), Some(UserMessage(p)))
  }

  /** The digits that follow "Generate " read back as the count the system
      template asks for, for any non-negative count. */
  lemma CountReadsBack(p: Params)
    requires p.count.None? || p.count.value >= 0
    ensures var pr := BuildPrompt(p); var d := NatToString(pr.system.count);
      && |UserPrefix| + |d| <= |pr.user.value|
      && AllDigits(pr.user.value[|UserPrefix|..|UserPrefix| + |d|])
      && DigitsValue(pr.user.value[|UserPrefix|..|UserPrefix| + |d|]) == pr.system.count
  {
    var pr := BuildPrompt(p);
    var n := pr.system.count;
    var d := NatToString(n);
    var u := pr.user.value;
    var head := UserPrefix + d;
    assert StartsWith(u, head);
    assert u[|UserPrefix|..|UserPrefix| + |d|] == u[..|head|][|UserPrefix|..] == head[|UserPrefix|..] == d;
    NatToStringRoundTrip(n);
  }

  function Handle<J>(req: Request<Params>, apiKey: Option<string>,
                     gateway: Prompt -> GatewayReply, parse: string -> Option<J>): (r: Response<Body<J>>)
    ensures req.httpMethod == "OPTIONS" <==> r == Preflight
    ensures req.httpMethod != "OPTIONS" && !Truthy(apiKey) ==> r == Failed(500, MissingKeyMessage)
    ensures r.Failed? ==> r.status in {429, 402, 500}
    ensures var st := Invoke(req.httpMethod, apiKey, gateway(BuildPrompt(req.params)), Limits);
      st.Stopped? ==> r == Failed(st.status, st.error)
    ensures r.Ok? <==>
      (Invoke(req.httpMethod, apiKey, gateway(BuildPrompt(req.params)), Limits).Delivered?
       && Extract(gateway(BuildPrompt(req.params)).content, parse).Some?)
    ensures Invoke(req.httpMethod, apiKey, gateway(BuildPrompt(req.params)), Limits).Delivered? ==>
      match Extract(gateway(BuildPrompt(req.params)).content, parse)
      case Some(v) => r == Ok(Questions(v))
      case None => r == Failed(500, ParseFailureMessage)
  {
    match Invoke(req.httpMethod, apiKey, gateway(BuildPrompt(req.params)), Limits)
    case Preflighted => Preflight
    case Stopped(status, e) => Failed(status, e)
    case Delivered(content) =>
      match Extract(content, parse)
      case Some(v) => Ok(Questions(v))
      case None => Failed(500, ParseFailureMessage)
  }
}
