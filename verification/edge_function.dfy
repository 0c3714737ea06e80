/** The request pipeline the three edge functions share: the CORS preflight,
    the API-key check, the language-instruction table, the call to the AI
    gateway and the classification of its status. The gateway itself is a
    parameter of each handler (a function from the prompt to the reply). */
module EdgeFunction {
  import opened Wrappers
  import opened Text
  import opened Languages

  /** An incoming request: its HTTP method and the fields of its JSON body. */
  datatype Request<P> = Request(httpMethod: string, params: P)

  /** The fixed system-prompt templates, with what fills their slots. */
  datatype SystemPrompt =
    | TutorPrompt(instruction: string)
    | LessonPrompt(instruction: string, topic: string)
    | QuizPrompt(instruction: string, count: int, topic: string)

  /** The two chat messages sent upstream; a missing user message is `None`. */
  datatype Prompt = Prompt(system: SystemPrompt, user: Option<string>)

  /** What the gateway call produces: the HTTP status with
      `choices[0].message.content` (missing anywhere along that path is
      `None`), or the error `fetch` threw. */
  datatype GatewayReply = Reply(status: int, content: Option<string>) | Unreachable(message: string)

  /** What a handler answers: the preflight (a null body with the CORS
      headers), a 200 with a JSON body, or an error status with `{error}`. */
  datatype Response<B> = Preflight | Ok(body: B) | Failed(status: int, error: string)

  const MissingKeyMessage := "LOVABLE_API_KEY is not configured"
  const GatewayErrorMessage := "AI gateway error"

  /** The gateway outcomes the handlers tell apart. */
  datatype Outcome = Completed | RateLimited | QuotaExhausted | GatewayError

  /** `response.ok`, then the 429 and 402 checks. */
  function Classify(status: int): (o: Outcome)
    ensures o == Completed <==> 200 <= status <= 299
    ensures o == RateLimited <==> status == 429
    ensures o == QuotaExhausted <==> status == 402
  {
    if 200 <= status <= 299 then Completed
    else if status == 429 then RateLimited
    else if status == 402 then QuotaExhausted
    else GatewayError
  }

  /** The per-endpoint wording of the 429 and 402 errors. */
  datatype LimitMessages = LimitMessages(rateLimited: string, quotaExhausted: string)

  /** How far the shared part of a handler gets. */
  datatype Stage =
    | Preflighted
    | Stopped(status: int, error: string)
    | Delivered(content: Option<string>)

  /** The shared part of every handler, in source order: preflight, key,
      gateway status. */
  function Invoke(httpMethod: string, apiKey: Option<string>, reply: GatewayReply, m: LimitMessages): (st: Stage)
    ensures httpMethod == "OPTIONS" ==> st == Preflighted
    ensures httpMethod != "OPTIONS" && !Truthy(apiKey) ==> st == Stopped(500, MissingKeyMessage)
    ensures httpMethod != "OPTIONS" && Truthy(apiKey) ==>
      match reply
      case Unreachable(e) => st == Stopped(500, e)
      case Reply(status, content) =>
        match Classify(status)
        case Completed => st == Delivered(content)
        case RateLimited => st == Stopped(429, m.rateLimited)
        case QuotaExhausted => st == Stopped(402, m.quotaExhausted)
        case GatewayError => st == Stopped(500, GatewayErrorMessage)
    ensures st.Stopped? ==> st.status in {429, 402, 500}
  {
    if httpMethod == "OPTIONS" then Preflighted
    else if !Truthy(apiKey) then Stopped(500, MissingKeyMessage)
    else match reply
      case Unreachable(e) => Stopped(500, e)
      case Reply(status, content) =>
        match Classify(status)
        case Completed => Delivered(content)
        case RateLimited => Stopped(429, m.rateLimited)
        case QuotaExhausted => Stopped(402, m.quotaExhausted)
        case GatewayError => Stopped(500, GatewayErrorMessage)
  }

  /** A language-instruction table: one sentence per language. */
  datatype Instructions = Instructions(hindi: string, hinglish: string, english: string)

  function Entry(t: Instructions, l: Language): string {
    match l
    case Hindi => t.hindi
    case Hinglish => t.hinglish
    case English => t.english
  }

  /** The instruction for a request's `language`, looking only at the
      table's own three keys, English for anything else. This is the
      intended reading of `{hindi, hinglish, english}[language] || english`
      and what the handlers of this model use (see `InstructionAsWritten`). */
  function Instruction(t: Instructions, language: string): (r: string)
    ensures forall l: Language :: language == Key(l) ==> r == Entry(t, l)
    ensures (forall l: Language :: language != Key(l)) ==> r == t.english
  {
    match FromKey(language)
    case Some(l) => Entry(t, l)
    case None => t.english
  }

  /** What a template literal renders for a property every plain object
      inherits from `Object.prototype` (V8's rendering of native functions). */
  function Inherited(key: string): Option<string> {
    if key == "constructor" then Some("function Object() { [native code] }")
    else if key == "__proto__" then Some("[object Object]")
    else if key in {"toString", "valueOf", "hasOwnProperty", "isPrototypeOf",
                    "propertyIsEnumerable", "toLocaleString", "__defineGetter__",
                    "__defineSetter__", "__lookupGetter__", "__lookupSetter__"}
    then Some("function " + key + "() { [native code] }")
    else None
  }

  /** The lookup as the handlers write it: a property read on an object
      literal, which also finds the inherited properties. */
  function InstructionAsWritten(t: Instructions, language: string): string {
    match FromKey(language)
    case Some(l) => Entry(t, l)
    case None => Inherited(language).GetOr(t.english)
  }

  /** The two lookups agree on every key except the inherited names. */
  lemma InstructionAgreement(t: Instructions, language: string)
    ensures Inherited(language).None? ==> InstructionAsWritten(t, language) == Instruction(t, language)
    ensures Inherited(language).Some? ==> InstructionAsWritten(t, language) == Inherited(language).value
  {
  }

  /** Counterexample: a request with `language: "constructor"` gets the
      source text of `Object` in place of a language instruction. */
  lemma ConstructorKeyEscapesDefault(t: Instructions)
    ensures InstructionAsWritten(t, "constructor") == "function Object() { [native code] }"
    ensures Instruction(t, "constructor") == t.english
  {
  }
}
