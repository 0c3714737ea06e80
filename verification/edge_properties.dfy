/** How the three edge functions compare when the gateway behaves the same
    way for all of them. */
module EdgeFunctionProperties {
  import opened Wrappers
  import opened Text
  import opened Fence
  import opened EdgeFunction
  import AskDoubtFunction
  import LearnTopicFunction
  import GenerateQuestionsFunction
  import FenceProperties

  /** A gateway that answers every prompt with the same status and content. */
  function Constant(status: int, content: Option<string>): Prompt -> GatewayReply {
    _ => Reply(status, content)
  }

  /** An unparsable reply: the doubt and lesson flows degrade to their
      fallbacks, echoing the raw text; the quiz flow fails with a 500. */
  lemma FallbackAsymmetry<J>(m: string, apiKey: Option<string>, status: int, content: Option<string>,
                             parse: string -> Option<J>,
                             d: AskDoubtFunction.Params, l: LearnTopicFunction.Params,
                             g: GenerateQuestionsFunction.Params)
    requires m != "OPTIONS" && Truthy(apiKey) && 200 <= status <= 299
    requires Extract(content, parse).None?
    ensures AskDoubtFunction.Handle(Request(m, d), apiKey, Constant(status, content), parse)
            == Ok(AskDoubtFunction.FallbackFor(content))
    ensures LearnTopicFunction.Handle(Request(m, l), apiKey, Constant(status, content), parse)
            == Ok(LearnTopicFunction.FallbackFor(content))
    ensures GenerateQuestionsFunction.Handle(Request(m, g), apiKey, Constant(status, content), parse)
            == Failed(500, GenerateQuestionsFunction.ParseFailureMessage)
  {
    var gw := Constant(status, content);
    assert gw(AskDoubtFunction.BuildPrompt(d)) == Reply(status, content);
    assert gw(LearnTopicFunction.BuildPrompt(l)) == Reply(status, content);
    assert gw(GenerateQuestionsFunction.BuildPrompt(g)) == Reply(status, content);
  }

  /** A non-success status fails all three flows with the same status code:
      429 and 402 pass through, anything else becomes 500. */
  lemma SameStatusEverywhere<J>(m: string, apiKey: Option<string>, status: int, content: Option<string>,
                                parse: string -> Option<J>,
                                d: AskDoubtFunction.Params, l: LearnTopicFunction.Params,
                                g: GenerateQuestionsFunction.Params)
    requires m != "OPTIONS" && Truthy(apiKey) && !(200 <= status <= 299)
    ensures var code := if status == 429 || status == 402 then status else 500;
      && AskDoubtFunction.Handle(Request(m, d), apiKey, Constant(status, content), parse).Failed?
      && AskDoubtFunction.Handle(Request(m, d), apiKey, Constant(status, content), parse).status == code
      && LearnTopicFunction.Handle(Request(m, l), apiKey, Constant(status, content), parse).Failed?
      && LearnTopicFunction.Handle(Request(m, l), apiKey, Constant(status, content), parse).status == code
      && GenerateQuestionsFunction.Handle(Request(m, g), apiKey, Constant(status, content), parse).Failed?
      && GenerateQuestionsFunction.Handle(Request(m, g), apiKey, Constant(status, content), parse).status == code
  {
    var gw := Constant(status, content);
    assert gw(AskDoubtFunction.BuildPrompt(d)) == Reply(status, content);
    assert gw(LearnTopicFunction.BuildPrompt(l)) == Reply(status, content);
    assert gw(GenerateQuestionsFunction.BuildPrompt(g)) == Reply(status, content);
  }

  /** A fenced JSON reply inside prose reaches the student parsed, exactly as
      the parser reads the block's body, in all three flows: the prose before
      the block and its body may hold single or double backticks, but no
      fence may start in them. */
  lemma FencedReplyIsParsed<J>(m: string, apiKey: Option<string>, status: int,
                               prefix: string, body: string, suffix: string,
                               parse: string -> Option<J>, d: AskDoubtFunction.Params,
                               l: LearnTopicFunction.Params, g: GenerateQuestionsFunction.Params)
    requires m != "OPTIONS" && Truthy(apiKey) && 200 <= status <= 299
    requires NoFenceStartsIn(prefix) && NoFenceStartsIn(body) && parse(Trim(body)).Some?
    ensures var content := Some(prefix + "```json" + body + "```" + suffix);
      && AskDoubtFunction.Handle(Request(m, d), apiKey, Constant(status, content), parse)
           == Ok(AskDoubtFunction.Parsed(parse(Trim(body)).value))
      && LearnTopicFunction.Handle(Request(m, l), apiKey, Constant(status, content), parse)
           == Ok(LearnTopicFunction.Parsed(parse(Trim(body)).value))
      && GenerateQuestionsFunction.Handle(Request(m, g), apiKey, Constant(status, content), parse)
           == Ok(GenerateQuestionsFunction.Questions(parse(Trim(body)).value))
  {
    var content := Some(prefix + "```json" + body + "```" + suffix);
    FenceProperties.TaggedBlock(prefix, body, suffix);
    var gw := Constant(status, content);
    assert gw(AskDoubtFunction.BuildPrompt(d)) == Reply(status, content);
    assert gw(LearnTopicFunction.BuildPrompt(l)) == Reply(status, content);
    assert gw(GenerateQuestionsFunction.BuildPrompt(g)) == Reply(status, content);
  }
}
