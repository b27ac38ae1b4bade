/** The AI-chat edge function (supabase/functions/ai-chat/index.ts): a
    keyword-routed reply whose wording is decided by Math.random() draws,
    and a handler that checks the method and the message. The draws are
    parameters, consumed left to right as the template literal does. */
module AiChat {
  import opened Numbers
  import opened Text
  import opened Requests
  import opened Routing

  datatype ChatTopic = MarketTopic | FedTopic | InflationTopic | GrowthTopic | OtherTopic

  /** The if/return chain of generateAIResponse on the lowercased message. */
  function TopicOf(normalized: string): (t: ChatTopic)
    ensures t == MarketTopic <==> Contains(normalized, "market") || Contains(normalized, "stock")
    ensures t == OtherTopic <==>
              !Contains(normalized, "market") && !Contains(normalized, "stock")
              && !Contains(normalized, "fed") && !Contains(normalized, "rate") && !Contains(normalized, "interest")
              && !Contains(normalized, "inflation") && !Contains(normalized, "cpi")
              && !Contains(normalized, "recession") && !Contains(normalized, "growth") && !Contains(normalized, "gdp")
  {
    if Contains(normalized, "market") || Contains(normalized, "stock") then MarketTopic
    else if Contains(normalized, "fed") || Contains(normalized, "rate") || Contains(normalized, "interest") then FedTopic
    else if Contains(normalized, "inflation") || Contains(normalized, "cpi") then InflationTopic
    else if Contains(normalized, "recession") || Contains(normalized, "growth") || Contains(normalized, "gdp") then GrowthTopic
    else OtherTopic
  }

  /** The keyword groups as a table, in the order they are tried. */
  const Rules: seq<Rule<ChatTopic>> := [
    Rule(["market", "stock"], MarketTopic),
    Rule(["fed", "rate", "interest"], FedTopic),
    Rule(["inflation", "cpi"], InflationTopic),
    Rule(["recession", "growth", "gdp"], GrowthTopic)
  ]

  /** The if-chain is the first-match router over the table. */
  lemma TopicIsFirstMatch(normalized: string)
    ensures TopicOf(normalized) == Route(normalized, Rules, OtherTopic)
  {
    var n := normalized;
    var r0, r1 := Rule(["market", "stock"], MarketTopic), Rule(["fed", "rate", "interest"], FedTopic);
    var r2, r3 := Rule(["inflation", "cpi"], InflationTopic), Rule(["recession", "growth", "gdp"], GrowthTopic);
    assert Rules == [r0, r1, r2] + [r3];
    RoutePrefix(n, r0, r1, r2, [r3], OtherTopic);
    RouteOne(n, r3, OtherTopic);
    AnyOfTwo(n, "market", "stock");
    AnyOfThree(n, "fed", "rate", "interest");
    AnyOfTwo(n, "inflation", "cpi");
    AnyOfThree(n, "recession", "growth", "gdp");
  }

  /** Every choice the reply's wording makes; `Math.random() > 0.5` picks
      the first wording of each pair. */
  datatype Reply =
    | MarketReply(bullish: bool, vixQuote: real, lowVolatility: bool)
    | FedReply(hawkish: bool, decliningInflation: bool, cutsPossible: bool)
    | InflationReply(disinflationary: bool, controlled: bool, contributing: bool)
    | GrowthReply(positive: bool, expanding: bool, recessionProbability: int)
    | DefaultReply(riskOn: bool)

  predicate ValidDraws(draws: seq<real>)
  {
    |draws| >= 3 && forall i :: 0 <= i < |draws| ==> 0.0 <= draws[i] < 1.0
  }

  /** generateAIResponse. */
  function AIResponse(message: string, draws: seq<real>): (r: Reply)
    requires ValidDraws(draws)
    ensures r.MarketReply? ==> 15.0 <= r.vixQuote < 30.0
    ensures r.GrowthReply? ==> 0 <= r.recessionProbability <= 30
  {
    match TopicOf(Lower(message))
    case MarketTopic => MarketReply(draws[0] > 0.5, 15.0 + draws[1] * 15.0, draws[2] > 0.5)
    case FedTopic => FedReply(draws[0] > 0.5, draws[1] > 0.5, draws[2] > 0.5)
    case InflationTopic => InflationReply(draws[0] > 0.5, draws[1] > 0.5, draws[2] > 0.5)
    case GrowthTopic =>
      RoundWithin(draws[2] * 30.0, 0, 30);
      GrowthReply(draws[0] > 0.5, draws[1] > 0.5, Round(draws[2] * 30.0))
    case OtherTopic => DefaultReply(draws[0] > 0.5)
  }

  /** The reply's kind is the first matching group of the lowercased
      message; the draws only choose its wording. */
  lemma ReplyKind(message: string, draws: seq<real>)
    requires ValidDraws(draws)
    ensures AIResponse(message, draws).MarketReply? <==> Route(Lower(message), Rules, OtherTopic) == MarketTopic
    ensures AIResponse(message, draws).FedReply? <==> Route(Lower(message), Rules, OtherTopic) == FedTopic
    ensures AIResponse(message, draws).InflationReply? <==> Route(Lower(message), Rules, OtherTopic) == InflationTopic
    ensures AIResponse(message, draws).GrowthReply? <==> Route(Lower(message), Rules, OtherTopic) == GrowthTopic
    ensures AIResponse(message, draws).DefaultReply? <==> Route(Lower(message), Rules, OtherTopic) == OtherTopic
  {
    TopicIsFirstMatch(Lower(message));
  }

  /** The recession probability is Math.round(r * 30) of the third draw. */
  lemma RecessionProbabilityRange(r: real)
    requires 0.0 <= r < 1.0
    ensures 0 <= Round(r * 30.0) <= 30
    ensures r < 1.0 / 60.0 ==> Round(r * 30.0) == 0
    ensures r >= 59.0 / 60.0 ==> Round(r * 30.0) == 30
  {
    RoundWithin(r * 30.0, 0, 30);
  }

  lemma InflationRateFacts(n: string)
    requires n == "inflation rate"
    ensures !Contains(n, "market") && !Contains(n, "stock") && Contains(n, "rate")
  {
    AbsentChar(n, "market", 0);
    AbsentChar(n, "stock", 0);
    assert OccursAt(n, "rate", 10);
  }

  /** 'rate' is a plain substring test tried before the inflation group:
      "inflation rate" gets the Fed reply. */
  lemma InflationRateIsFed()
    ensures TopicOf("inflation rate") == FedTopic
  {
    InflationRateFacts("inflation rate");
  }

  /** A chat message and who wrote it. */
  datatype ChatMessage = UserMessage(content: string) | AssistantMessage(reply: Reply)

  datatype ChatResponse =
    | Preflight
    | Answer(response: Reply, history: seq<ChatMessage>, timestamp: string)
    | Failure(status: int, error: string)

  /** The handler. OPTIONS gets 200 and any other non-POST method 405,
      both before the body is read; a body that does not parse, or a
      truthy message that is not a string (toLowerCase throws), lands in
      the catch with 500; a falsy message gets 400. */
  method Handle(httpMethod: string, body: Body<Field>, draws: seq<real>, now: string)
    returns (r: ChatResponse)
    requires ValidDraws(draws)
    ensures r.Preflight? <==> httpMethod == "OPTIONS"
    ensures r.Failure? && r.status == 405 <==> httpMethod != "OPTIONS" && httpMethod != "POST"
    ensures r.Failure? && r.status == 400 <==> httpMethod == "POST" && body.Parsed? && !Truthy(body.fields)
    ensures r.Failure? && r.status == 500 <==>
              httpMethod == "POST" && (body.Malformed? || body.fields == OtherTruthy)
    ensures r.Answer? <==> httpMethod == "POST" && body.Parsed? && NonEmptyString(body.fields)
    ensures r.Answer? ==> r.response == AIResponse(body.fields.s, draws) && r.timestamp == now
                          && r.history == [UserMessage(body.fields.s), AssistantMessage(r.response)]
  {
    if httpMethod == "OPTIONS" {
      return Preflight;
    }
    if httpMethod != "POST" {
      return Failure(405, "Method not allowed");
    }
    if body.Malformed? {
      return Failure(500, "Failed to process chat request");
    }
    var message := body.fields;
    if !Truthy(message) {
      return Failure(400, "Message is required");
    }
    if !message.Str? {
      return Failure(500, "Failed to process chat request");
    }
    var aiResponse := AIResponse(message.s, draws);
    var chatHistory := [UserMessage(message.s), AssistantMessage(aiResponse)];
    return Answer(aiResponse, chatHistory, now);
  }
}
