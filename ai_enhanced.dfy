/** The enhanced-AI edge function (supabase/functions/ai-enhanced/index.ts):
    the rule-based market analysis, the keyword-routed chat reply and the
    request handler's branches. The prompt text is built but never sent,
    so only its failure on missing numbers matters here. */
module AiEnhanced {
  import opened Numbers
  import opened Text
  import opened Requests
  import opened RealMarketData
  import opened Routing

  // ---------------------------------------------------------------------
  // generateMarketAnalysis

  /** The three numbers the analysis rules read. */
  datatype AnalysisInput = AnalysisInput(sp500ChangePercent: real, vixPrice: real,
                                         yieldChangePercent: real)

  /** Which sentence was pushed into key_insights. */
  datatype KeyInsight =
    | StrongPerformance | SP500Decline | MixedSignals(positiveMomentum: bool)
    | LowVix | HighVix | ModerateVix
    | FallingYields | RisingYields

  datatype RiskAssessment = ElevatedRisk | LowRisk | ModerateRisk

  datatype Outlook = PositiveOutlook | CautiousOutlook | NeutralOutlook

  datatype Analysis = Analysis(sentiment: Sentiment, confidence: Level,
                               keyInsights: seq<KeyInsight>, risk: RiskAssessment,
                               outlook: Outlook)

  /** The analysis sentiment: the S&P 500 move alone decides, with strict
      thresholds of +-1%. */
  function AnalysisSentiment(sp500ChangePercent: real): (s: Sentiment)
    ensures s == Bullish <==> sp500ChangePercent > 1.0
    ensures s == Bearish <==> sp500ChangePercent < -1.0
    ensures s == Neutral <==> -1.0 <= sp500ChangePercent <= 1.0
  {
    if sp500ChangePercent > 1.0 then Bullish
    else if sp500ChangePercent < -1.0 then Bearish
    else Neutral
  }

  /** What generateMarketAnalysis promises of an analysis a of the numbers
      d: the sentiment, the confidence, each key-insight slot, the risk and
      the outlook as the rules compute them. */
  predicate AnalysisFits(d: AnalysisInput, a: Analysis)
  {
    && a.sentiment == AnalysisSentiment(d.sp500ChangePercent)
    && (a.confidence == High <==> a.sentiment != Neutral)
    && (a.confidence == Medium <==> a.sentiment == Neutral)
    && 2 <= |a.keyInsights| <= 3
    && a.keyInsights[0] == (if d.sp500ChangePercent > 1.0 then StrongPerformance
                            else if d.sp500ChangePercent < -1.0 then SP500Decline
                            else MixedSignals(d.sp500ChangePercent >= 0.0))
    && a.keyInsights[1] == (if d.vixPrice < 20.0 then LowVix
                            else if d.vixPrice > 25.0 then HighVix
                            else ModerateVix)
    && (|a.keyInsights| == 3 <==> d.yieldChangePercent < -0.5 || d.yieldChangePercent > 0.5)
    && (|a.keyInsights| == 3 ==>
          a.keyInsights[2] == (if d.yieldChangePercent < -0.5 then FallingYields else RisingYields))
    && (a.risk == ElevatedRisk <==> d.vixPrice > 25.0 || Abs(d.sp500ChangePercent) > 2.0)
    && (a.risk == LowRisk <==>
          !(d.vixPrice > 25.0 || Abs(d.sp500ChangePercent) > 2.0)
          && d.vixPrice < 15.0 && d.sp500ChangePercent > 0.0)
    && (a.outlook == PositiveOutlook <==> a.sentiment == Bullish && d.vixPrice < 20.0)
    && (a.outlook == CautiousOutlook <==> a.sentiment == Bearish && d.vixPrice > 25.0)
  }

  /** generateMarketAnalysis: the variables start neutral and medium, the
      S&P rule may overwrite both, and each rule pushes its sentence. */
  method GenerateMarketAnalysis(d: AnalysisInput) returns (a: Analysis)
    ensures AnalysisFits(d, a)
  {
    var sp500Change, vixLevel, yieldChange := d.sp500ChangePercent, d.vixPrice, d.yieldChangePercent;
    var sentiment := Neutral;
    var confidence := Medium;
    var insights: seq<KeyInsight> := [];

    if sp500Change > 1.0 {
      sentiment := Bullish;
      confidence := High;
      insights := insights + [StrongPerformance];
    } else if sp500Change < -1.0 {
      sentiment := Bearish;
      confidence := High;
      insights := insights + [SP500Decline];
    } else {
      insights := insights + [MixedSignals(sp500Change >= 0.0)];
    }

    if vixLevel < 20.0 {
      insights := insights + [LowVix];
    } else if vixLevel > 25.0 {
      insights := insights + [HighVix];
    } else {
      insights := insights + [ModerateVix];
    }

    if yieldChange < -0.5 {
      insights := insights + [FallingYields];
    } else if yieldChange > 0.5 {
      insights := insights + [RisingYields];
    }

    var risk;
    if vixLevel > 25.0 || Abs(sp500Change) > 2.0 {
      risk := ElevatedRisk;
    } else if vixLevel < 15.0 && sp500Change > 0.0 {
      risk := LowRisk;
    } else {
      risk := ModerateRisk;
    }

    var outlook;
    if sentiment == Bullish && vixLevel < 20.0 {
      outlook := PositiveOutlook;
    } else if sentiment == Bearish && vixLevel > 25.0 {
      outlook := CautiousOutlook;
    } else {
      outlook := NeutralOutlook;
    }

    a := Analysis(sentiment, confidence, insights, risk, outlook);
  }

  /** An analysis outlook that is not neutral needs the S&P move and the
      VIX to agree: a positive outlook comes with a rally above 1% under a
      VIX below 20, so a high confidence and the strong-performance and
      low-VIX insights; a cautious one with a fall below -1% under a VIX
      above 25, so the decline and high-VIX insights and an elevated
      risk. */
  lemma OutlookNeedsAgreement(d: AnalysisInput, a: Analysis)
    requires AnalysisFits(d, a)
    ensures a.outlook == PositiveOutlook <==> d.sp500ChangePercent > 1.0 && d.vixPrice < 20.0
    ensures a.outlook == CautiousOutlook <==> d.sp500ChangePercent < -1.0 && d.vixPrice > 25.0
    ensures a.outlook == PositiveOutlook ==>
              a.confidence == High && a.keyInsights[..2] == [StrongPerformance, LowVix]
    ensures a.outlook == CautiousOutlook ==>
              a.confidence == High && a.keyInsights[..2] == [SP500Decline, HighVix]
              && a.risk == ElevatedRisk
  {
  }

  // ---------------------------------------------------------------------
  // generateChatResponse

  /** The fields of the market context the chat reply reads; None stands
      for a missing field. */
  datatype ChatContext = ChatContext(
    sentiment: Option<string>,
    sp500Price: Option<real>, sp500ChangePercent: Option<real>,
    vixPrice: Option<real>, vixLevel: Option<string>,
    yieldPrice: Option<real>, yieldChange: Option<real>, yieldChangePercent: Option<real>)

  /** The context used when a chat request carries no marketData. */
  const DefaultContext := ChatContext(Some("neutral"), Some(5000.0), Some(0.0),
                                      Some(20.0), Some("medium"), None, Some(0.0), None)

  /** marketContext.sentiment || 'neutral'. */
  function ContextSentiment(ctx: ChatContext): (s: string)
    ensures s == "neutral" || (ctx.sentiment.Some? && s == ctx.sentiment.value)
    ensures |s| > 0
  {
    match ctx.sentiment
    case Some(s) => if s == [] then "neutral" else s
    case None => "neutral"
  }

  /** The keyword groups, tried in this order. */
  datatype ChatTopic = Buying | Selling | Outlook | Rates | Inflation | Recession | General

  /** The if-chain of generateChatResponse on the lowercased message. */
  function ChatTopicOf(normalized: string): (t: ChatTopic)
    ensures t == Buying <==>
              Contains(normalized, "buy") || Contains(normalized, "invest") || Contains(normalized, "long")
    ensures t == General <==>
              !Contains(normalized, "buy") && !Contains(normalized, "invest") && !Contains(normalized, "long")
              && !Contains(normalized, "sell") && !Contains(normalized, "short") && !Contains(normalized, "exit")
              && !Contains(normalized, "market") && !Contains(normalized, "outlook")
              && !Contains(normalized, "fed") && !Contains(normalized, "rates") && !Contains(normalized, "interest")
              && !Contains(normalized, "inflation") && !Contains(normalized, "cpi")
              && !Contains(normalized, "recession") && !Contains(normalized, "risk")
  {
    if Contains(normalized, "buy") || Contains(normalized, "invest") || Contains(normalized, "long") then Buying
    else if Contains(normalized, "sell") || Contains(normalized, "short") || Contains(normalized, "exit") then Selling
    else if Contains(normalized, "market") || Contains(normalized, "outlook") then Outlook
    else if Contains(normalized, "fed") || Contains(normalized, "rates") || Contains(normalized, "interest") then Rates
    else if Contains(normalized, "inflation") || Contains(normalized, "cpi") then Inflation
    else if Contains(normalized, "recession") || Contains(normalized, "risk") then Recession
    else General
  }

  /** The keyword groups as a table. */
  const ChatRules: seq<Rule<ChatTopic>> := [
    Rule(["buy", "invest", "long"], Buying),
    Rule(["sell", "short", "exit"], Selling),
    Rule(["market", "outlook"], Outlook),
    Rule(["fed", "rates", "interest"], Rates),
    Rule(["inflation", "cpi"], Inflation),
    Rule(["recession", "risk"], Recession)
  ]

  /** The if-chain is the first-match router over the table. */
  lemma ChatTopicIsFirstMatch(normalized: string)
    ensures ChatTopicOf(normalized) == Route(normalized, ChatRules, General)
  {
    var n := normalized;
    var r0, r1 := Rule(["buy", "invest", "long"], Buying), Rule(["sell", "short", "exit"], Selling);
    var r2, r3 := Rule(["market", "outlook"], Outlook), Rule(["fed", "rates", "interest"], Rates);
    var r4, r5 := Rule(["inflation", "cpi"], Inflation), Rule(["recession", "risk"], Recession);
    assert ChatRules == [r0, r1, r2] + [r3, r4, r5];
    assert [r3, r4, r5] == [r3, r4, r5] + [];
    RoutePrefix(n, r0, r1, r2, [r3, r4, r5], General);
    RoutePrefix(n, r3, r4, r5, [], General);
    assert Route(n, [], General) == General;
    AnyOfThree(n, "buy", "invest", "long");
    AnyOfThree(n, "sell", "short", "exit");
    AnyOfTwo(n, "market", "outlook");
    AnyOfThree(n, "fed", "rates", "interest");
    AnyOfTwo(n, "inflation", "cpi");
    AnyOfTwo(n, "recession", "risk");
  }

  /** The recommendation tone chosen from the sentiment. */
  datatype Stance = SelectivelyBullish | Defensive | Balanced

  function StanceOf(sentiment: string): (s: Stance)
    ensures s == SelectivelyBullish <==> sentiment == "bullish"
    ensures s == Defensive <==> sentiment == "bearish"
  {
    if sentiment == "bullish" then SelectivelyBullish
    else if sentiment == "bearish" then Defensive
    else Balanced
  }

  /** A VIX reading put into one of three bands. */
  datatype Band = HighBand | LowBand | ModerateBand

  datatype Policy = PotentiallyEasing | TightPolicy | HoldingSteady

  /** Which reply was produced and every choice made inside it. */
  datatype ChatReply =
    | BuyReply(sentiment: string, stance: Stance, positiveMomentum: bool)
    | SellReply(volatility: Band, confirmsBearish: bool)
    | OutlookReply(sentiment: string)
    | RatesReply(rising: bool, policy: Policy)
    | InflationReply(declining: bool)
    | RecessionReply(risk: Band)
    | DefaultReply(question: string, sentiment: string, focus: Stance)

  /** The VIX band of the selling reply, on `vix?.price || 'unknown'`: a
      missing or zero price becomes the string 'unknown', which is neither
      above 25 nor below 15. */
  function SellingBand(vixPrice: Option<real>): (b: Band)
    ensures b == HighBand <==> vixPrice.Some? && vixPrice.value > 25.0
    ensures b == LowBand <==> vixPrice.Some? && vixPrice.value != 0.0 && vixPrice.value < 15.0
  {
    match vixPrice
    case None => ModerateBand
    case Some(p) =>
      if p == 0.0 then ModerateBand
      else if p > 25.0 then HighBand
      else if p < 15.0 then LowBand
      else ModerateBand
  }

  /** The risk band of the recession reply, on `vix?.price` itself: a
      missing price compares false both ways. */
  function RecessionBand(vixPrice: Option<real>): (b: Band)
    ensures b == HighBand <==> vixPrice.Some? && vixPrice.value > 25.0
    ensures b == LowBand <==> vixPrice.Some? && vixPrice.value < 15.0
  {
    match vixPrice
    case None => ModerateBand
    case Some(p) =>
      if p > 25.0 then HighBand
      else if p < 15.0 then LowBand
      else ModerateBand
  }

  /** The two readings differ only on a zero VIX price, which the selling
      reply calls moderate and the recession reply low. */
  lemma BandsDifferOnlyAtZero(vixPrice: Option<real>)
    ensures SellingBand(vixPrice) != RecessionBand(vixPrice) <==> vixPrice == Some(0.0)
  {
  }

  /** The rate reply: `treasuryYield?.changePercent || 0`, rising on a
      change of at least 0. */
  function RatesReplyOf(yieldChangePercent: Option<real>): (r: ChatReply)
    ensures r.RatesReply?
    ensures r.rising <==> yieldChangePercent.None? || yieldChangePercent.value >= 0.0
    ensures r.policy == PotentiallyEasing <==> yieldChangePercent.Some? && yieldChangePercent.value < -0.5
    ensures r.policy == TightPolicy <==> yieldChangePercent.Some? && yieldChangePercent.value > 0.5
  {
    var change := match yieldChangePercent case Some(c) => c case None => 0.0;
    RatesReply(change >= 0.0,
               if change < -0.5 then PotentiallyEasing
               else if change > 0.5 then TightPolicy
               else HoldingSteady)
  }

  /** generateChatResponse on a message that is a string. */
  function ChatReplyOf(message: string, ctx: ChatContext): (r: ChatReply)
    ensures r.DefaultReply? <==> ChatTopicOf(Lower(message)) == General
    ensures r.DefaultReply? ==> r.question == message && r.sentiment == ContextSentiment(ctx)
                                && r.focus == StanceOf(r.sentiment)
    ensures r.BuyReply? ==> r.sentiment == ContextSentiment(ctx) && r.stance == StanceOf(r.sentiment)
                            && (r.positiveMomentum <==>
                                  ctx.sp500ChangePercent.Some? && ctx.sp500ChangePercent.value >= 0.0)
    ensures r.OutlookReply? ==> r.sentiment == ContextSentiment(ctx)
    ensures r.RatesReply? ==> r == RatesReplyOf(ctx.yieldChangePercent)
    ensures r.InflationReply? ==> (r.declining <==> ctx.yieldChange.Some? && ctx.yieldChange.value < 0.0)
    ensures r.SellReply? ==> r.volatility == SellingBand(ctx.vixPrice)
                             && (r.confirmsBearish <==> ContextSentiment(ctx) == "bearish")
    ensures r.RecessionReply? ==> r.risk == RecessionBand(ctx.vixPrice)
  {
    var sentiment := ContextSentiment(ctx);
    match ChatTopicOf(Lower(message))
    case Buying =>
      BuyReply(sentiment, StanceOf(sentiment),
               ctx.sp500ChangePercent.Some? && ctx.sp500ChangePercent.value >= 0.0)
    case Selling => SellReply(SellingBand(ctx.vixPrice), sentiment == "bearish")
    case Outlook => OutlookReply(sentiment)
    case Rates => RatesReplyOf(ctx.yieldChangePercent)
    case Inflation => InflationReply(ctx.yieldChange.Some? && ctx.yieldChange.value < 0.0)
    case Recession => RecessionReply(RecessionBand(ctx.vixPrice))
    case General => DefaultReply(message, sentiment, StanceOf(sentiment))
  }

  /** The reply's kind is fixed by the first matching keyword group of the
      lowercased message, and only the sentiment, S&P move, VIX price and
      treasury fields of the context fill in its choices. */
  lemma ChatReplyKind(message: string, ctx: ChatContext)
    ensures ChatReplyOf(message, ctx).BuyReply? <==> Route(Lower(message), ChatRules, General) == Buying
    ensures ChatReplyOf(message, ctx).SellReply? <==> Route(Lower(message), ChatRules, General) == Selling
    ensures ChatReplyOf(message, ctx).OutlookReply? <==> Route(Lower(message), ChatRules, General) == Outlook
    ensures ChatReplyOf(message, ctx).RatesReply? <==> Route(Lower(message), ChatRules, General) == Rates
    ensures ChatReplyOf(message, ctx).InflationReply? <==> Route(Lower(message), ChatRules, General) == Inflation
    ensures ChatReplyOf(message, ctx).RecessionReply? <==> Route(Lower(message), ChatRules, General) == Recession
    ensures ChatReplyOf(message, ctx).DefaultReply? <==> Route(Lower(message), ChatRules, General) == General
  {
    ChatTopicIsFirstMatch(Lower(message));
  }

  /** Routing ignores case: lowercasing the message first changes
      nothing but the question the default reply quotes. */
  lemma ChatReplyIgnoresCase(message: string, ctx: ChatContext)
    ensures ChatReplyOf(Lower(message), ctx).DefaultReply? <==> ChatReplyOf(message, ctx).DefaultReply?
    ensures !ChatReplyOf(message, ctx).DefaultReply? ==> ChatReplyOf(Lower(message), ctx) == ChatReplyOf(message, ctx)
  {
    LowerIdempotent(message);
  }

  lemma SellLongHasLong(n: string)
    requires n == "sell long"
    ensures Contains(n, "long")
  {
    assert OccursAt(n, "long", 5);
  }

  /** The buying group is tried first: "sell long" gets the buying reply
      although it names a selling keyword too. */
  lemma SellLongIsBuying()
    ensures ChatTopicOf("sell long") == Buying
  {
    SellLongHasLong("sell long");
  }

  // ---------------------------------------------------------------------
  // The request handler.

  /** The marketData field of a request body: falsy, or an object whose
      fields the rules read. */
  datatype MarketDataField = NoMarketData | MarketObject(ctx: ChatContext)

  datatype RequestFields = RequestFields(message: Field, marketData: MarketDataField)

  /** The numbers the analysis and its prompt need; the prompt calls
      toFixed on five of them, which throws when one is missing. */
  function AnalysisInputOf(ctx: ChatContext): (d: Option<AnalysisInput>)
    ensures d.Some? <==> ctx.sp500Price.Some? && ctx.sp500ChangePercent.Some? && ctx.vixPrice.Some?
                         && ctx.yieldPrice.Some? && ctx.yieldChangePercent.Some?
    ensures d.Some? ==> d.value == AnalysisInput(ctx.sp500ChangePercent.value, ctx.vixPrice.value,
                                                 ctx.yieldChangePercent.value)
  {
    if ctx.sp500Price.Some? && ctx.sp500ChangePercent.Some? && ctx.vixPrice.Some?
       && ctx.yieldPrice.Some? && ctx.yieldChangePercent.Some?
    then Some(AnalysisInput(ctx.sp500ChangePercent.value, ctx.vixPrice.value, ctx.yieldChangePercent.value))
    else None
  }

  datatype HandlerResponse =
    | Preflight
    | ChatAnswer(reply: ChatReply, marketContext: ChatContext, timestamp: string)
    | AnalysisAnswer(analysis: Analysis, timestamp: string)
    | ErrorResponse(status: int, error: string, timestamp: string)

  /** url.searchParams.get('action') || 'analysis'. */
  function EffectiveAction(action: Option<string>): (a: string)
    ensures a == "analysis" || (action.Some? && a == action.value)
    ensures |a| > 0
  {
    match action
    case Some(s) => if s == [] then "analysis" else s
    case None => "analysis"
  }

  const InternalError := "Failed to process AI request"

  /** The handler: OPTIONS is answered at once; "chat" runs the chat
      branch; any other action runs the analysis. A body that does not
      parse, a message that is not a string, or market data without the
      numbers the prompt formats all land in the catch and get 500. The
      time is a parameter. */
  method Handle(httpMethod: string, action: Option<string>, body: Body<RequestFields>, now: string)
    returns (r: HandlerResponse)
    ensures httpMethod == "OPTIONS" <==> r.Preflight?
    ensures httpMethod != "OPTIONS" && body.Malformed? ==> r == ErrorResponse(500, InternalError, now)
    ensures r.ErrorResponse? && r.status == 400 <==>
              httpMethod != "OPTIONS" && body.Parsed?
              && (if EffectiveAction(action) == "chat" then !Truthy(body.fields.message)
                  else body.fields.marketData.NoMarketData?)
    ensures r.ChatAnswer? ==>
              EffectiveAction(action) == "chat" && body.Parsed? && body.fields.message.Str?
              && r.marketContext == (match body.fields.marketData
                                     case NoMarketData => DefaultContext
                                     case MarketObject(ctx) => ctx)
              && r.reply == ChatReplyOf(body.fields.message.s, r.marketContext)
    ensures r.AnalysisAnswer? ==>
              EffectiveAction(action) != "chat" && body.Parsed? && body.fields.marketData.MarketObject?
              && AnalysisInputOf(body.fields.marketData.ctx).Some?
    ensures r.AnalysisAnswer? ==>
              AnalysisFits(AnalysisInputOf(body.fields.marketData.ctx).value, r.analysis)
    ensures r.ChatAnswer? || r.AnalysisAnswer? ==> r.timestamp == now
    ensures (httpMethod != "OPTIONS" && body.Parsed? && EffectiveAction(action) == "chat"
             && Truthy(body.fields.message) && !body.fields.message.Str?)
              ==> r == ErrorResponse(500, InternalError, now)
    ensures (httpMethod != "OPTIONS" && body.Parsed? && EffectiveAction(action) != "chat"
             && body.fields.marketData.MarketObject?
             && AnalysisInputOf(body.fields.marketData.ctx).None?)
              ==> r == ErrorResponse(500, InternalError, now)
    ensures (httpMethod != "OPTIONS" && body.Parsed? && EffectiveAction(action) == "chat"
             && NonEmptyString(body.fields.message)) ==> r.ChatAnswer?
    ensures (httpMethod != "OPTIONS" && body.Parsed? && EffectiveAction(action) != "chat"
             && body.fields.marketData.MarketObject?
             && AnalysisInputOf(body.fields.marketData.ctx).Some?) ==> r.AnalysisAnswer?
  {
    if httpMethod == "OPTIONS" {
      return Preflight;
    }
    if body.Malformed? {
      return ErrorResponse(500, InternalError, now);
    }
    var fields := body.fields;
    if EffectiveAction(action) == "chat" {
      if !Truthy(fields.message) {
        return ErrorResponse(400, "Message is required", now);
      }
      var marketContext := match fields.marketData
                           case NoMarketData => DefaultContext
                           case MarketObject(ctx) => ctx;
      if !fields.message.Str? {
        // toLowerCase is not a function of a non-string message
        return ErrorResponse(500, InternalError, now);
      }
      var reply := ChatReplyOf(fields.message.s, marketContext);
      return ChatAnswer(reply, marketContext, now);
    } else {
      if fields.marketData.NoMarketData? {
        return ErrorResponse(400, "Market data is required", now);
      }
      var input := AnalysisInputOf(fields.marketData.ctx);
      if input.None? {
        return ErrorResponse(500, InternalError, now);
      }
      var analysis := GenerateMarketAnalysis(input.value);
      return AnalysisAnswer(analysis, now);
    }
  }

  /** The action parameter defaults to the analysis: a missing or empty
      action behaves as "analysis". */
  lemma ActionDefaultsToAnalysis(action: Option<string>)
    ensures action.None? ==> EffectiveAction(action) == "analysis"
    ensures action == Some([]) ==> EffectiveAction(action) == "analysis"
    ensures EffectiveAction(action) == "chat" <==> action == Some("chat")
  {
  }

  /** A chat request without market data is answered in the default
      context, whose sentiment reads as neutral. */
  lemma DefaultContextIsNeutral()
    ensures ContextSentiment(DefaultContext) == "neutral"
    ensures StanceOf(ContextSentiment(DefaultContext)) == Balanced
    ensures SellingBand(DefaultContext.vixPrice) == ModerateBand
    ensures RatesReplyOf(DefaultContext.yieldChangePercent) == RatesReply(true, HoldingSteady)
  {
  }
}
