/** The dashboard's chat endpoint (src/app/api/chat/route.ts): it checks
    the message, lowercases it and picks one of four canned answers of
    src/data/mockChatResponses.ts by keyword, first match winning. */
module ChatRoute {
  import opened Text
  import opened Requests
  import opened RealMarketData
  import opened Routing
  import opened QuickPrompts

  /** One canned answer (the ChatResponse interface). */
  datatype ChatResponse = ChatResponse(answer: string, rationale: string, horizon: string,
                                       confidence: Level, kellyFraction: Option<real>,
                                       uncertaintyFactors: seq<string>)

  const FedCutsKey := "fed cuts by 2026-03-31"
  const MispricedKey := "find mispriced markets"
  const RegimeKey := "current regime"
  const EnergyKey := "energy shock"

  /** chatResponses: the canned answers, by key. */
  const Responses: map<string, ChatResponse> := map[
    FedCutsKey := ChatResponse(
      "There is a 52% chance the Fed cuts rates by 2026-03-31.",
      "Cycle: liquidity remains tight; inflation prints show sticky services inflation; narrative: Fed minutes signalled caution.",
      "90 days", Medium, Some(0.08),
      ["incoming CPI prints", "unexpected geopolitical energy shock", "Fed communication shifts"]),
    MispricedKey := ChatResponse(
      "Top 3 mispriced opportunities: ECB tapering (17% edge), Fed cuts March 2026 (18% edge), Oil $100+ Q2 2026 (18% edge).",
      "Market pricing significantly undervalues policy tightening probability and energy supply constraints.",
      "varies by market", High, None,
      ["policy communication changes", "market sentiment shifts"]),
    RegimeKey := ChatResponse(
      "Current regime: Disinflationary (74% probability).",
      "Strong disinflationary signals across multiple indicators with stable regime transition probabilities.",
      "90 days", High, None,
      ["unexpected inflation shocks", "Fed policy surprises"]),
    EnergyKey := ChatResponse(
      "Energy domain at critical shock level (89/100) with high probability of continued volatility.",
      "Multiple supply constraints, geopolitical tensions, and Middle East dynamics creating persistent upward pressure.",
      "30-90 days", High, None,
      ["geopolitical de-escalation", "strategic reserve releases", "demand destruction"])
  ]

  /** defaultResponse. */
  const DefaultResponse := ChatResponse(
    "I need more specific information to provide an accurate probability assessment.",
    "Please provide more context about the specific event, timeframe, or market you are interested in.",
    "90 days", Low, None,
    ["insufficient context", "ambiguous timeframe"])

  /** The if/else-if chain on the lowercased message: the table key it
      reads, or None when it keeps defaultResponse. */
  function SelectKey(normalized: string): (key: Option<string>)
    ensures key.Some? ==> key.value in Responses
  {
    if Contains(normalized, "fed cuts") || Contains(normalized, "fed rate") then Some(FedCutsKey)
    else if Contains(normalized, "mispriced") || Contains(normalized, "opportunity") then Some(MispricedKey)
    else if Contains(normalized, "regime") || Contains(normalized, "current") then Some(RegimeKey)
    else if Contains(normalized, "energy") || Contains(normalized, "oil") then Some(EnergyKey)
    else None
  }

  /** The keyword groups as a table, in the order they are tried. */
  const Rules: seq<Rule<Option<string>>> := [
    Rule(["fed cuts", "fed rate"], Some(FedCutsKey)),
    Rule(["mispriced", "opportunity"], Some(MispricedKey)),
    Rule(["regime", "current"], Some(RegimeKey)),
    Rule(["energy", "oil"], Some(EnergyKey))
  ]

  /** The if-chain is the first-match router over the table. */
  lemma SelectKeyIsFirstMatch(normalized: string)
    ensures SelectKey(normalized) == Route(normalized, Rules, None)
  {
    var n := normalized;
    var r0, r1 := Rule(["fed cuts", "fed rate"], Some(FedCutsKey)), Rule(["mispriced", "opportunity"], Some(MispricedKey));
    var r2, r3 := Rule(["regime", "current"], Some(RegimeKey)), Rule(["energy", "oil"], Some(EnergyKey));
    assert Rules == [r0, r1, r2] + [r3];
    RoutePrefix(n, r0, r1, r2, [r3], None);
    RouteOne(n, r3, None);
    AnyOfTwo(n, "fed cuts", "fed rate");
    AnyOfTwo(n, "mispriced", "opportunity");
    AnyOfTwo(n, "regime", "current");
    AnyOfTwo(n, "energy", "oil");
  }

  /** The answer chosen for a message. */
  function Select(message: string): (r: ChatResponse)
    ensures SelectKey(Lower(message)) == None ==> r == DefaultResponse
    ensures SelectKey(Lower(message)).Some? ==> r == Responses[SelectKey(Lower(message)).value]
  {
    match SelectKey(Lower(message))
    case None => DefaultResponse
    case Some(key) => Responses[key]
  }

  /** Matching ignores case: a message and its lowercase form get the
      same answer. */
  lemma SelectIgnoresCase(message: string)
    ensures Select(Lower(message)) == Select(message)
  {
    LowerIdempotent(message);
  }

  /** What the endpoint returns: the selected answer stamped with the
      time, or an error status with its error text. */
  datatype Outcome =
    | Answered(response: ChatResponse, timestamp: string)
    | Failed(status: int, error: string, timestamp: string)

  /** POST. The request time is a parameter. */
  function Post(body: Body<Field>, now: string): (r: Outcome)
    ensures r.Failed? && r.status == 500 <==> body.Malformed?
    ensures r.Failed? && r.status == 400 <==> body.Parsed? && !NonEmptyString(body.fields)
    ensures r.Answered? ==> body.Parsed? && body.fields.Str?
                            && r == Answered(Select(body.fields.s), now)
    ensures body.Parsed? && NonEmptyString(body.fields) ==> r == Answered(Select(body.fields.s), now)
    ensures r.Failed? ==> r.timestamp == now
  {
    match body
    case Malformed => Failed(500, "Failed to process chat message", now)
    case Parsed(message) =>
      if !Truthy(message) || !message.Str? then Failed(400, "Invalid message", now)
      else Answered(Select(message.s), now)
  }

  /** A message whose lowercase form n contains a keyword of some group,
      and none of any earlier group, gets that group's answer; one that
      contains no keyword at all gets the default. */
  lemma SelectsGroup(message: string, n: string)
    requires Lower(message) == n
    ensures (Contains(n, "fed cuts") || Contains(n, "fed rate")) ==> Select(message) == Responses[FedCutsKey]
    ensures (!Contains(n, "fed cuts") && !Contains(n, "fed rate")
             && (Contains(n, "mispriced") || Contains(n, "opportunity")))
              ==> Select(message) == Responses[MispricedKey]
    ensures (!Contains(n, "fed cuts") && !Contains(n, "fed rate") && !Contains(n, "mispriced")
             && !Contains(n, "opportunity") && (Contains(n, "regime") || Contains(n, "current")))
              ==> Select(message) == Responses[RegimeKey]
    ensures (!Contains(n, "fed cuts") && !Contains(n, "fed rate") && !Contains(n, "mispriced")
             && !Contains(n, "opportunity") && !Contains(n, "regime") && !Contains(n, "current")
             && (Contains(n, "energy") || Contains(n, "oil")))
              ==> Select(message) == Responses[EnergyKey]
    ensures (!Contains(n, "fed cuts") && !Contains(n, "fed rate") && !Contains(n, "mispriced")
             && !Contains(n, "opportunity") && !Contains(n, "regime") && !Contains(n, "current")
             && !Contains(n, "energy") && !Contains(n, "oil"))
              ==> Select(message) == DefaultResponse
  {
  }

  lemma CurrentOilWords(n: string)
    requires n == "current oil"
    ensures n == "" + "current" + " oil"
  {
  }

  lemma CurrentOilLower(n: string)
    requires n == "current oil"
    ensures Lower(n) == n
  {
    CurrentOilWords(n);
    LowerAppend3("", "current", " oil");
    LowerNoUpper("");
    LowerNoUpper("current");
    LowerNoUpper(" oil");
  }

  /** "current oil" has no 'f', 'm' or 'p'. */
  lemma CurrentOilLetters(n: string)
    requires n == "current oil"
    ensures 'f' !in n && 'm' !in n && 'p' !in n
  {
    CurrentOilWords(n);
    AbsentFromWords('f', "", "current", " oil");
    AbsentFromWords('m', "", "current", " oil");
    AbsentFromWords('p', "", "current", " oil");
  }

  lemma CurrentOilNoFed(n: string)
    requires n == "current oil"
    ensures !Contains(n, "fed cuts") && !Contains(n, "fed rate")
  {
    CurrentOilLetters(n);
    AbsentChar(n, "fed cuts", 0);
    AbsentChar(n, "fed rate", 0);
  }

  lemma CurrentOilNoMispriced(n: string)
    requires n == "current oil"
    ensures !Contains(n, "mispriced") && !Contains(n, "opportunity")
  {
    CurrentOilLetters(n);
    AbsentChar(n, "mispriced", 0);
    AbsentChar(n, "opportunity", 1);
  }

  lemma CurrentOilHasCurrent(n: string)
    requires n == "current oil"
    ensures Contains(n, "current")
  {
    CurrentOilWords(n);
    OccursBetween("", "current", " oil");
  }

  /** The first match wins: "current oil" names both the regime group and
      the energy group, and gets the regime answer. */
  lemma CurrentOilSelectsRegime()
    ensures Select("current oil") == Responses[RegimeKey]
  {
    CurrentOilLower("current oil");
    CurrentOilNoFed("current oil");
    CurrentOilNoMispriced("current oil");
    CurrentOilHasCurrent("current oil");
    SelectsGroup("current oil", "current oil");
  }

  // The four quick prompts of the chat panel (ChatAgent.tsx); the facts
  // about their literals are in module QuickPrompts.

  /** The first quick prompt gets the Fed-cuts answer. */
  lemma FedPromptSelectsFedCuts()
    ensures Select("Probability Fed cuts by 2026-03-31") == Responses[FedCutsKey]
  {
    FedPromptLower();
    FedPromptHasFedCuts("probability fed cuts by 2026-03-31");
    SelectsGroup("Probability Fed cuts by 2026-03-31", "probability fed cuts by 2026-03-31");
  }

  /** The second quick prompt gets the mispriced-markets answer. */
  lemma MispricedPromptSelectsMispriced()
    ensures Select("Find mispriced markets") == Responses[MispricedKey]
  {
    MispricedPromptLower();
    MispricedPromptNoFed("find mispriced markets");
    MispricedPromptHasMispriced("find mispriced markets");
    SelectsGroup("Find mispriced markets", "find mispriced markets");
  }

  /** The third quick prompt gets the current-regime answer. */
  lemma RegimePromptSelectsRegime()
    ensures Select("Current regime status") == Responses[RegimeKey]
  {
    RegimePromptLower();
    RegimePromptNoFed("current regime status");
    RegimePromptNoMispriced("current regime status");
    RegimePromptHasRegime("current regime status");
    SelectsGroup("Current regime status", "current regime status");
  }

  /** The fourth quick prompt gets the energy-shock answer. */
  lemma EnergyPromptSelectsEnergy()
    ensures Select("Energy shock analysis") == Responses[EnergyKey]
  {
    EnergyPromptLower();
    EnergyPromptNoFed("energy shock analysis");
    EnergyPromptNoMispriced("energy shock analysis");
    EnergyPromptNoRegime("energy shock analysis");
    EnergyPromptHasEnergy("energy shock analysis");
    SelectsGroup("Energy shock analysis", "energy shock analysis");
  }
}
