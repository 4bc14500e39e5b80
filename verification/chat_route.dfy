/**
  `POST /api/chat` (app/api/chat/route.ts): a canned reply chosen by keyword
  on the lowercased message, plus an artifact for pricing questions.

  The simulated one-second delay is left out. The three clock reads the
  handler makes (`Date.now()` for the artifact id and two `new Date()` for
  its timestamps) are supplied by the caller as a `ChatClock`.
 */
module ChatRoute {
  import opened Wrappers
  import opened Text
  import opened Types
  import opened Json

  /* ---------------- the canned texts ---------------- */

  const PricingReply: string :=
    "Based on \"The Strategy and Tactics of Pricing\", I recommend starting with value-based pricing. Here are the key steps:\n\n"
    + "1. Identify your customer segments and their willingness to pay\n"
    + "2. Quantify the economic value you deliver to each segment\n"
    + "3. Set prices that capture a fair share of that value\n"
    + "4. Communicate the value proposition clearly\n\n"
    + "Would you like me to create a detailed pricing analysis for your specific situation?"

  const ElasticityReply: string :=
    "Price elasticity measures how demand changes when you adjust prices. For strategic pricing:\n\n"
    + "- Elastic demand (>1): Small price changes cause large demand shifts\n"
    + "- Inelastic demand (<1): Demand is relatively stable despite price changes\n"
    + "- Understanding your elasticity helps optimize pricing for maximum profitability\n\n"
    + "I can analyze your data to determine your price elasticity. Do you have sales and pricing data to upload?"

  const CompetitionReply: string :=
    "For competitive pricing strategy, consider:\n\n"
    + "1. Value differentiation - Don't compete on price alone\n"
    + "2. Strategic positioning - Where do you want to be in the market?\n"
    + "3. Competitive response - Anticipate how competitors will react\n"
    + "4. Customer perception - Price signals quality and value\n\n"
    + "Would you like me to create a competitive pricing matrix?"

  const GeneralReply: string :=
    "I'm here to help with your pricing strategy questions. I can assist with:\n\n"
    + "- Value-based pricing methodology\n"
    + "- Price elasticity analysis\n"
    + "- Competitive pricing strategies\n"
    + "- Customer segmentation\n"
    + "- Pricing optimization\n"
    + "- Data analysis and visualization\n\n"
    + "What aspect of pricing strategy would you like to explore?"

  const ChatFailureText: string := "Failed to process message"

  /* ---------------- keyword dispatch ---------------- */

  /** Which of the four canned answers a message gets. */
  datatype Topic = PricingTopic | ElasticityTopic | CompetitionTopic | GeneralTopic

  /** `message.toLowerCase().includes(k)`. */
  function LowerIncludes(message: string, k: string): bool {
    Includes(Lower(message), k)
  }

  /** The first-match-wins dispatch: `price`/`pricing`, then `elasticity`,
      then `competition`, else the general answer. */
  function Classify(message: string): Topic {
    if LowerIncludes(message, "price") || LowerIncludes(message, "pricing") then PricingTopic
    else if LowerIncludes(message, "elasticity") then ElasticityTopic
    else if LowerIncludes(message, "competition") then CompetitionTopic
    else GeneralTopic
  }

  /** What the dispatch means: each topic is characterised by which keywords
      the message mentions, letter case aside, a later keyword counting only
      when no earlier one is mentioned. */
  lemma ClassifyMeaning(message: string)
    ensures Classify(message) == PricingTopic <==>
      OccursIgnoringCase(message, "price") || OccursIgnoringCase(message, "pricing")
    ensures Classify(message) == ElasticityTopic <==>
      !OccursIgnoringCase(message, "price") && !OccursIgnoringCase(message, "pricing")
      && OccursIgnoringCase(message, "elasticity")
    ensures Classify(message) == CompetitionTopic <==>
      !OccursIgnoringCase(message, "price") && !OccursIgnoringCase(message, "pricing")
      && !OccursIgnoringCase(message, "elasticity") && OccursIgnoringCase(message, "competition")
    ensures Classify(message) == GeneralTopic <==>
      !OccursIgnoringCase(message, "price") && !OccursIgnoringCase(message, "pricing")
      && !OccursIgnoringCase(message, "elasticity") && !OccursIgnoringCase(message, "competition")
  {
    IncludesLowerIsCaseInsensitive(message, "price");
    IncludesLowerIsCaseInsensitive(message, "pricing");
    IncludesLowerIsCaseInsensitive(message, "elasticity");
    IncludesLowerIsCaseInsensitive(message, "competition");
  }

  function ReplyText(t: Topic): string {
    match t
    case PricingTopic => PricingReply
    case ElasticityTopic => ElasticityReply
    case CompetitionTopic => CompetitionReply
    case GeneralTopic => GeneralReply
  }

  /* ---------------- the handler ---------------- */

  /** The three clock reads the handler makes. */
  datatype ChatClock = ChatClock(nowMillis: nat, createdAt: Time, updatedAt: Time)

  predicate IsDigit(c: char) {
    '0' <= c <= '9'
  }

  /** The number a string of decimal digits spells, most significant first. */
  ghost function DigitsValue(d: string): nat
    requires forall i :: 0 <= i < |d| ==> IsDigit(d[i])
  {
    if d == [] then 0
    else
      assert IsDigit(d[|d| - 1]);
      DigitsValue(d[..|d| - 1]) * 10 + (d[|d| - 1] as int - '0' as int)
  }

  /** `${n}` for a natural number: its decimal digits, most significant
      first, without leading zeros, spelling `n`. */
  function Decimal(n: nat): (d: string)
    ensures |d| > 0
    ensures forall i :: 0 <= i < |d| ==> IsDigit(d[i])
    ensures DigitsValue(d) == n
    ensures |d| > 1 ==> d[0] != '0'
    ensures n > 0 ==> d[0] != '0'
  {
    if n < 10 then
      var d := ["0123456789"[n]];
      assert d[..0] == [];
      d
    else
      var p := Decimal(n / 10);
      var d := p + ["0123456789"[n % 10]];
      assert d[..|d| - 1] == p;
      d
  }

  /** Different clock readings give different artifact ids. */
  lemma DecimalInjective(a: nat, b: nat)
    requires Decimal(a) == Decimal(b)
    ensures a == b
  {
  }

  /** The artifact built for a pricing question. */
  function PricingArtifact(clock: ChatClock): Artifact {
    Artifact(
      "artifact-" + Decimal(clock.nowMillis),
      PricingAnalysis,
      "Pricing Strategy Framework",
      Some("Value-based pricing methodology overview"),
      EmptyObject,
      clock.createdAt,
      clock.updatedAt)
  }

  /** The JSON the handler answers with: `{message, artifact, success: true}`
      with status 200, or `{error, success: false}` with status 500. A
      normal answer records the topic; its `message` is `ReplyText(topic)`. */
  datatype ChatResponse =
    | ChatOk(topic: Topic, artifact: Option<Artifact>)
    | ChatFailed(status: nat, error: string)
  {
    function Status(): nat {
      if ChatOk? then 200 else status
    }

    predicate Success() {
      ChatOk?
    }
  }

  /** The message the handler can work with: only a string has
      `toLowerCase`, so anything else (missing, `null`, a number, ...) makes
      the handler throw. */
  predicate HasTextMessage(body: Body) {
    body.Fields? && Get(body.fields, "message").Str?
  }

  /** `POST /api/chat`. Unparsable JSON, a `null` body and a message that is
      not a string all end in the 500 answer; otherwise the reply text is the
      one for the message's topic, and only a pricing question carries an
      artifact, of type `pricing-analysis` with an empty payload. */
  function HandleChat(body: Body, clock: ChatClock): (r: ChatResponse)
    ensures r.Success() <==> HasTextMessage(body)
    ensures !r.Success() ==> r.Status() == 500 && r.error == ChatFailureText
    ensures r.Success() ==> r.Status() == 200
    ensures r.Success() ==>
      var message := Get(body.fields, "message").s;
      && r.topic == Classify(message)
      && (r.artifact.Some? <==> Classify(message) == PricingTopic)
    ensures r.Success() && r.artifact.Some? ==>
      && r.artifact.value.id == "artifact-" + Decimal(clock.nowMillis)
      && r.artifact.value.kind == PricingAnalysis
      && r.artifact.value.title == "Pricing Strategy Framework"
      && r.artifact.value.description == Some("Value-based pricing methodology overview")
      && r.artifact.value.data == EmptyObject
      && r.artifact.value.createdAt == clock.createdAt
      && r.artifact.value.updatedAt == clock.updatedAt
  {
    if !HasTextMessage(body) then
      ChatFailed(500, ChatFailureText)
    else
      var topic := Classify(Get(body.fields, "message").s);
      ChatOk(topic, if topic == PricingTopic then Some(PricingArtifact(clock)) else None)
  }

  /* ---------------- properties ---------------- */

  /** Every canned reply is non-empty, so a normal answer always carries a
      non-empty `message`. */
  lemma ReplyTextNonEmpty(t: Topic)
    ensures |ReplyText(t)| > 0
  {
    match t
    case PricingTopic => assert |PricingReply| > 0;
    case ElasticityTopic => assert |ElasticityReply| > 0;
    case CompetitionTopic => assert |CompetitionReply| > 0;
    case GeneralTopic => assert |GeneralReply| > 0;
  }

  /** The answer depends on the `message` field alone: the `files` field and
      any other field are never read. */
  lemma ReplyDependsOnlyOnMessage(f1: map<string, JsValue>, f2: map<string, JsValue>, clock: ChatClock)
    requires Get(f1, "message") == Get(f2, "message")
    ensures HandleChat(Fields(f1), clock) == HandleChat(Fields(f2), clock)
  {
  }

  /** Matching ignores letter case: two messages that agree once lowercased
      get the same answer. */
  lemma ClassifyIgnoresCase(m1: string, m2: string)
    requires Lower(m1) == Lower(m2)
    ensures Classify(m1) == Classify(m2)
  {
  }

  function MessageBody(message: string): Body {
    Fields(map["message" := Str(message)])
  }

  /** A pricing keyword wins over every later one: "price elasticity" is a
      pricing question ... */
  lemma PriceBeatsElasticity()
    ensures Classify("price elasticity") == PricingTopic
  {
    assert MatchesIgnoringCaseAt("price elasticity", "price", 0);
    ClassifyMeaning("price elasticity");
  }

  /** ... and so carries the artifact. */
  lemma PriceElasticityAnswer(clock: ChatClock)
    ensures HandleChat(MessageBody("price elasticity"), clock) == ChatOk(PricingTopic, Some(PricingArtifact(clock)))
  {
    PriceBeatsElasticity();
  }

  /** "What price should I charge?" is a pricing question ... */
  lemma PricingQuestionTopic()
    ensures Classify("What price should I charge?") == PricingTopic
  {
    assert MatchesIgnoringCaseAt("What price should I charge?", "price", 5);
    ClassifyMeaning("What price should I charge?");
  }

  /** ... so it gets the value-based pricing answer and a pricing-analysis
      artifact. */
  lemma PricingQuestionExample(clock: ChatClock)
    ensures HandleChat(MessageBody("What price should I charge?"), clock) == ChatOk(PricingTopic, Some(PricingArtifact(clock)))
  {
    PricingQuestionTopic();
  }

  /** The match is case-blind: "PRICING" is a pricing question. */
  lemma UpperCaseExample()
    ensures Classify("PRICING") == PricingTopic
  {
    assert MatchesIgnoringCaseAt("PRICING", "pricing", 0);
    ClassifyMeaning("PRICING");
  }

  /** "Tell me about elasticity" is an elasticity question ... */
  lemma ElasticityQuestionTopic()
    ensures Classify("Tell me about elasticity") == ElasticityTopic
  {
    AbsentLetterRulesOut("Tell me about elasticity", "price", 0);
    AbsentLetterRulesOut("Tell me about elasticity", "pricing", 0);
    assert MatchesIgnoringCaseAt("Tell me about elasticity", "elasticity", 14);
    ClassifyMeaning("Tell me about elasticity");
  }

  /** ... so it gets the elasticity answer and no artifact. */
  lemma ElasticityQuestionExample(clock: ChatClock)
    ensures HandleChat(MessageBody("Tell me about elasticity"), clock) == ChatOk(ElasticityTopic, None)
  {
    ElasticityQuestionTopic();
  }

  /** A message with no keyword is a general question ... */
  lemma GeneralTopicExample()
    ensures Classify("Hello") == GeneralTopic
  {
    AbsentLetterRulesOut("Hello", "price", 0);
    AbsentLetterRulesOut("Hello", "pricing", 0);
    AbsentLetterRulesOut("Hello", "elasticity", 2);
    AbsentLetterRulesOut("Hello", "competition", 0);
    ClassifyMeaning("Hello");
  }

  /** ... and gets the general answer and no artifact. */
  lemma GeneralExample(clock: ChatClock)
    ensures HandleChat(MessageBody("Hello"), clock) == ChatOk(GeneralTopic, None)
  {
    GeneralTopicExample();
  }

  /** A body without a string message gets the 500 answer. */
  lemma FailureExamples(clock: ChatClock)
    ensures HandleChat(Fields(map[]), clock) == ChatFailed(500, ChatFailureText)
    ensures HandleChat(Fields(map["message" := Num(3.0)]), clock) == ChatFailed(500, ChatFailureText)
    ensures HandleChat(NullBody, clock) == ChatFailed(500, ChatFailureText)
    ensures HandleChat(Unparsable, clock) == ChatFailed(500, ChatFailureText)
  {
  }
}
