/** The business-plan prompt: the context read from the questionnaire
    answers, the value lines of the generation prompt, and the twelve section
    keys of the plan. */
module BusinessPlanPrompt {
  import opened Wrappers
  import opened Strings
  import opened QuestionnaireTypes
  import opened PromptLines

  /** A property of the business-plan context, as its position in the
      context record: the properties are numbered 0 to 34 in declaration
      order, and the prompt lists their value lines in the same order. */
  newtype Prop = i: int | 0 <= i < 35

  const BusinessName: Prop := 0
  const OneLiner: Prop := 1
  const VisionStatement: Prop := 2
  const BusinessStage: Prop := 3
  const Industry: Prop := 4
  const IndustryOther: Prop := 5
  const Problem: Prop := 6
  const ProblemSeverity: Prop := 7
  const CurrentAlternatives: Prop := 8
  const Solution: Prop := 9
  const UniqueValue: Prop := 10
  const KeyDifferentiators: Prop := 11
  const TargetCustomer: Prop := 12
  const CustomerSegments: Prop := 13
  const TamSamSom: Prop := 14
  const MarketTrends: Prop := 15
  const CustomerAcquisition: Prop := 16
  const CacEstimate: Prop := 17
  const RevenueModel: Prop := 18
  const PricingStrategy: Prop := 19
  const LtvEstimate: Prop := 20
  const GrossMargin: Prop := 21
  const RevenueGoal12m: Prop := 22
  const RevenueGoal36m: Prop := 23
  const PathToProfitability: Prop := 24
  const Competitors: Prop := 25
  const CompetitivePositioning: Prop := 26
  const Moat: Prop := 27
  const GoToMarket: Prop := 28
  const FoundingTeam: Prop := 29
  const TeamSize: Prop := 30
  const KeyHires: Prop := 31
  const FundingStatus: Prop := 32
  const FundingNeeds: Prop := 33
  const BiggestChallenges: Prop := 34

  const Empty: Default := Fallback(Str(""))
  const NoItems: Default := Fallback(StrList([]))

  /** The answer each property is read from and its default. */
  function Source(p: Prop): ContextSource {
    if p == BusinessName then ContextSource("business_name", Fallback(Str("Unnamed Company")))
    else if p == OneLiner then ContextSource("one_liner", Empty)
    else if p == VisionStatement then ContextSource("vision_statement", Empty)
    else if p == BusinessStage then ContextSource("business_stage", Empty)
    else if p == Industry then ContextSource("industry", Empty)
    else if p == IndustryOther then ContextSource("industry_other", PassThrough)
    else if p == Problem then ContextSource("problem", Empty)
    else if p == ProblemSeverity then ContextSource("problem_severity", Empty)
    else if p == CurrentAlternatives then ContextSource("current_alternatives", Empty)
    else if p == Solution then ContextSource("solution", Empty)
    else if p == UniqueValue then ContextSource("unique_value", Empty)
    else if p == KeyDifferentiators then ContextSource("key_differentiators", NoItems)
    else if p == TargetCustomer then ContextSource("target_customer", Empty)
    else if p == CustomerSegments then ContextSource("customer_segments", Empty)
    else if p == TamSamSom then ContextSource("tam_sam_som", Empty)
    else if p == MarketTrends then ContextSource("market_trends", Empty)
    else if p == CustomerAcquisition then ContextSource("customer_acquisition", NoItems)
    else if p == CacEstimate then ContextSource("cac_estimate", PassThrough)
    else if p == RevenueModel then ContextSource("revenue_model", Empty)
    else if p == PricingStrategy then ContextSource("pricing_strategy", Empty)
    else if p == LtvEstimate then ContextSource("ltv_estimate", PassThrough)
    else if p == GrossMargin then ContextSource("gross_margin", Empty)
    else if p == RevenueGoal12m then ContextSource("revenue_goal_12m", Empty)
    else if p == RevenueGoal36m then ContextSource("revenue_goal_36m", Empty)
    else if p == PathToProfitability then ContextSource("path_to_profitability", Empty)
    else if p == Competitors then ContextSource("competitors", Empty)
    else if p == CompetitivePositioning then ContextSource("competitive_positioning", Empty)
    else if p == Moat then ContextSource("moat", NoItems)
    else if p == GoToMarket then ContextSource("go_to_market", Empty)
    else if p == FoundingTeam then ContextSource("founding_team", Empty)
    else if p == TeamSize then ContextSource("team_size", Empty)
    else if p == KeyHires then ContextSource("key_hires", PassThrough)
    else if p == FundingStatus then ContextSource("funding_status", Empty)
    else if p == FundingNeeds then ContextSource("funding_needs", PassThrough)
    else ContextSource("biggest_challenges", Empty)
  }

  /** The optional properties, passed through and possibly undefined. */
  predicate Optional(p: Prop) {
    p == IndustryOther || p == CacEstimate || p == LtvEstimate || p == KeyHires || p == FundingNeeds
  }

  /** The list-valued properties, joined with `', '` in the prompt. */
  predicate ListValued(p: Prop) {
    p == KeyDifferentiators || p == CustomerAcquisition || p == Moat
  }

  /** The defaults as a table: the company name falls back to `'Unnamed
      Company'`, the three lists to `[]`, the five optional properties pass
      through, and every other property falls back to `''`. */
  lemma SourceDefaults(p: Prop)
    ensures p == BusinessName ==> Source(p).default == Fallback(Str("Unnamed Company"))
    ensures ListValued(p) ==> Source(p).default == Fallback(StrList([]))
    ensures Source(p).default.PassThrough? <==> Optional(p)
    ensures p != BusinessName && !ListValued(p) && !Optional(p) ==> Source(p).default == Fallback(Str(""))
  {
  }

  type Context = Prop -> Option<Answer>

  /** `mapResponsesToBusinessPlanContext`: a truthy answer is taken as
      given, an optional property passes its answer through, and a falsy or
      missing answer otherwise gives `'Unnamed Company'` for the company
      name, `[]` for a list and `''` for the rest. */
  function MapResponsesToContext(answers: Responses): (ctx: Context)
    ensures forall p :: TruthyOpt(Lookup(answers, Source(p).key)) ==> ctx(p) == Some(answers[Source(p).key])
    ensures forall p :: Optional(p) ==> ctx(p) == Lookup(answers, Source(p).key)
    ensures !TruthyOpt(Lookup(answers, "business_name")) ==> ctx(BusinessName) == Some(Str("Unnamed Company"))
    ensures forall p :: ListValued(p) && !TruthyOpt(Lookup(answers, Source(p).key)) ==> ctx(p) == Some(StrList([]))
    ensures forall p :: p != BusinessName && !ListValued(p) && !Optional(p) && !TruthyOpt(Lookup(answers, Source(p).key)) ==>
              ctx(p) == Some(Str(""))
  {
    p => Resolve(answers, Source(p))
  }

  /** Only an optional property can be undefined, the company name is
      always truthy, and an unanswered list property is the empty list. */
  lemma ContextDefined(answers: Responses, p: Prop)
    ensures !Optional(p) ==> MapResponsesToContext(answers)(p).Some?
    ensures Truthy(MapResponsesToContext(answers)(BusinessName).value)
    ensures ListValued(p) && !TruthyOpt(Lookup(answers, Source(p).key)) ==>
              MapResponsesToContext(answers)(p) == Some(StrList([]))
  {
    SourceDefaults(p);
  }

  /** A context built from the answers always renders: the three lists hold
      a list whenever the answers do not hold something else under their
      keys. */
  lemma MappedContextRenders(answers: Responses, num: real -> string)
    requires forall p :: ListValued(p) && TruthyOpt(Lookup(answers, Source(p).key)) ==>
               answers[Source(p).key].StrList?
    ensures BuildPrompt(MapResponsesToContext(answers), num).Success?
  {
    forall p | ListValued(p)
      ensures MapResponsesToContext(answers)(p).Some? && MapResponsesToContext(answers)(p).value.StrList?
    {
      ContextDefined(answers, p);
    }
  }

  /** The industry shown: the free-text answer when `'other'` was chosen. */
  function IndustryShown(ctx: Context): (v: Option<Answer>)
    ensures ctx(Industry) == Some(Str("other")) ==> v == ctx(IndustryOther)
    ensures ctx(Industry) != Some(Str("other")) ==> v == ctx(Industry)
  {
    if ctx(Industry) == Some(Str("other")) then ctx(IndustryOther) else ctx(Industry)
  }

  // ------------------------------------------------------------- the prompt

  /** The value lines of `buildBusinessPlanPrompt` in template order, one
      function per heading. */
  function Company(): seq<Slot<Prop>> {
    [Title("COMPANY INFORMATION"),
     Always(BusinessName), Always(OneLiner), Always(VisionStatement), Always(BusinessStage),
     Always(Industry)]
  }
  function ProblemSolution(): seq<Slot<Prop>> {
    [Title("PROBLEM & SOLUTION"),
     Always(Problem), Always(ProblemSeverity), Always(CurrentAlternatives), Always(Solution),
     Always(UniqueValue), Always(KeyDifferentiators)]
  }
  function MarketCustomer(): seq<Slot<Prop>> {
    [Title("MARKET & CUSTOMER"),
     Always(TargetCustomer), Always(CustomerSegments), Always(TamSamSom), Always(MarketTrends),
     Always(CustomerAcquisition), WhenTruthy(CacEstimate)]
  }
  function Model(): seq<Slot<Prop>> {
    [Title("BUSINESS MODEL"),
     Always(RevenueModel), Always(PricingStrategy), WhenTruthy(LtvEstimate), Always(GrossMargin),
     Always(RevenueGoal12m), Always(RevenueGoal36m), Always(PathToProfitability)]
  }
  function Competition(): seq<Slot<Prop>> {
    [Title("COMPETITION & STRATEGY"),
     Always(Competitors), Always(CompetitivePositioning), Always(Moat), Always(GoToMarket)]
  }
  function TeamFunding(): seq<Slot<Prop>> {
    [Title("TEAM & FUNDING"),
     Always(FoundingTeam), Always(TeamSize), WhenTruthy(KeyHires), Always(FundingStatus),
     WhenTruthy(FundingNeeds), Always(BiggestChallenges)]
  }
  /** The JSON object requested, then the values the closing instructions
      tailor the advice to. */
  function Closing(): seq<Slot<Prop>> {
    [Keys(SchemaKeyList()),
     Again(BusinessStage), Again(FundingStatus), Again(RevenueGoal12m), Again(TeamSize)]
  }

  /** Everything after the company information. */
  const Body: seq<Slot<Prop>> :=
    ProblemSolution() + (MarketCustomer() + (Model() + (Competition() + (TeamFunding() + Closing()))))
  const Template: seq<Slot<Prop>> := Company() + Body

  /** The keys of the JSON object the prompt asks for, in the prompt's
      order. */
  function SchemaKeyList(): seq<SectionKey> {
    [ExecutiveSummary, MarketOpportunity, ProblemAnalysis, SolutionValueProp, BusinessModel,
     GoToMarketSection, CompetitiveAnalysis, TractionMilestones, FinancialProjections,
     TeamSection, RisksMitigation, ActionPlan]
  }

  /** The text interpolated for each property, given the three joined lists. */
  function Text(ctx: Context, num: real -> string, differentiators: string, channels: string, moat: string): Prop -> string {
    (p: Prop) =>
      if p == Industry then Display(IndustryShown(ctx), num)
      else if p == KeyDifferentiators then differentiators
      else if p == CustomerAcquisition then channels
      else if p == Moat then moat
      else Display(ctx(p), num)
  }

  /** `buildBusinessPlanPrompt`: the template filled in from the context, or
      the `TypeError` thrown when a list property holds something other than
      a list. */
  function BuildPrompt(ctx: Context, num: real -> string): (r: Result<seq<Line<Prop>>, string>)
    ensures r.Success? <==> forall p :: ListValued(p) ==> ctx(p).Some? && ctx(p).value.StrList?
    ensures r.Success? ==> |r.value| == |Template|
  {
    var differentiators :- JoinList(ctx(KeyDifferentiators));
    var channels :- JoinList(ctx(CustomerAcquisition));
    var moat :- JoinList(ctx(Moat));
    Success(Render(Template, ctx, Text(ctx, num, differentiators, channels, moat)))
  }

  /** The text function `BuildPrompt` renders with, when it succeeds. */
  function SuccessText(ctx: Context, num: real -> string): Prop -> string
    requires BuildPrompt(ctx, num).Success?
  {
    Text(ctx, num, JoinList(ctx(KeyDifferentiators)).value,
         JoinList(ctx(CustomerAcquisition)).value, JoinList(ctx(Moat)).value)
  }

  /** A successful prompt is the template rendered with `SuccessText`. */
  lemma PromptRendered(ctx: Context, num: real -> string)
    requires BuildPrompt(ctx, num).Success?
    ensures BuildPrompt(ctx, num).value == Render(Template, ctx, SuccessText(ctx, num))
  {
  }

  // ------------------------------------------------------------- template facts

  /** The rank the template's value lines ascend in: the property's position. */
  function Rank(p: Prop): int {
    p as int
  }

  /** The expected slot of a property: conditional for the four optional
      estimates, none for `industryOther`, unconditional otherwise. */
  function ExpectedSlot(p: Prop): Option<Slot<Prop>> {
    if p == IndustryOther then None
    else if Optional(p) then Some(WhenTruthy(p))
    else Some(Always(p))
  }

  // Each heading's lines ascend in rank from the last line before it.
  lemma CompanyAscends()
    ensures Ascends(Company(), Rank, -1, 4)
  {
  }

  lemma ProblemSolutionAscends()
    ensures Ascends(ProblemSolution(), Rank, 5, 11)
  {
  }

  lemma MarketCustomerAscends()
    ensures Ascends(MarketCustomer(), Rank, 11, 17)
  {
  }

  lemma ModelAscends()
    ensures Ascends(Model(), Rank, 17, 24)
  {
  }

  lemma CompetitionAscends()
    ensures Ascends(Competition(), Rank, 24, 28)
  {
  }

  lemma TeamFundingAscends()
    ensures Ascends(TeamFunding(), Rank, 28, 34)
  {
  }

  lemma ClosingUnlabelled()
    ensures Ascends(Closing(), Rank, 34, 34)
  {
  }

  /** Past the company information, every line is ranked above
      `industryOther`, whose rank is 5. */
  lemma BodyAscends()
    ensures Ascends(Body, Rank, 5, 34)
  {
    ProblemSolutionAscends();
    MarketCustomerAscends();
    ModelAscends();
    CompetitionAscends();
    TeamFundingAscends();
    ClosingUnlabelled();
    AscendsConcat6(ProblemSolution(), MarketCustomer(), Model(), Competition(), TeamFunding(), Closing(),
                   Rank, 5, 11, 17, 24, 28, 34, 34);
  }

  /** The whole template ascends, so no property has two lines, and
      `industryOther` has none. */
  lemma TemplateAscends()
    ensures Ascends(Template, Rank, -1, 34)
    ensures Occurrences(Template, IndustryOther) == 0
  {
    CompanyAscends();
    BodyAscends();
    AscendsWeaken(Body, Rank, 4, 5, 34);
    AscendsConcat(Company(), Body, Rank, -1, 4, 34);
    AscendingAtMostOnce(Body, Rank, 5, 34, IndustryOther);
    OccurrencesConcat(Company(), Body, IndustryOther);
  }

  // Each heading holds the expected slots of its properties.

  lemma CompanyLabels(p: Prop)
    requires p in [BusinessName, OneLiner, VisionStatement, BusinessStage, Industry]
    ensures ExpectedSlot(p).Some? && ExpectedSlot(p).value in Company()
  {
  }

  lemma ProblemSolutionLabels(p: Prop)
    requires p in [Problem, ProblemSeverity, CurrentAlternatives, Solution, UniqueValue, KeyDifferentiators]
    ensures ExpectedSlot(p).Some? && ExpectedSlot(p).value in ProblemSolution()
  {
  }

  lemma MarketCustomerLabels(p: Prop)
    requires p in [TargetCustomer, CustomerSegments, TamSamSom, MarketTrends, CustomerAcquisition, CacEstimate]
    ensures ExpectedSlot(p).Some? && ExpectedSlot(p).value in MarketCustomer()
  {
  }

  lemma ModelLabels(p: Prop)
    requires p in [RevenueModel, PricingStrategy, LtvEstimate, GrossMargin, RevenueGoal12m, RevenueGoal36m, PathToProfitability]
    ensures ExpectedSlot(p).Some? && ExpectedSlot(p).value in Model()
  {
  }

  lemma CompetitionLabels(p: Prop)
    requires p in [Competitors, CompetitivePositioning, Moat, GoToMarket]
    ensures ExpectedSlot(p).Some? && ExpectedSlot(p).value in Competition()
  {
  }

  lemma TeamFundingLabels(p: Prop)
    requires p in [FoundingTeam, TeamSize, KeyHires, FundingStatus, FundingNeeds, BiggestChallenges]
    ensures ExpectedSlot(p).Some? && ExpectedSlot(p).value in TeamFunding()
  {
  }

  /** Every property but `industryOther` has its expected slot somewhere in
      the template. */
  lemma ExpectedSlotPresent(p: Prop)
    requires p != IndustryOther
    ensures ExpectedSlot(p).Some? && ExpectedSlot(p).value in Template
  {
    if p in [BusinessName, OneLiner, VisionStatement, BusinessStage, Industry] {
      CompanyLabels(p);
    } else if p in [Problem, ProblemSeverity, CurrentAlternatives, Solution, UniqueValue, KeyDifferentiators] {
      ProblemSolutionLabels(p);
    } else if p in [TargetCustomer, CustomerSegments, TamSamSom, MarketTrends, CustomerAcquisition, CacEstimate] {
      MarketCustomerLabels(p);
    } else if p in [RevenueModel, PricingStrategy, LtvEstimate, GrossMargin, RevenueGoal12m, RevenueGoal36m, PathToProfitability] {
      ModelLabels(p);
    } else if p in [Competitors, CompetitivePositioning, Moat, GoToMarket] {
      CompetitionLabels(p);
    } else if p in [FoundingTeam, TeamSize, KeyHires, FundingStatus, FundingNeeds, BiggestChallenges] {
      TeamFundingLabels(p);
    } else {
      assert false;
    }
  }

  /** Where each property sits in the template: every property but
      `industryOther` has exactly one line, conditional for the four optional
      estimates. */
  lemma TemplateSlot(p: Prop)
    ensures Occurrences(Template, p) <= 1
    ensures SlotFor(Template, p) == ExpectedSlot(p)
  {
    TemplateAscends();
    AscendingAtMostOnce(Template, Rank, -1, 34, p);
    if p != IndustryOther {
      ExpectedSlotPresent(p);
      var slot := ExpectedSlot(p).value;
      var i :| 0 <= i < |Template| && Template[i] == slot;
      SlotForMember(Template, p, i);
    }
  }

  /** The industry line shows the free-text industry when `'other'` was
      chosen, and `industryOther` has no line of its own. */
  lemma PromptIndustry(ctx: Context, num: real -> string)
    requires BuildPrompt(ctx, num).Success?
    ensures ValueOf(BuildPrompt(ctx, num).value, Industry) == Some(Display(IndustryShown(ctx), num))
    ensures ValueOf(BuildPrompt(ctx, num).value, IndustryOther).None?
  {
    TemplateSlot(Industry);
    TemplateSlot(IndustryOther);
    RenderedValue(Template, ctx, SuccessText(ctx, num), Industry);
    RenderedValue(Template, ctx, SuccessText(ctx, num), IndustryOther);
  }

  /** The three lists are shown joined with `', '`. */
  lemma PromptLists(ctx: Context, num: real -> string, p: Prop)
    requires BuildPrompt(ctx, num).Success? && ListValued(p)
    ensures ValueOf(BuildPrompt(ctx, num).value, p) == Some(Join(ctx(p).value.items, ", "))
  {
    TemplateSlot(p);
    RenderedValue(Template, ctx, SuccessText(ctx, num), p);
  }

  /** The CAC, LTV, key-hires and funding-needs lines are present exactly
      when their value is truthy, and then show it. */
  lemma PromptOptionalLines(ctx: Context, num: real -> string, p: Prop)
    requires BuildPrompt(ctx, num).Success? && Optional(p) && p != IndustryOther
    ensures var lines := BuildPrompt(ctx, num).value;
      && (ValueOf(lines, p).Some? <==> TruthyOpt(ctx(p)))
      && (ValueOf(lines, p).Some? ==> ValueOf(lines, p).value == Display(ctx(p), num))
  {
    PromptRendered(ctx, num);
    assert SuccessText(ctx, num)(p) == Display(ctx(p), num);
    TemplateSlot(p);
    RenderedValue(Template, ctx, SuccessText(ctx, num), p);
  }

  /** Every other property always has its line, showing its value. */
  lemma PromptRequiredLines(ctx: Context, num: real -> string, p: Prop)
    requires BuildPrompt(ctx, num).Success? && !Optional(p) && !ListValued(p) && p != Industry
    ensures ValueOf(BuildPrompt(ctx, num).value, p) == Some(Display(ctx(p), num))
  {
    PromptRendered(ctx, num);
    assert SuccessText(ctx, num)(p) == Display(ctx(p), num);
    TemplateSlot(p);
    RenderedValue(Template, ctx, SuccessText(ctx, num), p);
  }

  /** The values the closing instructions repeat. */
  predicate Recapped(p: Prop) {
    p == BusinessStage || p == FundingStatus || p == RevenueGoal12m || p == TeamSize
  }

  lemma ClosingRecaps(p: Prop)
    requires Recapped(p)
    ensures Again(p) in Template
  {
    assert Again(p) in Closing();
  }

  /** The closing instructions repeat the stage, the funding status, the
      12-month goal and the team size. */
  lemma PromptRecaps(ctx: Context, num: real -> string, p: Prop)
    requires BuildPrompt(ctx, num).Success? && Recapped(p)
    ensures Recap(p, Display(ctx(p), num)) in BuildPrompt(ctx, num).value
  {
    ClosingRecaps(p);
    RenderedRecap(Template, ctx, SuccessText(ctx, num), p);
  }

  /** The keys the template requests are those of its closing part. */
  lemma TemplateRequestsSchema()
    ensures TemplateKeys(Template) == SchemaKeyList()
  {
    var tail := TeamFunding() + Closing();
    TemplateKeysConcat(TeamFunding(), Closing());
    TemplateKeysConcat(Competition(), tail);
    TemplateKeysConcat(Model(), Competition() + tail);
    TemplateKeysConcat(MarketCustomer(), Model() + (Competition() + tail));
    TemplateKeysConcat(ProblemSolution(), MarketCustomer() + (Model() + (Competition() + tail)));
    TemplateKeysConcat(Company(), Body);
  }

  /** The section list names the requested keys, in order. */
  lemma SectionsMatchSchema()
    ensures BusinessPlanSections() == SchemaKeyList()
  {
  }

  /** The twelve requested keys are all different. */
  lemma SchemaKeysDistinct()
    ensures |SchemaKeyList()| == 12 && Distinct(SchemaKeyList())
  {
  }

  /** The prompt requests exactly the plan's section keys, in order; there
      are twelve and they are distinct. */
  lemma PromptRequestsSections(ctx: Context, num: real -> string)
    requires BuildPrompt(ctx, num).Success?
    ensures SchemaKeys(BuildPrompt(ctx, num).value) == BusinessPlanSections()
    ensures |BusinessPlanSections()| == 12
    ensures Distinct(BusinessPlanSections())
  {
    RenderedKeys(Template, ctx, SuccessText(ctx, num));
    TemplateRequestsSchema();
    SectionsMatchSchema();
    SchemaKeysDistinct();
  }

  // ------------------------------------------------------------- sections

  /** `BUSINESS_PLAN_SECTIONS`: the plan's sections in display order. Each
      one's title is `SectionTitle` of its key. */
  function BusinessPlanSections(): seq<SectionKey> {
    [ExecutiveSummary, MarketOpportunity, ProblemAnalysis, SolutionValueProp, BusinessModel,
     GoToMarketSection, CompetitiveAnalysis, TractionMilestones, FinancialProjections,
     TeamSection, RisksMitigation, ActionPlan]
  }
}
