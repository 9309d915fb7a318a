/** The go-to-market prompt: the context read from the questionnaire
    answers, the value lines of the generation prompt, and the eleven section
    keys of the plan. */
module GtmPlanPrompt {
  import opened Wrappers
  import opened Strings
  import opened QuestionnaireTypes
  import opened PromptLines
  import BusinessPlanPrompt

  /** A property of the go-to-market context, as its position in the context
      record: the properties are numbered 0 to 17 in declaration order, and
      the prompt lists their value lines in the same order. */
  newtype Prop = i: int | 0 <= i < 18

  const ProductName: Prop := 0
  const ProductDescription: Prop := 1
  const LaunchType: Prop := 2
  const Readiness: Prop := 3
  const PrimaryPersona: Prop := 4
  const BuyingJourney: Prop := 5
  const AwarenessLevel: Prop := 6
  const GeographicFocus: Prop := 7
  const MainCompetitors: Prop := 8
  const CompetitiveAdvantage: Prop := 9
  const MarketPosition: Prop := 10
  const PrimaryChannels: Prop := 11
  const MarketingExperience: Prop := 12
  const ExistingAudience: Prop := 13
  const LaunchDate: Prop := 14
  const BudgetRange: Prop := 15
  const SuccessMetrics: Prop := 16
  const Constraints: Prop := 17

  const Empty: Default := Fallback(Str(""))
  const NoItems: Default := Fallback(StrList([]))

  /** The answer each property is read from and its default. */
  function Source(p: Prop): ContextSource {
    if p == ProductName then ContextSource("product_name", Empty)
    else if p == ProductDescription then ContextSource("product_description", Empty)
    else if p == LaunchType then ContextSource("launch_type", Empty)
    else if p == Readiness then ContextSource("readiness", Empty)
    else if p == PrimaryPersona then ContextSource("primary_persona", Empty)
    else if p == BuyingJourney then ContextSource("buying_journey", Empty)
    else if p == AwarenessLevel then ContextSource("awareness_level", Empty)
    else if p == GeographicFocus then ContextSource("geographic_focus", NoItems)
    else if p == MainCompetitors then ContextSource("main_competitors", Empty)
    else if p == CompetitiveAdvantage then ContextSource("competitive_advantage", Empty)
    else if p == MarketPosition then ContextSource("market_position", Empty)
    else if p == PrimaryChannels then ContextSource("primary_channels", NoItems)
    else if p == MarketingExperience then ContextSource("marketing_experience", Empty)
    else if p == ExistingAudience then ContextSource("existing_audience", PassThrough)
    else if p == LaunchDate then ContextSource("launch_date", Empty)
    else if p == BudgetRange then ContextSource("budget_range", Empty)
    else if p == SuccessMetrics then ContextSource("success_metrics", Empty)
    else ContextSource("constraints", PassThrough)
  }

  /** The optional properties, passed through and possibly undefined. */
  predicate Optional(p: Prop) {
    p == ExistingAudience || p == Constraints
  }

  /** The list-valued properties, joined with `', '` in the prompt. */
  predicate ListValued(p: Prop) {
    p == GeographicFocus || p == PrimaryChannels
  }

  /** The defaults as a table: the two lists fall back to `[]`, the two
      optional properties pass through, and every other property falls back
      to `''`. Unlike the business plan, no property has a non-empty
      default. */
  lemma SourceDefaults(p: Prop)
    ensures ListValued(p) ==> Source(p).default == Fallback(StrList([]))
    ensures Source(p).default.PassThrough? <==> Optional(p)
    ensures !ListValued(p) && !Optional(p) ==> Source(p).default == Fallback(Str(""))
  {
  }

  type Context = Prop -> Option<Answer>

  /** `mapResponsesToGTMContext`: a truthy answer is taken as given, an
      optional property passes its answer through, and a falsy or missing
      answer otherwise gives `[]` for a list and `''` for the rest, the
      product name included. */
  function MapResponsesToContext(answers: Responses): (ctx: Context)
    ensures forall p :: TruthyOpt(Lookup(answers, Source(p).key)) ==> ctx(p) == Some(answers[Source(p).key])
    ensures forall p :: Optional(p) ==> ctx(p) == Lookup(answers, Source(p).key)
    ensures forall p :: ListValued(p) && !TruthyOpt(Lookup(answers, Source(p).key)) ==> ctx(p) == Some(StrList([]))
    ensures forall p :: !ListValued(p) && !Optional(p) && !TruthyOpt(Lookup(answers, Source(p).key)) ==>
              ctx(p) == Some(Str(""))
  {
    p => Resolve(answers, Source(p))
  }

  /** Only an optional property can be undefined, and a list property always
      holds a list when its answer is missing or falsy. */
  lemma ContextDefined(answers: Responses, p: Prop)
    ensures !Optional(p) ==> MapResponsesToContext(answers)(p).Some?
    ensures ListValued(p) && !TruthyOpt(Lookup(answers, Source(p).key)) ==>
              MapResponsesToContext(answers)(p) == Some(StrList([]))
  {
    SourceDefaults(p);
  }

  // ------------------------------------------------------------- the prompt

  /** The value lines of `buildGTMPlanPrompt` in template order, one function
      per paragraph of the product and launch information. */
  function Product(): seq<Slot<Prop>> {
    [Title("Product & Launch Information"),
     Always(ProductName), Always(ProductDescription), Always(LaunchType), Always(Readiness)]
  }
  function Customer(): seq<Slot<Prop>> {
    [Always(PrimaryPersona), Always(BuyingJourney), Always(AwarenessLevel), Always(GeographicFocus)]
  }
  function Competition(): seq<Slot<Prop>> {
    [Always(MainCompetitors), Always(CompetitiveAdvantage), Always(MarketPosition)]
  }
  function Marketing(): seq<Slot<Prop>> {
    [Always(PrimaryChannels), Always(MarketingExperience), WhenTruthy(ExistingAudience)]
  }
  function Launch(): seq<Slot<Prop>> {
    [Always(LaunchDate), Always(BudgetRange), Always(SuccessMetrics), WhenTruthy(Constraints)]
  }
  /** The JSON object requested. */
  function Closing(): seq<Slot<Prop>> {
    [Keys(SchemaKeyList())]
  }

  const Template: seq<Slot<Prop>> :=
    Product() + (Customer() + (Competition() + (Marketing() + (Launch() + Closing()))))

  /** The keys of the JSON object the prompt asks for, in the prompt's
      order. */
  function SchemaKeyList(): seq<SectionKey> {
    [ExecutiveSummary, PositioningAndMessaging, TargetAudienceDeepDive, CompetitivePositioningSection,
     ChannelStrategy, LaunchTimeline, ContentStrategy, BudgetAllocation, MetricsAndKpis,
     RiskMitigation, QuickWins]
  }

  /** The text interpolated for each property, given the two joined lists. */
  function Text(ctx: Context, num: real -> string, geography: string, channels: string): Prop -> string {
    (p: Prop) =>
      if p == GeographicFocus then geography
      else if p == PrimaryChannels then channels
      else Display(ctx(p), num)
  }

  /** `buildGTMPlanPrompt`: the template filled in from the context, or the
      `TypeError` thrown when a list property holds something other than a
      list. */
  function BuildPrompt(ctx: Context, num: real -> string): (r: Result<seq<Line<Prop>>, string>)
    ensures r.Success? <==> forall p :: ListValued(p) ==> ctx(p).Some? && ctx(p).value.StrList?
    ensures r.Success? ==> |r.value| == |Template|
  {
    var geography :- JoinList(ctx(GeographicFocus));
    var channels :- JoinList(ctx(PrimaryChannels));
    Success(Render(Template, ctx, Text(ctx, num, geography, channels)))
  }

  /** The text function `BuildPrompt` renders with, when it succeeds. */
  function SuccessText(ctx: Context, num: real -> string): Prop -> string
    requires BuildPrompt(ctx, num).Success?
  {
    Text(ctx, num, JoinList(ctx(GeographicFocus)).value, JoinList(ctx(PrimaryChannels)).value)
  }

  /** A successful prompt is the template rendered with `SuccessText`. */
  lemma PromptRendered(ctx: Context, num: real -> string)
    requires BuildPrompt(ctx, num).Success?
    ensures BuildPrompt(ctx, num).value == Render(Template, ctx, SuccessText(ctx, num))
  {
  }

  /** A context built from the answers always renders: both lists hold a
      list whenever the answers do not hold something else under their
      keys. */
  lemma MappedContextRenders(answers: Responses, num: real -> string)
    requires forall p :: ListValued(p) && TruthyOpt(Lookup(answers, Source(p).key)) ==>
               answers[Source(p).key].StrList?
    ensures BuildPrompt(MapResponsesToContext(answers), num).Success?
  {
    forall p | ListValued(p)
      ensures MapResponsesToContext(answers)(p).Some? && MapResponsesToContext(answers)(p).value.StrList?
    {
      ContextDefined(answers, p);
    }
  }

  // ------------------------------------------------------------- template facts

  /** The rank the template's value lines ascend in: the property's position. */
  function Rank(p: Prop): int {
    p as int
  }

  /** The expected slot of a property: conditional for the two optional
      properties, unconditional otherwise. */
  function ExpectedSlot(p: Prop): Slot<Prop> {
    if Optional(p) then WhenTruthy(p) else Always(p)
  }

  // Each paragraph's lines ascend in rank from the last line before it.
  lemma ProductAscends()
    ensures Ascends(Product(), Rank, -1, 3)
  {
  }

  lemma CustomerAscends()
    ensures Ascends(Customer(), Rank, 3, 7)
  {
  }

  lemma CompetitionAscends()
    ensures Ascends(Competition(), Rank, 7, 10)
  {
  }

  lemma MarketingAscends()
    ensures Ascends(Marketing(), Rank, 10, 13)
  {
  }

  lemma LaunchAscends()
    ensures Ascends(Launch(), Rank, 13, 17)
  {
  }

  lemma ClosingUnlabelled()
    ensures Ascends(Closing(), Rank, 17, 17)
  {
  }

  /** The whole template ascends, so no property has two lines. */
  lemma TemplateAscends()
    ensures Ascends(Template, Rank, -1, 17)
  {
    ProductAscends();
    CustomerAscends();
    CompetitionAscends();
    MarketingAscends();
    LaunchAscends();
    ClosingUnlabelled();
    AscendsConcat6(Product(), Customer(), Competition(), Marketing(), Launch(), Closing(),
                   Rank, -1, 3, 7, 10, 13, 17, 17);
  }

  // Each paragraph holds the expected slots of its properties.

  lemma ProductLabels(p: Prop)
    requires p in [ProductName, ProductDescription, LaunchType, Readiness]
    ensures ExpectedSlot(p) in Product()
  {
  }

  lemma CustomerLabels(p: Prop)
    requires p in [PrimaryPersona, BuyingJourney, AwarenessLevel, GeographicFocus]
    ensures ExpectedSlot(p) in Customer()
  {
  }

  lemma CompetitionLabels(p: Prop)
    requires p in [MainCompetitors, CompetitiveAdvantage, MarketPosition]
    ensures ExpectedSlot(p) in Competition()
  {
  }

  lemma MarketingLabels(p: Prop)
    requires p in [PrimaryChannels, MarketingExperience, ExistingAudience]
    ensures ExpectedSlot(p) in Marketing()
  {
  }

  lemma LaunchLabels(p: Prop)
    requires p in [LaunchDate, BudgetRange, SuccessMetrics, Constraints]
    ensures ExpectedSlot(p) in Launch()
  {
  }

  /** Every property has its expected slot somewhere in the template. */
  lemma ExpectedSlotPresent(p: Prop)
    ensures ExpectedSlot(p) in Template
  {
    if p <= Readiness {
      ProductLabels(p);
    } else if p <= GeographicFocus {
      CustomerLabels(p);
    } else if p <= MarketPosition {
      CompetitionLabels(p);
    } else if p <= ExistingAudience {
      MarketingLabels(p);
    } else {
      LaunchLabels(p);
    }
  }

  /** Where each property sits in the template: exactly one line each,
      conditional for the existing audience and the constraints. */
  lemma TemplateSlot(p: Prop)
    ensures Occurrences(Template, p) == 1
    ensures SlotFor(Template, p) == Some(ExpectedSlot(p))
  {
    TemplateAscends();
    AscendingAtMostOnce(Template, Rank, -1, 17, p);
    ExpectedSlotPresent(p);
    var i :| 0 <= i < |Template| && Template[i] == ExpectedSlot(p);
    SlotForMember(Template, p, i);
  }

  /** The geographic focus and the channels are shown joined with `', '`. */
  lemma PromptLists(ctx: Context, num: real -> string, p: Prop)
    requires BuildPrompt(ctx, num).Success? && ListValued(p)
    ensures ValueOf(BuildPrompt(ctx, num).value, p) == Some(Join(ctx(p).value.items, ", "))
  {
    PromptRendered(ctx, num);
    TemplateSlot(p);
    RenderedValue(Template, ctx, SuccessText(ctx, num), p);
  }

  /** The existing-audience and constraints lines are present exactly when
      their value is truthy, and then show it. */
  lemma PromptOptionalLines(ctx: Context, num: real -> string, p: Prop)
    requires BuildPrompt(ctx, num).Success? && Optional(p)
    ensures var lines := BuildPrompt(ctx, num).value;
      && (ValueOf(lines, p).Some? <==> TruthyOpt(ctx(p)))
      && (ValueOf(lines, p).Some? ==> ValueOf(lines, p).value == Display(ctx(p), num))
  {
    PromptRendered(ctx, num);
    assert SuccessText(ctx, num)(p) == Display(ctx(p), num);
    TemplateSlot(p);
    RenderedValue(Template, ctx, SuccessText(ctx, num), p);
  }

  /** Every other property always has its line, showing its value. */
  lemma PromptRequiredLines(ctx: Context, num: real -> string, p: Prop)
    requires BuildPrompt(ctx, num).Success? && !Optional(p) && !ListValued(p)
    ensures ValueOf(BuildPrompt(ctx, num).value, p) == Some(Display(ctx(p), num))
  {
    PromptRendered(ctx, num);
    assert SuccessText(ctx, num)(p) == Display(ctx(p), num);
    TemplateSlot(p);
    RenderedValue(Template, ctx, SuccessText(ctx, num), p);
  }

  /** The keys the template requests are those of its closing part. */
  lemma TemplateRequestsSchema()
    ensures TemplateKeys(Template) == SchemaKeyList()
  {
    var tail := Launch() + Closing();
    TemplateKeysConcat(Launch(), Closing());
    TemplateKeysConcat(Marketing(), tail);
    TemplateKeysConcat(Competition(), Marketing() + tail);
    TemplateKeysConcat(Customer(), Competition() + (Marketing() + tail));
    TemplateKeysConcat(Product(), Customer() + (Competition() + (Marketing() + tail)));
  }

  /** The section list names the requested keys, in order. */
  lemma SectionsMatchSchema()
    ensures GtmPlanSections() == SchemaKeyList()
  {
  }

  /** The eleven requested keys are all different. */
  lemma SchemaKeysDistinct()
    ensures |SchemaKeyList()| == 11 && Distinct(SchemaKeyList())
  {
  }

  /** The prompt requests exactly the plan's section keys, in order; there
      are eleven and they are distinct. */
  lemma PromptRequestsSections(ctx: Context, num: real -> string)
    requires BuildPrompt(ctx, num).Success?
    ensures SchemaKeys(BuildPrompt(ctx, num).value) == GtmPlanSections()
    ensures |GtmPlanSections()| == 11
    ensures Distinct(GtmPlanSections())
  {
    RenderedKeys(Template, ctx, SuccessText(ctx, num));
    TemplateRequestsSchema();
    SectionsMatchSchema();
    SchemaKeysDistinct();
  }

  // ------------------------------------------------------------- sections

  /** `GTM_PLAN_SECTIONS`: the plan's sections in display order. Each one's
      title is `SectionTitle` of its key. */
  function GtmPlanSections(): seq<SectionKey> {
    [ExecutiveSummary, PositioningAndMessaging, TargetAudienceDeepDive, CompetitivePositioningSection,
     ChannelStrategy, LaunchTimeline, ContentStrategy, BudgetAllocation, MetricsAndKpis,
     RiskMitigation, QuickWins]
  }

  /** The executive summary is the only section both plan types ask for. */
  lemma SharedSectionKeys(k: SectionKey)
    ensures k in GtmPlanSections() && k in BusinessPlanPrompt.BusinessPlanSections() <==> k == ExecutiveSummary
  {
  }
}
