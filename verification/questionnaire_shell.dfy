/** The questionnaire page around the engine: which step is shown, where
    Next and Back lead, the Next button's state, and the offer to import a
    finalized business plan into a go-to-market questionnaire. The page's
    effects (a save of the answers, a navigation) are returned in the order
    the handlers issue them. */
module QuestionnaireShell {
  import opened Wrappers
  import opened QuestionnaireTypes
  import opened DatabaseTypes
  import opened Routes
  import QuestionnaireEngine
  import ImportMapper

  /** A handler's effect: `saveProgress` with the answers it writes, or a
      router push. */
  datatype Effect = Save(answers: Responses) | Navigate(to: Destination)

  /** The questionnaire whose paths `basePath` builds: the business-plan one
      for `business_plan`, the go-to-market one for every other type. */
  function KindOf(planType: PlanType): (kind: QuestionnaireKind)
    ensures kind == BusinessPlanQuestionnaire <==> planType == BusinessPlan
  {
    if planType == BusinessPlan then BusinessPlanQuestionnaire else GtmPlanQuestionnaire
  }

  /** `questionnaires[planType]` in the hook: defined only for the two
      questionnaire-backed types. For the other two it is `undefined`, and
      the page throws when it reads `.steps`. Where it is defined, it agrees
      with the paths `basePath` builds. */
  function QuestionnaireFor(planType: PlanType): (kind: Option<QuestionnaireKind>)
    ensures kind.Some? <==> planType == BusinessPlan || planType == GtmPlan
    ensures kind.Some? ==> kind.value == KindOf(planType)
  {
    match planType
    case BusinessPlan => Some(BusinessPlanQuestionnaire)
    case GtmPlan => Some(GtmPlanQuestionnaire)
    case _ => None
  }

  /** `basePath`. */
  lemma BasePathByType(planType: PlanType)
    ensures planType == BusinessPlan ==> BasePath(KindOf(planType)) == "/business-plan"
    ensures planType != BusinessPlan ==> BasePath(KindOf(planType)) == "/gtm-plan"
  {
  }

  // ---------------------------------------------------------- navigation

  /** The last step is the one numbered like the step count. */
  predicate IsLastStep(currentStep: int, stepCount: nat) {
    currentStep == stepCount
  }

  /** The step the page shows: the entry at `currentStep - 1`, or nothing
      when the number is out of range (the page then fails reading its
      title). */
  function ShownStep(q: Questionnaire, currentStep: int): (r: Option<QuestionnaireStep>)
    ensures r.Some? <==> 1 <= currentStep <= |q.steps|
    ensures r.Some? ==> r.value == q.steps[currentStep - 1]
    ensures r.Some? && IsLastStep(currentStep, |q.steps|) ==> r.value == q.steps[|q.steps| - 1]
  {
    if 1 <= currentStep <= |q.steps| then Some(q.steps[currentStep - 1]) else None
  }

  /** `handleNext`: the answers are saved first; then the last step leads to
      the generation page and any other step to the next one. */
  function HandleNext(planId: string, planType: PlanType, currentStep: int, stepCount: nat,
                      answers: Responses): (effects: seq<Effect>)
    ensures |effects| == 2 && effects[0] == Save(answers) && effects[1].Navigate?
    ensures IsLastStep(currentStep, stepCount) ==> Href(effects[1].to) == "/plans/" + planId + "/generate"
    ensures !IsLastStep(currentStep, stepCount) ==>
      Href(effects[1].to) == BasePath(KindOf(planType)) + "/new/" + IntText(currentStep + 1) + "?planId=" + planId
  {
    [Save(answers),
     Navigate(if IsLastStep(currentStep, stepCount) then GeneratePage(planId)
              else QuestionnairePage(KindOf(planType), currentStep + 1, Some(planId)))]
  }

  /** `handleBack`: from a step past the first to the step before it, and
      from the first step to the dashboard. Nothing is saved. */
  function HandleBack(planId: string, planType: PlanType, currentStep: int): (to: Destination)
    ensures currentStep <= 1 <==> Href(to) == "/dashboard"
    ensures currentStep > 1 ==>
      Href(to) == BasePath(KindOf(planType)) + "/new/" + IntText(currentStep - 1) + "?planId=" + planId
  {
    if currentStep > 1 then QuestionnairePage(KindOf(planType), currentStep - 1, Some(planId)) else Dashboard
  }

  /** Back undoes Next: from any step before the last, Next and then Back
      return to the same step of the same plan. */
  lemma BackUndoesNext(planId: string, planType: PlanType, currentStep: int, stepCount: nat, answers: Responses)
    requires 1 <= currentStep < stepCount
    ensures var next := HandleNext(planId, planType, currentStep, stepCount, answers)[1].to;
      next.QuestionnairePage?
      && HandleBack(planId, planType, next.step) == QuestionnairePage(KindOf(planType), currentStep, Some(planId))
  {
  }

  /** From a step in range, Next and Back lead to a step in range, or off
      the questionnaire (generation, dashboard) exactly at its ends. */
  lemma NavigationStaysInRange(planId: string, planType: PlanType, currentStep: int, stepCount: nat,
                               answers: Responses)
    requires 1 <= currentStep <= stepCount
    ensures var next := HandleNext(planId, planType, currentStep, stepCount, answers)[1].to;
      (next.QuestionnairePage? <==> currentStep < stepCount)
      && (next.QuestionnairePage? ==> 1 <= next.step <= stepCount)
    ensures var back := HandleBack(planId, planType, currentStep);
      (back.QuestionnairePage? <==> currentStep > 1)
      && (back.QuestionnairePage? ==> 1 <= back.step <= stepCount)
  {
  }

  /** The Next button's face. */
  datatype NextLabel = SavingLabel | GenerateLabel | ContinueLabel

  datatype NextButton = NextButton(disabled: bool, face: NextLabel)

  /** The Next button: disabled while the step is invalid or a save runs;
      its face says saving, then generate on the last step, then continue. */
  function NextButtonFor(isValid: bool, isSaving: bool, isLastStep: bool): (b: NextButton)
    ensures b.disabled <==> !isValid || isSaving
    ensures b.face == SavingLabel <==> isSaving
    ensures b.face == GenerateLabel <==> !isSaving && isLastStep
  {
    NextButton(!isValid || isSaving,
               if isSaving then SavingLabel else if isLastStep then GenerateLabel else ContinueLabel)
  }

  /** A Next that can be clicked passes the step's validation. */
  lemma EnabledNextIsValid(isValid: bool, isSaving: bool, isLastStep: bool)
    ensures !NextButtonFor(isValid, isSaving, isLastStep).disabled ==> isValid && !isSaving
  {
  }

  // -------------------------------------------------------------- import

  /** A finalized business plan offered for import: its title and answers. */
  datatype Offer = Offer(title: string, responses: Responses)

  /** The most recently finalized business plan the lookup returned: its
      title and its answer column, either of which may be null. */
  datatype LatestBusinessPlan = LatestBusinessPlan(title: Option<string>, responses: Option<Responses>)

  /** The page state the import feature reads and writes. */
  datatype ShellState = ShellState(answers: Responses, offer: Option<Offer>, bannerOpen: bool, dismissed: bool)

  /** The banner is rendered when it is open and there is an offer. */
  predicate BannerShown(s: ShellState) {
    s.bannerOpen && s.offer.Some?
  }

  /** The offer made from the looked-up plan: made only when it has a
      non-empty answer map, titled `Business Plan` when untitled. */
  function OfferFrom(latest: Option<LatestBusinessPlan>): (o: Option<Offer>)
    ensures o.Some? <==> latest.Some? && latest.value.responses.Some? && |latest.value.responses.value| > 0
    ensures o.Some? ==> o.value.responses == latest.value.responses.value
    ensures o.Some? && latest.value.title.Some? && latest.value.title.value != "" ==>
      o.value.title == latest.value.title.value
    ensures o.Some? && (latest.value.title.None? || latest.value.title.value == "") ==>
      o.value.title == "Business Plan"
  {
    if latest.Some? && latest.value.responses.Some? && |latest.value.responses.value| > 0 then
      var t := latest.value.title;
      Some(Offer(if t.Some? && t.value != "" then t.value else "Business Plan", latest.value.responses.value))
    else None
  }

  /** The lookup effect once loading is over: on step 1 of a go-to-market
      plan whose banner was not dismissed, a finalized plan with answers
      becomes the offer, and the banner opens when no answer exists yet.
      Nothing ever closes the banner here. */
  function CheckForBusinessPlan(s: ShellState, planType: PlanType, currentStep: int, isLoading: bool,
                                latest: Option<LatestBusinessPlan>): (r: ShellState)
    ensures r.answers == s.answers && r.dismissed == s.dismissed
    ensures s.bannerOpen ==> r.bannerOpen
  {
    if isLoading || planType != GtmPlan || currentStep != 1 || s.dismissed then s
    else
      match OfferFrom(latest)
      case None => s
      case Some(o) => s.(offer := Some(o), bannerOpen := s.bannerOpen || |s.answers| == 0)
  }

  /** The banner opens exactly when all five conditions hold: a go-to-market
      plan, step 1, not dismissed, a finalized business plan with answers,
      and no answers yet. */
  lemma BannerOpensWhen(s: ShellState, planType: PlanType, currentStep: int, isLoading: bool,
                        latest: Option<LatestBusinessPlan>)
    requires !s.bannerOpen && !isLoading
    ensures BannerShown(CheckForBusinessPlan(s, planType, currentStep, isLoading, latest)) <==>
      planType == GtmPlan && currentStep == 1 && !s.dismissed && OfferFrom(latest).Some? && |s.answers| == 0
  {
  }

  /** `handleDismissImport`: the banner closes and stays dismissed. */
  function Dismiss(s: ShellState): (r: ShellState)
    ensures !BannerShown(r) && r.dismissed
    ensures r.answers == s.answers && r.offer == s.offer
  {
    s.(bannerOpen := false, dismissed := true)
  }

  /** After a dismissal no lookup reopens the banner. */
  lemma DismissedStaysClosed(s: ShellState, planType: PlanType, currentStep: int, isLoading: bool,
                             latest: Option<LatestBusinessPlan>)
    ensures !BannerShown(CheckForBusinessPlan(Dismiss(s), planType, currentStep, isLoading, latest))
  {
  }

  /** A handler's result: the new page state and its effects in order. */
  datatype Handled = Handled(state: ShellState, effects: seq<Effect>)

  /** The page state after the import: the mapped answers merged over the
      current ones, and the banner closed. */
  function Imported(s: ShellState): (r: ShellState)
    requires s.offer.Some?
    ensures r.offer == s.offer && r.dismissed == s.dismissed && !r.bannerOpen
  {
    var mapped := ImportMapper.MapBusinessPlanToGTM(s.offer.value.responses);
    s.(answers := QuestionnaireEngine.MergedAnswers(s.answers, ImportMapper.AsPartial(mapped)), bannerOpen := false)
  }

  /** `handleImport` as written: the save runs in the handler built before
      the import, so it writes the answers as they were, not the merged
      ones the page now shows. */
  function HandleImportAsWritten(s: ShellState): (h: Handled)
    ensures s.offer.None? ==> h == Handled(s, [])
    ensures s.offer.Some? ==> h.state == Imported(s) && h.effects == [Save(s.answers)]
  {
    if s.offer.None? then Handled(s, []) else Handled(Imported(s), [Save(s.answers)])
  }

  /** `handleImport` corrected: the save writes the merged answers. */
  function HandleImport(s: ShellState): (h: Handled)
    ensures s.offer.None? ==> h == Handled(s, [])
    ensures s.offer.Some? ==> h.state == Imported(s) && h.effects == [Save(h.state.answers)]
  {
    if s.offer.None? then Handled(s, []) else Handled(Imported(s), [Save(Imported(s).answers)])
  }

  /** The corrected import saves exactly what the page shows: every mapped
      answer overwrites, every other answer is kept, and the banner is
      closed before the save. */
  lemma ImportSavesWhatItShows(s: ShellState)
    requires s.offer.Some?
    ensures var h := HandleImport(s);
      var mapped := ImportMapper.MapBusinessPlanToGTM(s.offer.value.responses);
      && h.effects == [Save(h.state.answers)]
      && !BannerShown(h.state)
      && h.state.answers.Keys == s.answers.Keys + mapped.Keys
      && (forall k :: k in mapped ==> h.state.answers[k] == mapped[k])
      && (forall k :: k in s.answers && k !in mapped ==> h.state.answers[k] == s.answers[k])
  {
    var mapped := ImportMapper.MapBusinessPlanToGTM(s.offer.value.responses);
    assert QuestionnaireEngine.DefinedKeys(ImportMapper.AsPartial(mapped)) == mapped.Keys;
  }

  /** As written, importing a plan with a business name onto an empty
      questionnaire shows the imported product name but saves the empty
      map. */
  lemma ImportSavesStaleAnswersAsWritten()
    ensures var s := ShellState(map[], Some(Offer("Plan", map["business_name" := Str("Acme")])), true, false);
      var h := HandleImportAsWritten(s);
      && h.effects == [Save(map[])]
      && "product_name" in h.state.answers && h.state.answers["product_name"] == Str("Acme")
      && HandleImport(s).effects != h.effects
  {
    var bp := map["business_name" := Str("Acme")];
    var mapped := ImportMapper.MapBusinessPlanToGTM(bp);
    ImportMapper.ImportFieldsWellFormed();
    assert ImportMapper.ImportFields[0].target == "product_name";
    assert Lookup(bp, ImportMapper.ImportFields[0].source) == Some(Str("Acme"));
    assert mapped == ImportMapper.MapBusinessPlanWith(bp, ImportMapper.ImportFields);
    assert "product_name" in mapped && mapped["product_name"] == Str("Acme");
  }
}
