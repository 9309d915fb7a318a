/** The two-step planning journey on the dashboard: the business plan, then
    the go-to-market plan. For each step, the status shown, the link, the
    lock, and the one action offered. */
module PlanJourney {
  import opened Wrappers
  import opened QuestionnaireTypes
  import opened Routes

  /** A plan's progress as the dashboard reports it. */
  datatype Progress = NotStarted | InProgress | Finalized

  /** The dashboard's summary of the user's plan of one kind. */
  datatype Summary = Summary(status: Progress, planId: Option<string>, title: Option<string>)

  /** The action a step offers, in priority order: view the finished plan
      (or start another), continue, a locked notice, or start (highlighted
      when the step before it is finished). */
  datatype Action =
    | ViewOrCreate(view: Destination, create: Destination)
    | Continue(to: Destination)
    | LockedNotice
    | Start(to: Destination, highlighted: bool)

  /** One journey step as drawn. */
  datatype JourneyStep = JourneyStep(number: nat, status: Progress, href: Destination, locked: bool,
                                     previousCompleted: bool, action: Action)

  /** The status shown: the plan's own, `not_started` when there is none. */
  function StatusOf(plan: Option<Summary>): (s: Progress)
    ensures plan.None? ==> s == NotStarted
    ensures plan.Some? ==> s == plan.value.status
  {
    if plan.Some? then plan.value.status else NotStarted
  }

  /** A plan id counts when present and non-empty. */
  predicate HasPlanId(plan: Option<Summary>) {
    plan.Some? && plan.value.planId.Some? && plan.value.planId.value != ""
  }

  /** The step's link: the plan page for a finalized plan, the first
      questionnaire step of the plan for any other one, and a fresh
      questionnaire when there is no plan id. */
  function HrefFor(kind: QuestionnaireKind, plan: Option<Summary>): (d: Destination)
    ensures HasPlanId(plan) && plan.value.status == Finalized ==> Href(d) == "/plans/" + plan.value.planId.value
    ensures HasPlanId(plan) && plan.value.status != Finalized ==>
      Href(d) == BasePath(kind) + "/new/1?planId=" + plan.value.planId.value
    ensures !HasPlanId(plan) ==> Href(d) == BasePath(kind) + "/new/1"
  {
    if HasPlanId(plan) then
      if plan.value.status == Finalized then PlanPage(plan.value.planId.value)
      else QuestionnairePage(kind, 1, Some(plan.value.planId.value))
    else QuestionnairePage(kind, 1, None)
  }

  /** The action for a step, by priority: finished, in progress, locked,
      else start. */
  function ActionFor(status: Progress, locked: bool, previousCompleted: bool, href: Destination,
                     kind: QuestionnaireKind): (a: Action)
    ensures a.ViewOrCreate? <==> status == Finalized
    ensures a.Continue? <==> status == InProgress
    ensures a.LockedNotice? <==> status == NotStarted && locked
    ensures a.Start? <==> status == NotStarted && !locked
    ensures a.ViewOrCreate? ==> a.view == href && a.create == QuestionnairePage(kind, 1, None)
    ensures a.Continue? ==> a.to == href
    ensures a.Start? ==> a.to == href && a.highlighted == previousCompleted
  {
    match status
    case Finalized => ViewOrCreate(href, QuestionnairePage(kind, 1, None))
    case InProgress => Continue(href)
    case NotStarted => if locked then LockedNotice else Start(href, previousCompleted)
  }

  /** The two steps. Only the go-to-market step can be locked, and it is
      locked while there is no business plan at all. Step 1's predecessor
      counts as finished; step 2's is finished when the business plan is. */
  function Journey(businessPlan: Option<Summary>, gtmPlan: Option<Summary>): (steps: seq<JourneyStep>)
    ensures |steps| == 2
    ensures steps[0].number == 1 && steps[1].number == 2
    ensures steps[0].status == StatusOf(businessPlan) && steps[1].status == StatusOf(gtmPlan)
    ensures !steps[0].locked && (steps[1].locked <==> businessPlan.None?)
    ensures steps[0].previousCompleted && (steps[1].previousCompleted <==> StatusOf(businessPlan) == Finalized)
  {
    var bpStatus := StatusOf(businessPlan);
    var gtmStatus := StatusOf(gtmPlan);
    var bpHref := HrefFor(BusinessPlanQuestionnaire, businessPlan);
    var gtmHref := HrefFor(GtmPlanQuestionnaire, gtmPlan);
    var gtmLocked := businessPlan.None?;
    var gtmPrevious := bpStatus == Finalized;
    [JourneyStep(1, bpStatus, bpHref, false, true,
                 ActionFor(bpStatus, false, true, bpHref, BusinessPlanQuestionnaire)),
     JourneyStep(2, gtmStatus, gtmHref, gtmLocked, gtmPrevious,
                 ActionFor(gtmStatus, gtmLocked, gtmPrevious, gtmHref, GtmPlanQuestionnaire))]
  }

  /** Every step offers the action its own fields call for. */
  lemma ActionsFollowPriority(businessPlan: Option<Summary>, gtmPlan: Option<Summary>, i: nat)
    requires i < 2
    ensures var st := Journey(businessPlan, gtmPlan)[i];
      && (st.action.ViewOrCreate? <==> st.status == Finalized)
      && (st.action.Continue? <==> st.status == InProgress)
      && (st.action.LockedNotice? <==> st.status == NotStarted && st.locked)
      && (st.action.Start? ==> st.action.to == st.href && st.action.highlighted == st.previousCompleted)
  {
  }

  /** The lock tests that a business plan exists, not that it is finished:
      with a business plan in progress the go-to-market step is open to
      start, though not highlighted. */
  lemma UnfinishedBusinessPlanUnlocks(bpId: string)
    ensures var steps := Journey(Some(Summary(InProgress, Some(bpId), None)), None);
      && !steps[1].locked
      && steps[1].action == Start(QuestionnairePage(GtmPlanQuestionnaire, 1, None), false)
  {
  }

  /** The only step that ever shows the locked notice is the go-to-market
      one, and only while it has not been started and there is no business
      plan. */
  lemma LockedNoticeOnlyBeforeBusinessPlan(businessPlan: Option<Summary>, gtmPlan: Option<Summary>)
    ensures !Journey(businessPlan, gtmPlan)[0].action.LockedNotice?
    ensures Journey(businessPlan, gtmPlan)[1].action.LockedNotice? <==>
      businessPlan.None? && StatusOf(gtmPlan) == NotStarted
  {
  }
}
