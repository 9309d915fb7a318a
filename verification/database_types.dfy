/** The closed enumerations and row shapes of the persisted records. Row
    timestamps written by the database itself (`created_at`, `updated_at`) are
    not represented; timestamps the code writes are plain strings supplied by
    the caller. */
module DatabaseTypes {
  import opened Wrappers
  import opened QuestionnaireTypes

  type Timestamp = string

  /** Generated and finalized plan content: section key to markdown text. */
  type SectionContent = map<string, string>

  // ---------------------------------------------------------------- PlanType

  /** Four plan types exist, but only the first two have a questionnaire and a
      generator. */
  datatype PlanType = BusinessPlan | GtmPlan | OperationsManual | PnlTracker

  function PlanTypeTag(t: PlanType): string {
    match t
    case BusinessPlan => "business_plan"
    case GtmPlan => "gtm_plan"
    case OperationsManual => "operations_manual"
    case PnlTracker => "pnl_tracker"
  }

  /** Reads a stored `plan_type` string back; `None` for anything else. */
  function PlanTypeFromTag(s: string): (r: Option<PlanType>)
    ensures r.Some? ==> PlanTypeTag(r.value) == s
    ensures r.None? ==> forall t :: PlanTypeTag(t) != s
  {
    if s == "business_plan" then Some(BusinessPlan)
    else if s == "gtm_plan" then Some(GtmPlan)
    else if s == "operations_manual" then Some(OperationsManual)
    else if s == "pnl_tracker" then Some(PnlTracker)
    else None
  }

  lemma PlanTypeTagRoundTrip(t: PlanType)
    ensures PlanTypeFromTag(PlanTypeTag(t)) == Some(t)
  {
  }

  // -------------------------------------------------------------- PlanStatus

  datatype PlanStatus = Draft | QuestionnaireInProgress | Generating | Review | Refining | Finalized

  const AllPlanStatuses: seq<PlanStatus> :=
    [Draft, QuestionnaireInProgress, Generating, Review, Refining, Finalized]

  function PlanStatusTag(s: PlanStatus): string {
    match s
    case Draft => "draft"
    case QuestionnaireInProgress => "questionnaire_in_progress"
    case Generating => "generating"
    case Review => "review"
    case Refining => "refining"
    case Finalized => "finalized"
  }

  function PlanStatusFromTag(s: string): (r: Option<PlanStatus>)
    ensures r.Some? ==> PlanStatusTag(r.value) == s
    ensures r.None? ==> forall t :: PlanStatusTag(t) != s
  {
    if s == "draft" then Some(Draft)
    else if s == "questionnaire_in_progress" then Some(QuestionnaireInProgress)
    else if s == "generating" then Some(Generating)
    else if s == "review" then Some(Review)
    else if s == "refining" then Some(Refining)
    else if s == "finalized" then Some(Finalized)
    else None
  }

  /** Exactly six statuses, with pairwise distinct spellings. */
  lemma PlanStatusesClosed()
    ensures |AllPlanStatuses| == 6
    ensures forall t: PlanStatus :: t in AllPlanStatuses
    ensures forall i, j :: 0 <= i < j < |AllPlanStatuses| ==>
      PlanStatusTag(AllPlanStatuses[i]) != PlanStatusTag(AllPlanStatuses[j])
  {
    forall t: PlanStatus ensures t in AllPlanStatuses {
      match t
      case Draft => assert AllPlanStatuses[0] == t;
      case QuestionnaireInProgress => assert AllPlanStatuses[1] == t;
      case Generating => assert AllPlanStatuses[2] == t;
      case Review => assert AllPlanStatuses[3] == t;
      case Refining => assert AllPlanStatuses[4] == t;
      case Finalized => assert AllPlanStatuses[5] == t;
    }
  }

  // ------------------------------------------------------- MilestoneCategory

  datatype MilestoneCategory = Revenue | Product | Marketing | Operations | Hiring | Other

  const AllMilestoneCategories: seq<MilestoneCategory> :=
    [Revenue, Product, Marketing, Operations, Hiring, Other]

  function MilestoneCategoryTag(c: MilestoneCategory): string {
    match c
    case Revenue => "revenue"
    case Product => "product"
    case Marketing => "marketing"
    case Operations => "operations"
    case Hiring => "hiring"
    case Other => "other"
  }

  lemma MilestoneCategoriesClosed()
    ensures |AllMilestoneCategories| == 6
    ensures forall c: MilestoneCategory :: c in AllMilestoneCategories
    ensures forall i, j :: 0 <= i < j < |AllMilestoneCategories| ==>
      MilestoneCategoryTag(AllMilestoneCategories[i]) != MilestoneCategoryTag(AllMilestoneCategories[j])
  {
    forall c: MilestoneCategory ensures c in AllMilestoneCategories {
      match c
      case Revenue => assert AllMilestoneCategories[0] == c;
      case Product => assert AllMilestoneCategories[1] == c;
      case Marketing => assert AllMilestoneCategories[2] == c;
      case Operations => assert AllMilestoneCategories[3] == c;
      case Hiring => assert AllMilestoneCategories[4] == c;
      case Other => assert AllMilestoneCategories[5] == c;
    }
  }

  // --------------------------------------------------------- MilestoneStatus

  datatype MilestoneStatus = NotStarted | InProgress | Completed | Blocked | Deferred

  const AllMilestoneStatuses: seq<MilestoneStatus> := [NotStarted, InProgress, Completed, Blocked, Deferred]

  function MilestoneStatusTag(s: MilestoneStatus): string {
    match s
    case NotStarted => "not_started"
    case InProgress => "in_progress"
    case Completed => "completed"
    case Blocked => "blocked"
    case Deferred => "deferred"
  }

  lemma MilestoneStatusesClosed()
    ensures |AllMilestoneStatuses| == 5
    ensures forall s: MilestoneStatus :: s in AllMilestoneStatuses
    ensures forall i, j :: 0 <= i < j < |AllMilestoneStatuses| ==>
      MilestoneStatusTag(AllMilestoneStatuses[i]) != MilestoneStatusTag(AllMilestoneStatuses[j])
  {
    forall s: MilestoneStatus ensures s in AllMilestoneStatuses {
      match s
      case NotStarted => assert AllMilestoneStatuses[0] == s;
      case InProgress => assert AllMilestoneStatuses[1] == s;
      case Completed => assert AllMilestoneStatuses[2] == s;
      case Blocked => assert AllMilestoneStatuses[3] == s;
      case Deferred => assert AllMilestoneStatuses[4] == s;
    }
  }

  // ------------------------------------------------- other closed value sets

  datatype CheckInStatus = Scheduled | Pending | CheckInCompleted | Skipped

  datatype RefinementStatus = RefinementPending | RefinementProcessing | RefinementCompleted

  /** Milestone priority: 1 high, 2 medium, 3 low. */
  type Priority = p: int | 1 <= p <= 3 witness 2

  /** Check-in mood score. */
  type MoodScore = m: int | 1 <= m <= 5 witness 3

  // ------------------------------------------------------------------ rows

  /** A plan row. `generation_version` is a number in the row type (the insert
      type leaves it optional, for the database default). */
  datatype Plan = Plan(
    id: string,
    userId: string,
    planType: PlanType,
    status: PlanStatus,
    title: Option<string>,
    questionnaireResponses: Responses,
    questionnaireCompletedAt: Option<Timestamp>,
    generatedContent: Option<SectionContent>,
    generationVersion: int,
    finalizedContent: Option<SectionContent>,
    finalizedAt: Option<Timestamp>)

  /** An audit row for one refinement request. */
  datatype Refinement = Refinement(
    id: string,
    planId: string,
    sectionKey: Option<string>,
    userFeedback: string,
    previousContent: Option<string>,
    refinedContent: Option<string>,
    status: RefinementStatus,
    completedAt: Option<Timestamp>)

  datatype Milestone = Milestone(
    id: string,
    planId: string,
    userId: string,
    title: string,
    description: Option<string>,
    targetDate: Option<string>,
    category: MilestoneCategory,
    priority: Priority,
    status: MilestoneStatus,
    completionNotes: Option<string>,
    completedAt: Option<Timestamp>)

  datatype Insights = Insights(
    encouragement: string,
    suggestions: seq<string>,
    potentialRisks: seq<string>,
    celebrationWorthy: bool)

  datatype CheckIn = CheckIn(
    id: string,
    userId: string,
    planId: Option<string>,
    scheduledFor: Timestamp,
    completedAt: Option<Timestamp>,
    wins: seq<string>,
    challenges: seq<string>,
    blockers: seq<string>,
    nextWeekPriorities: seq<string>,
    moodScore: Option<MoodScore>,
    notes: Option<string>,
    aiInsights: Option<Insights>,
    status: CheckInStatus)
}
