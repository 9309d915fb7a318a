/** The two tables the generate and refine handlers write, the writes they
    issue, and the state a trace of those writes leaves behind. A handler is
    modelled as a pure function returning its HTTP response and the trace of
    steps it took in order: the writes that took effect and the model calls
    between them. */
module PlanStore {
  import opened Wrappers
  import opened DatabaseTypes
  import opened PromptLines
  import BusinessPlanPrompt
  import GtmPlanPrompt

  /** The `plans` and `refinements` tables, keyed by row id. */
  datatype Db = Db(plans: map<string, Plan>, refinements: map<string, Refinement>)

  /** The columns one `plans` update sets; `None` leaves a column alone. */
  datatype PlanPatch = PlanPatch(
    status: Option<PlanStatus>,
    generatedContent: Option<SectionContent>,
    generationVersion: Option<int>,
    questionnaireCompletedAt: Option<Timestamp>)

  /** An update that only sets the status. */
  function StatusPatch(s: PlanStatus): PlanPatch {
    PlanPatch(Some(s), None, None, None)
  }

  /** The columns the refine handler's second refinement update sets. */
  datatype RefinementPatch = RefinementPatch(refinedContent: string, status: RefinementStatus, completedAt: Timestamp)

  /** One database write. An update is filtered on the row id alone, so it
      changes at most one row and none when the id is unknown. */
  datatype Write =
    | UpdatePlan(planId: string, patch: PlanPatch)
    | InsertRefinement(row: Refinement)
    | UpdateRefinement(refinementId: string, change: RefinementPatch)

  /** A model request: the filled-in business-plan or go-to-market template
      (each sent with its own system prompt), or the refinement prompt. */
  datatype ModelPrompt =
    | BusinessPlanRequest(businessLines: seq<Line<BusinessPlanPrompt.Prop>>)
    | GtmPlanRequest(gtmLines: seq<Line<GtmPlanPrompt.Prop>>)
    | RefinementRequest(text: string)

  /** A step of a handler: a write that took effect, or a model call. */
  datatype Step = Effect(write: Write) | AskModel(prompt: ModelPrompt)

  /** The HTTP reply: a status code and the JSON body's shape. */
  datatype ResponseBody =
    | ErrorBody(message: string)
    | GeneratedBody(planId: string, content: SectionContent)
    | RefinedBody(refinedContent: string)

  datatype Response = Response(status: int, body: ResponseBody)

  /** A plan row after an update: the set columns replaced, all others kept. */
  function PatchPlan(p: Plan, patch: PlanPatch): (q: Plan)
    ensures q.id == p.id && q.userId == p.userId && q.planType == p.planType
    ensures q.questionnaireResponses == p.questionnaireResponses
    ensures q.finalizedContent == p.finalizedContent && q.finalizedAt == p.finalizedAt
    ensures q.status == (if patch.status.Some? then patch.status.value else p.status)
    ensures q.generatedContent == (if patch.generatedContent.Some? then patch.generatedContent else p.generatedContent)
    ensures q.generationVersion == (if patch.generationVersion.Some? then patch.generationVersion.value else p.generationVersion)
    ensures q.questionnaireCompletedAt == (if patch.questionnaireCompletedAt.Some? then patch.questionnaireCompletedAt else p.questionnaireCompletedAt)
  {
    p.(status := if patch.status.Some? then patch.status.value else p.status,
       generatedContent := if patch.generatedContent.Some? then patch.generatedContent else p.generatedContent,
       generationVersion := if patch.generationVersion.Some? then patch.generationVersion.value else p.generationVersion,
       questionnaireCompletedAt := if patch.questionnaireCompletedAt.Some? then patch.questionnaireCompletedAt else p.questionnaireCompletedAt)
  }

  /** The tables after one write; no write adds or removes a plan. */
  function ApplyWrite(db: Db, w: Write): (r: Db)
    ensures r.plans.Keys == db.plans.Keys
  {
    match w
    case UpdatePlan(id, patch) =>
      if id in db.plans then db.(plans := db.plans[id := PatchPlan(db.plans[id], patch)]) else db
    case InsertRefinement(row) =>
      db.(refinements := db.refinements[row.id := row])
    case UpdateRefinement(id, change) =>
      if id in db.refinements then
        db.(refinements := db.refinements[id := db.refinements[id].(
          refinedContent := Some(change.refinedContent),
          status := change.status,
          completedAt := Some(change.completedAt))])
      else db
  }

  /** The tables after a trace; model calls change nothing, and the set of
      plans stays the same. */
  function Apply(db: Db, steps: seq<Step>): (r: Db)
    ensures r.plans.Keys == db.plans.Keys
    decreases |steps|
  {
    if |steps| == 0 then db
    else Apply(Next(db, steps[0]), steps[1..])
  }

  /** The tables after one step. */
  function Next(db: Db, s: Step): (r: Db)
    ensures r.plans.Keys == db.plans.Keys
  {
    if s.Effect? then ApplyWrite(db, s.write) else db
  }

  /** Applying a trace is taking its first step, then the rest. */
  lemma ApplyCons(db: Db, s: Step, rest: seq<Step>)
    ensures Apply(db, [s] + rest) == Apply(Next(db, s), rest)
  {
    assert ([s] + rest)[1..] == rest;
  }

  /** Applying two traces one after the other is applying their
      concatenation. */
  lemma {:induction false} ApplyConcat(db: Db, a: seq<Step>, b: seq<Step>)
    ensures Apply(db, a + b) == Apply(Apply(db, a), b)
    decreases |a|
  {
    if |a| > 0 {
      var next := Next(db, a[0]);
      assert (a + b)[0] == a[0];
      assert (a + b)[1..] == a[1..] + b;
      ApplyConcat(next, a[1..], b);
    } else {
      assert a + b == b;
    }
  }

  /** Whether a step writes to the plan with the given id. */
  predicate WritesPlan(s: Step, id: string) {
    s.Effect? && s.write.UpdatePlan? && s.write.planId == id
  }

  /** Whether a step writes to the refinements table. */
  predicate WritesRefinement(s: Step) {
    s.Effect? && !s.write.UpdatePlan?
  }

  /** A plan no step writes to is left exactly as it was (present or
      absent), whatever else the trace does. */
  lemma {:induction false} ApplyUntouched(db: Db, steps: seq<Step>, id: string)
    requires forall i :: 0 <= i < |steps| ==> !WritesPlan(steps[i], id)
    ensures (id in Apply(db, steps).plans) == (id in db.plans)
    ensures id in db.plans ==> Apply(db, steps).plans[id] == db.plans[id]
    decreases |steps|
  {
    if |steps| > 0 {
      var next := Next(db, steps[0]);
      assert !WritesPlan(steps[0], id);
      ApplyUntouched(next, steps[1..], id);
    }
  }

  /** A trace without refinement writes leaves that table as it was. */
  lemma {:induction false} ApplyKeepsRefinements(db: Db, steps: seq<Step>)
    requires forall i :: 0 <= i < |steps| ==> !WritesRefinement(steps[i])
    ensures Apply(db, steps).refinements == db.refinements
    decreases |steps|
  {
    if |steps| > 0 {
      var next := Next(db, steps[0]);
      assert !WritesRefinement(steps[0]);
      ApplyKeepsRefinements(next, steps[1..]);
    }
  }

  /** Every step is a model call or an update of plan `id`. */
  predicate OnlyPlan(steps: seq<Step>, id: string) {
    forall i :: 0 <= i < |steps| ==> steps[i].AskModel? || WritesPlan(steps[i], id)
  }

  /** A plan row after the plan updates of a trace, in order. */
  function Patched(p: Plan, steps: seq<Step>): Plan
    decreases |steps|
  {
    if |steps| == 0 then p
    else if steps[0].Effect? && steps[0].write.UpdatePlan? then Patched(PatchPlan(p, steps[0].write.patch), steps[1..])
    else Patched(p, steps[1..])
  }

  /** A five-step trace, one step at a time. */
  lemma ApplyFive(db: Db, a: Step, b: Step, c: Step, d: Step, e: Step)
    ensures Apply(db, [a, b, c, d, e]) == Next(Next(Next(Next(Next(db, a), b), c), d), e)
  {
    ApplyCons(db, a, [b, c, d, e]);
    ApplyCons(Next(db, a), b, [c, d, e]);
    ApplyCons(Next(Next(db, a), b), c, [d, e]);
    ApplyCons(Next(Next(Next(db, a), b), c), d, [e]);
    ApplyCons(Next(Next(Next(Next(db, a), b), c), d), e, []);
  }

  /** Patching with two traces in turn is patching with their
      concatenation. */
  lemma {:induction false} PatchedConcat(p: Plan, a: seq<Step>, b: seq<Step>)
    ensures Patched(p, a + b) == Patched(Patched(p, a), b)
    decreases |a|
  {
    if |a| == 0 {
      assert a + b == b;
    } else {
      assert (a + b)[0] == a[0];
      assert (a + b)[1..] == a[1..] + b;
      if a[0].Effect? && a[0].write.UpdatePlan? {
        PatchedConcat(PatchPlan(p, a[0].write.patch), a[1..], b);
      } else {
        PatchedConcat(p, a[1..], b);
      }
    }
  }

  /** A trace that only updates plan `id` changes that row alone, to the
      row its updates produce one after the other. */
  lemma {:induction false} ApplyOnlyPlan(db: Db, steps: seq<Step>, id: string)
    requires id in db.plans && OnlyPlan(steps, id)
    ensures Apply(db, steps) == db.(plans := db.plans[id := Patched(db.plans[id], steps)])
    decreases |steps|
  {
    if |steps| == 0 {
      assert db.plans[id := db.plans[id]] == db.plans;
    } else {
      var next := Next(db, steps[0]);
      assert steps[0].AskModel? || WritesPlan(steps[0], id);
      assert OnlyPlan(steps[1..], id) by {
        forall i | 0 <= i < |steps[1..]| ensures steps[1..][i].AskModel? || WritesPlan(steps[1..][i], id) {
          assert steps[1..][i] == steps[i + 1];
        }
      }
      ApplyOnlyPlan(next, steps[1..], id);
      assert next.plans[id := Patched(next.plans[id], steps[1..])] == db.plans[id := Patched(db.plans[id], steps)];
    }
  }

  /** A step writes only plan `planId` and refinement record `recordId`. */
  predicate Confined(s: Step, planId: string, recordId: string) {
    match s
    case AskModel(_) => true
    case Effect(UpdatePlan(p, _)) => p == planId
    case Effect(InsertRefinement(row)) => row.id == recordId
    case Effect(UpdateRefinement(r, _)) => r == recordId
  }

  /** A trace confined to one plan and one record leaves every other plan
      and every other record as it was. */
  lemma {:induction false} ApplyConfined(db: Db, steps: seq<Step>, planId: string, recordId: string,
                                         otherPlan: string, otherRecord: string)
    requires forall i :: 0 <= i < |steps| ==> Confined(steps[i], planId, recordId)
    requires otherPlan != planId && otherRecord != recordId
    ensures otherPlan in db.plans ==> Apply(db, steps).plans[otherPlan] == db.plans[otherPlan]
    ensures (otherRecord in Apply(db, steps).refinements) == (otherRecord in db.refinements)
    ensures otherRecord in db.refinements ==> Apply(db, steps).refinements[otherRecord] == db.refinements[otherRecord]
    decreases |steps|
  {
    if |steps| > 0 {
      assert Confined(steps[0], planId, recordId);
      ApplyConfined(Next(db, steps[0]), steps[1..], planId, recordId, otherPlan, otherRecord);
    }
  }
}
