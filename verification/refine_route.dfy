/** The `POST /api/refine` handler as a transition of the plan store: the
    guards, the refinement record inserted as `processing`, the plan marked
    `refining`, and on success the record completed and the one section
    merged into the generated content. Nothing is cleaned up on failure. */
module RefineRoute {
  import opened Wrappers
  import opened DatabaseTypes
  import opened PlanStore
  import RefinementPrompt
  import opened Strings

  /** The request body: JSON that does not parse, or its five fields. */
  datatype Body =
    | Unparsable
    | Json(planId: Option<string>, sectionKey: Option<string>, sectionTitle: Option<string>,
           currentContent: Option<string>, feedback: Option<string>)

  /** What the handler reads from outside: the signed-in user's id, the
      clock, the model (its reply or the error it throws), whether the
      insert of the refinement record reports an error, and the id the
      database gives the new record. */
  datatype Env = Env(
    user: Option<string>,
    now: Timestamp,
    model: ModelPrompt -> Result<string, string>,
    insertFails: bool,
    newRefinementId: string)

  /** The handler's response and every step it took, in order. */
  datatype Outcome = Outcome(response: Response, steps: seq<Step>)

  /** A string field is truthy when present and non-empty. */
  predicate Given(s: Option<string>) {
    s.Some? && s.value != ""
  }

  /** All four required fields are truthy. */
  predicate Complete(body: Body) {
    body.Json? && Given(body.planId) && Given(body.sectionKey) && Given(body.currentContent) && Given(body.feedback)
  }

  /** The request gets past all three guards. */
  predicate Admitted(db: Db, body: Body, env: Env) {
    Complete(body) && env.user.Some?
    && body.planId.value in db.plans && db.plans[body.planId.value].userId == env.user.value
  }

  /** The title the prompt names: the section title when truthy, else the
      section key. */
  function TitleOrKey(sectionTitle: Option<string>, sectionKey: string): (t: string)
    ensures Given(sectionTitle) ==> t == sectionTitle.value
    ensures !Given(sectionTitle) ==> t == sectionKey
  {
    if Given(sectionTitle) then sectionTitle.value else sectionKey
  }

  /** The content map after the refinement: the old map, or an empty one
      when there is none, with the one section set. */
  function Merge(content: Option<SectionContent>, key: string, refined: string): SectionContent {
    (if content.Some? then content.value else map[])[key := refined]
  }

  /** The record the handler inserts. */
  function NewRecord(id: string, planId: string, key: string, feedback: string, current: string): Refinement {
    Refinement(id, planId, Some(key), feedback, Some(current), None, RefinementProcessing, None)
  }

  const ServerError := Response(500, ErrorBody("Failed to refine section"))

  /** How the prompt is composed from the title, the current content and
      the feedback. */
  type Composer = (string, string, string) -> string

  /** The composer the handler uses: `buildRefinementPrompt` called
      without a business context. */
  function PromptFor(): Composer {
    (title: string, current: string, feedback: string) =>
      RefinementPrompt.BuildRefinementPrompt(title, current, feedback, None)
  }

  /** The handler past the guards, for the plan as read. */
  function Run(compose: Composer, planId: string, key: string, title: Option<string>, current: string,
               feedback: string, content: Option<SectionContent>, env: Env): (o: Outcome)
    ensures forall i :: 0 <= i < |o.steps| ==> Confined(o.steps[i], planId, env.newRefinementId)
    ensures o.response.status == 200 ==>
              && o.response.body.RefinedBody?
              && o.steps == [Effect(InsertRefinement(NewRecord(env.newRefinementId, planId, key, feedback, current))),
                             Effect(UpdatePlan(planId, StatusPatch(Refining))),
                             AskModel(RefinementRequest(compose(TitleOrKey(title, key), current, feedback))),
                             Effect(UpdateRefinement(env.newRefinementId,
                                      RefinementPatch(o.response.body.refinedContent, RefinementCompleted, env.now))),
                             Effect(UpdatePlan(planId, PlanPatch(Some(Review),
                                      Some(Merge(content, key, o.response.body.refinedContent)), None, None)))]
  {
    if env.insertFails then Outcome(ServerError, [])
    else
      var recorded := [Effect(InsertRefinement(NewRecord(env.newRefinementId, planId, key, feedback, current))),
                       Effect(UpdatePlan(planId, StatusPatch(Refining)))];
      var prompt := compose(TitleOrKey(title, key), current, feedback);
      var asked := recorded + [AskModel(RefinementRequest(prompt))];
      match env.model(RefinementRequest(prompt))
      case Failure(_) => Outcome(ServerError, asked)
      case Success(refined) =>
        Outcome(Response(200, RefinedBody(refined)),
                asked + [Effect(UpdateRefinement(env.newRefinementId, RefinementPatch(refined, RefinementCompleted, env.now))),
                         Effect(UpdatePlan(planId, PlanPatch(Some(Review), Some(Merge(content, key, refined)), None, None)))])
  }

  /** `POST`, with the prompt composed by `compose`. */
  function RefineWith(compose: Composer, db: Db, body: Body, env: Env): (o: Outcome)
  {
    match body
    case Unparsable => Outcome(ServerError, [])
    case Json(planId, key, title, current, feedback) =>
      if !Complete(body) then Outcome(Response(400, ErrorBody("Missing required fields")), [])
      else if env.user.None? then Outcome(Response(401, ErrorBody("Unauthorized")), [])
      else if !(planId.value in db.plans && db.plans[planId.value].userId == env.user.value) then
        Outcome(Response(404, ErrorBody("Plan not found")), [])
      else
        Run(compose, planId.value, key.value, title, current.value, feedback.value, db.plans[planId.value].generatedContent, env)
  }

  /** `POST`. */
  function Refine(db: Db, body: Body, env: Env): Outcome {
    RefineWith(PromptFor(), db, body, env)
  }

  // -------------------------------------------------------------- properties

  /** The merge sets the one section, keeps every other section of the old
      map, and adds nothing else; without an old map the result has the
      one section only. */
  lemma MergeSetsOneSection(content: Option<SectionContent>, key: string, refined: string)
    ensures key in Merge(content, key, refined) && Merge(content, key, refined)[key] == refined
    ensures forall k :: k != key ==>
              (k in Merge(content, key, refined) <==> content.Some? && k in content.value)
    ensures forall k :: k != key && k in Merge(content, key, refined) ==>
              Merge(content, key, refined)[k] == content.value[k]
    ensures content.None? ==> Merge(content, key, refined).Keys == {key}
  {
  }

  /** A request that does not parse, misses a field, has no user or names
      a plan the user does not own is answered with nothing written; so is
      one whose record insert fails. Every other request writes. */
  lemma GuardsWriteNothing(compose: Composer, db: Db, body: Body, env: Env)
    ensures RefineWith(compose, db, body, env).steps == [] <==> !Admitted(db, body, env) || env.insertFails
    ensures body.Json? && !Complete(body) ==> RefineWith(compose, db, body, env).response.status == 400
    ensures Complete(body) && env.user.None? ==> RefineWith(compose, db, body, env).response.status == 401
    ensures Complete(body) && env.user.Some? && !Admitted(db, body, env) ==> RefineWith(compose, db, body, env).response.status == 404
  {
  }

  /** Once admitted and recorded, the trace starts with the insert of a
      `processing` record holding the current content as the previous
      content, then marks the plan `refining`, then asks the model with the
      prompt composed from the title (or the key when the title is falsy), the
      current content and the feedback. */
  lemma RecordedBeforeModel(compose: Composer, db: Db, body: Body, env: Env)
    requires Admitted(db, body, env) && !env.insertFails
    ensures var s := RefineWith(compose, db, body, env).steps;
      var id := body.planId.value;
      && |s| >= 3
      && s[0].Effect? && s[0].write.InsertRefinement?
      && s[0].write.row.planId == id
      && s[0].write.row.sectionKey == body.sectionKey
      && s[0].write.row.userFeedback == body.feedback.value
      && s[0].write.row.previousContent == body.currentContent
      && s[0].write.row.status == RefinementProcessing
      && s[0].write.row.refinedContent.None?
      && s[1] == Effect(UpdatePlan(id, StatusPatch(Refining)))
      && s[2] == AskModel(RefinementRequest(compose(
                   TitleOrKey(body.sectionTitle, body.sectionKey.value),
                   body.currentContent.value, body.feedback.value)))
      && forall i :: 0 <= i < |s| && s[i].AskModel? ==> i == 2
  {
  }

  /** Refinement succeeds exactly when the request is admitted, the record
      is inserted and the model answers. */
  lemma SucceedsExactly(compose: Composer, db: Db, body: Body, env: Env)
    ensures RefineWith(compose, db, body, env).response.status == 200 <==>
      && Admitted(db, body, env) && !env.insertFails
      && env.model(RefineWith(compose, db, body, env).steps[2].prompt).Success?
  {
    if RefineWith(compose, db, body, env).response.status == 200 {
      RecordedBeforeModel(compose, db, body, env);
    } else if Admitted(db, body, env) && !env.insertFails {
      RecordedBeforeModel(compose, db, body, env);
    }
  }

  /** The tables after a successful run past the guards: the record
      completed, the plan in review with the one section merged. */
  lemma RunSuccessState(compose: Composer, db: Db, planId: string, key: string, title: Option<string>,
                        current: string, feedback: string, env: Env)
    requires planId in db.plans
    requires Run(compose, planId, key, title, current, feedback, db.plans[planId].generatedContent, env).response.status == 200
    ensures var o := Run(compose, planId, key, title, current, feedback, db.plans[planId].generatedContent, env);
      var refined := o.response.body.refinedContent;
      var after := Apply(db, o.steps);
      && after.plans[planId]
           == db.plans[planId].(status := Review, generatedContent := Some(Merge(db.plans[planId].generatedContent, key, refined)))
      && env.newRefinementId in after.refinements
      && after.refinements[env.newRefinementId]
           == Refinement(env.newRefinementId, planId, Some(key), feedback, Some(current), Some(refined),
                         RefinementCompleted, Some(env.now))
  {
    var o := Run(compose, planId, key, title, current, feedback, db.plans[planId].generatedContent, env);
    var s := o.steps;
    ApplyFive(db, s[0], s[1], s[2], s[3], s[4]);
  }

  /** A successful refinement puts the plan back in review with only the
      refined section replaced, and leaves the new record completed with
      the reply and the time, holding the key, the feedback and the
      previous content it was inserted with. */
  lemma SuccessState(compose: Composer, db: Db, body: Body, env: Env)
    requires RefineWith(compose, db, body, env).response.status == 200
    ensures Admitted(db, body, env)
    ensures var id := body.planId.value;
      var refined := RefineWith(compose, db, body, env).response.body.refinedContent;
      var after := Apply(db, RefineWith(compose, db, body, env).steps);
      && after.plans[id]
           == db.plans[id].(status := Review,
                            generatedContent := Some(Merge(db.plans[id].generatedContent, body.sectionKey.value, refined)))
      && env.newRefinementId in after.refinements
      && after.refinements[env.newRefinementId]
           == Refinement(env.newRefinementId, id, body.sectionKey, body.feedback.value,
                         body.currentContent, Some(refined), RefinementCompleted, Some(env.now))
  {
    RunSuccessState(compose, db, body.planId.value, body.sectionKey.value, body.sectionTitle,
                    body.currentContent.value, body.feedback.value, env);
  }

  /** When the model fails, the reply is a 500 and nothing is cleaned up:
      the plan stays `refining` and the record stays `processing`. */
  lemma ModelFailureLeavesRefining(compose: Composer, db: Db, body: Body, env: Env)
    requires Admitted(db, body, env) && !env.insertFails
    requires env.model(RefineWith(compose, db, body, env).steps[2].prompt).Failure?
    ensures RefineWith(compose, db, body, env).response == ServerError
    ensures var id := body.planId.value;
      var after := Apply(db, RefineWith(compose, db, body, env).steps);
      && after.plans[id] == db.plans[id].(status := Refining)
      && env.newRefinementId in after.refinements
      && after.refinements[env.newRefinementId].status == RefinementProcessing
  {
    RecordedBeforeModel(compose, db, body, env);
    var s := RefineWith(compose, db, body, env).steps;
    assert s == [s[0]] + ([s[1]] + ([s[2]] + []));
    ApplyCons(db, s[0], s[1..]);
    var d1 := Next(db, s[0]);
    ApplyCons(d1, s[1], s[2..]);
    var d2 := Next(d1, s[1]);
    ApplyCons(d2, s[2], []);
  }

  /** No other plan and no other refinement record changes. */
  lemma OthersUnchanged(compose: Composer, db: Db, body: Body, env: Env, otherPlan: string, otherRecord: string)
    requires !(body.Json? && body.planId == Some(otherPlan)) && otherRecord != env.newRefinementId
    ensures var after := Apply(db, RefineWith(compose, db, body, env).steps);
      && (otherPlan in db.plans ==> after.plans[otherPlan] == db.plans[otherPlan])
      && (otherRecord in after.refinements <==> otherRecord in db.refinements)
      && (otherRecord in db.refinements ==> after.refinements[otherRecord] == db.refinements[otherRecord])
  {
    if Admitted(db, body, env) {
      ApplyConfined(db, RefineWith(compose, db, body, env).steps, body.planId.value, env.newRefinementId,
                    otherPlan, otherRecord);
    }
  }

  /** The handler's own prompt names the section (its title, or its key
      when the title is falsy), then the current content, then the
      feedback, carries no business context, and ends with the Task instructions. */
  lemma PromptNamesSection(db: Db, body: Body, env: Env)
    requires Admitted(db, body, env) && !env.insertFails
    ensures var t := TitleOrKey(body.sectionTitle, body.sectionKey.value);
      var c := body.currentContent.value;
      var f := body.feedback.value;
      var p := RefinementPrompt.BuildRefinementPrompt(t, c, f, None);
      && Refine(db, body, env).steps[2] == AskModel(RefinementRequest(p))
      && OccursAt(p, |RefinementPrompt.SectionHead|, t)
      && OccursAt(p, RefinementPrompt.ContentAt(t), c)
      && OccursAt(p, RefinementPrompt.FeedbackAt(t, c), f)
      && p == RefinementPrompt.Head(t, c, f) + RefinementPrompt.TaskBlock
  {
    var t := TitleOrKey(body.sectionTitle, body.sectionKey.value);
    RecordedBeforeModel(PromptFor(), db, body, env);
    RefinementPrompt.ContextBlockPlacement(t, body.currentContent.value, body.feedback.value, None);
  }
}
