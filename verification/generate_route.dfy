/** The `POST /api/generate` handler as a transition of the plan store: the
    guards, the `generating` status written before the model call, the
    wholesale replacement of the generated content on success, and the
    reset attempted when anything throws. */
module GenerateRoute {
  import opened Wrappers
  import opened QuestionnaireTypes
  import opened DatabaseTypes
  import opened PlanStore
  import BusinessPlanPrompt
  import GtmPlanPrompt
  import ResponseExtraction

  /** The request body: JSON that does not parse, or its `planId` field. */
  datatype Body = Unparsable | Json(planId: Option<string>)

  /** What the handler reads from outside: the signed-in user's id, the
      clock, number formatting, the model (its reply or the error it
      throws), `JSON.parse` at the generated-content type, and whether the
      final update reports an error. */
  datatype Env = Env(
    user: Option<string>,
    now: Timestamp,
    showNumber: real -> string,
    model: ModelPrompt -> Result<string, string>,
    parse: string -> Option<SectionContent>,
    updateFails: bool)

  /** How the `try` block ends: a returned response, or a thrown error after
      the steps taken so far. */
  datatype Attempt = Returned(response: Response, steps: seq<Step>) | Threw(stepsBefore: seq<Step>) {
    /** The steps taken either way. */
    function Trace(): seq<Step> {
      if Returned? then steps else stepsBefore
    }
  }

  /** The handler's response and every step it took, in order. */
  datatype Outcome = Outcome(response: Response, steps: seq<Step>)

  /** A string field is truthy when present and non-empty. */
  predicate Given(s: Option<string>) {
    s.Some? && s.value != ""
  }

  /** The lookup on both `id` and `user_id` finds the plan. */
  predicate Owns(db: Db, id: string, user: string) {
    id in db.plans && db.plans[id].userId == user
  }

  /** The request gets past all three guards. */
  predicate Admitted(db: Db, body: Body, env: Env) {
    body.Json? && Given(body.planId) && env.user.Some? && Owns(db, body.planId.value, env.user.value)
  }

  /** Only the two questionnaire-backed plan types can be generated. */
  predicate Supported(t: PlanType) {
    t == BusinessPlan || t == GtmPlan
  }

  /** The model request for a plan of the given type and answers: `None`
      for an unsupported plan type, a failure for the `TypeError` thrown
      when a list answer is not a list. */
  function GenerationPrompt(planType: PlanType, answers: Responses, num: real -> string): (r: Option<Result<ModelPrompt, string>>)
    ensures r.None? <==> !Supported(planType)
    ensures r.Some? && r.value.Success? ==>
              (r.value.value.BusinessPlanRequest? <==> planType == BusinessPlan)
              && (r.value.value.GtmPlanRequest? <==> planType == GtmPlan)
  {
    match planType
    case BusinessPlan =>
      Some(match BusinessPlanPrompt.BuildPrompt(BusinessPlanPrompt.MapResponsesToContext(answers), num)
           case Success(lines) => Success(BusinessPlanRequest(lines))
           case Failure(e) => Failure(e))
    case GtmPlan =>
      Some(match GtmPlanPrompt.BuildPrompt(GtmPlanPrompt.MapResponsesToContext(answers), num)
           case Success(lines) => Success(GtmPlanRequest(lines))
           case Failure(e) => Failure(e))
    case _ => None
  }

  /** The two pure steps the handler calls out to: building the model
      request from a plan's type and answers, and reading the model's
      reply as generated content (failing with the error thrown). */
  datatype Services = Services(
    build: (PlanType, Responses) -> Option<Result<ModelPrompt, string>>,
    read: string -> Result<SectionContent, string>)

  /** The services the handler uses: the two prompt modules and
      `parseJSONResponse` as written. */
  function WiredAsWritten(env: Env): Services {
    Services((t: PlanType, answers: Responses) => GenerationPrompt(t, answers, env.showNumber),
             (reply: string) => ResponseExtraction.ParseJSONResponse(reply, env.parse))
  }

  /** The same services with the corrected span choice in
      `parseJSONResponse`. */
  function Wired(env: Env): Services {
    Services((t: PlanType, answers: Responses) => GenerationPrompt(t, answers, env.showNumber),
             (reply: string) => ResponseExtraction.ParseJSONResponseCorrected(reply, env.parse))
  }

  /** The update a successful generation writes. */
  function GeneratedPatch(version: int, content: SectionContent, now: Timestamp): PlanPatch {
    PlanPatch(Some(Review), Some(content), Some(version + 1), Some(now))
  }

  /** The write that marks plan `id` as generating. */
  function Marked(id: string): seq<Step> {
    [Effect(UpdatePlan(id, StatusPatch(Generating)))]
  }

  /** The mark, alone or followed by a model call, leaves the row
      `generating` and otherwise as it was. */
  lemma MarkedPatch(p: Plan, id: string, s: seq<Step>)
    requires s == Marked(id) || (|s| == 2 && s[0] == Marked(id)[0] && s[1].AskModel?)
    ensures Patched(p, s) == p.(status := Generating)
  {
    assert PatchPlan(p, StatusPatch(Generating)) == p.(status := Generating);
    var q := p.(status := Generating);
    if |s| == 2 {
      assert s[1..][1..] == [];
      assert Patched(q, s[1..]) == Patched(q, s[1..][1..]);
    }
    assert Patched(p, s) == Patched(q, s[1..]);
  }

  /** The `try` block past the guards, for plan `id` as read and the request
      built from it: besides the request only the plan's version is
      consulted. Every trace starts by marking the plan and touches no
      other row; a success is the mark, the model call and the content
      write; a 400 comes only from a missing prompt; a throw happens right
      after the mark or right after the model call. */
  function Run(id: string, prompt: Option<Result<ModelPrompt, string>>, version: int, env: Env,
               read: string -> Result<SectionContent, string>): (a: Attempt)
    ensures OnlyPlan(a.Trace(), id)
    ensures |a.Trace()| > 0 && a.Trace()[0] == Marked(id)[0]
    ensures a.Returned? && a.response.status == 200 ==>
              && prompt.Some? && prompt.value.Success?
              && a.response.body.GeneratedBody?
              && a.steps == Marked(id) + [AskModel(prompt.value.value)]
                              + [Effect(UpdatePlan(id, GeneratedPatch(version, a.response.body.content, env.now)))]
    ensures a.Returned? && a.response.status != 200 ==>
              prompt.None? && a == Returned(Response(400, ErrorBody("Unsupported plan type")), Marked(id))
    ensures a.Threw? ==>
              a.stepsBefore == Marked(id) || (prompt.Some? && prompt.value.Success? && a.stepsBefore == Marked(id) + [AskModel(prompt.value.value)])
  {
    var marked := Marked(id);
    match prompt
    case None => Returned(Response(400, ErrorBody("Unsupported plan type")), marked)
    case Some(Failure(_)) => Threw(marked)
    case Some(Success(request)) =>
      var asked := marked + [AskModel(request)];
      match env.model(request)
      case Failure(_) => Threw(asked)
      case Success(reply) =>
        match read(reply)
        case Failure(_) => Threw(asked)
        case Success(content) =>
          if env.updateFails then Threw(asked)
          else Returned(Response(200, GeneratedBody(id, content)),
                        asked + [Effect(UpdatePlan(id, GeneratedPatch(version, content, env.now)))])
  }

  /** The `try` block of `POST`, with the given services. */
  function Try(svc: Services, db: Db, body: Body, env: Env): (a: Attempt)
    ensures a.Returned? && a.steps == [] <==> !Admitted(db, body, env) && body.Json?
    ensures body.Json? && !Given(body.planId) ==> a == Returned(Response(400, ErrorBody("Plan ID is required")), [])
    ensures body.Json? && Given(body.planId) && env.user.None? ==> a == Returned(Response(401, ErrorBody("Unauthorized")), [])
    ensures body.Json? && Given(body.planId) && env.user.Some? && !Owns(db, body.planId.value, env.user.value) ==>
              a == Returned(Response(404, ErrorBody("Plan not found")), [])
  {
    match body
    case Unparsable => Threw([])
    case Json(planId) =>
      if !Given(planId) then Returned(Response(400, ErrorBody("Plan ID is required")), [])
      else if env.user.None? then Returned(Response(401, ErrorBody("Unauthorized")), [])
      else if !Owns(db, planId.value, env.user.value) then Returned(Response(404, ErrorBody("Plan not found")), [])
      else
        var plan := db.plans[planId.value];
        Run(planId.value, svc.build(plan.planType, plan.questionnaireResponses), plan.generationVersion, env, svc.read)
  }

  /** The reply when the `try` block throws. */
  const ServerError := Response(500, ErrorBody("Failed to generate plan"))

  /** `POST` as written, for any services. The cleanup re-reads the body
      through `request.clone()`, but `request.json()` has already consumed
      the body, so `clone()` throws a `TypeError` that the inner `catch`
      swallows: the reset is never written. */
  function GenerateAsWrittenWith(svc: Services, db: Db, body: Body, env: Env): (o: Outcome)
    ensures Try(svc, db, body, env).Threw? <==> o.response == ServerError
  {
    match Try(svc, db, body, env)
    case Returned(response, steps) => Outcome(response, steps)
    case Threw(steps) => Outcome(ServerError, steps)
  }

  /** The reset the cleanup intends: the plan back to
      `questionnaire_in_progress`. */
  function Reset(body: Body): seq<Step> {
    if body.Json? && body.planId.Some? then [Effect(UpdatePlan(body.planId.value, StatusPatch(QuestionnaireInProgress)))]
    else []
  }

  /** `POST` with the cleanup reading the plan id it already has, for any
      services. */
  function GenerateWith(svc: Services, db: Db, body: Body, env: Env): (o: Outcome)
    ensures Try(svc, db, body, env).Threw? <==> o.response == ServerError
  {
    match Try(svc, db, body, env)
    case Returned(response, steps) => Outcome(response, steps)
    case Threw(steps) => Outcome(ServerError, steps + Reset(body))
  }

  /** `POST` as written. */
  function GenerateAsWritten(db: Db, body: Body, env: Env): Outcome {
    GenerateAsWrittenWith(WiredAsWritten(env), db, body, env)
  }

  /** `POST` with the corrected cleanup and the corrected span choice. */
  function Generate(db: Db, body: Body, env: Env): Outcome {
    GenerateWith(Wired(env), db, body, env)
  }

  // -------------------------------------------------------------- properties

  /** The two cleanups differ only in what follows a throw: the responses
      agree, and the intended cleanup appends the reset to the trace as
      written. */
  lemma CleanupOnlyAppends(svc: Services, db: Db, body: Body, env: Env)
    ensures GenerateAsWrittenWith(svc, db, body, env).response == GenerateWith(svc, db, body, env).response
    ensures GenerateWith(svc, db, body, env).steps
      == GenerateAsWrittenWith(svc, db, body, env).steps
         + (if GenerateWith(svc, db, body, env).response == ServerError then Reset(body) else [])
  {
    if Try(svc, db, body, env).Returned? {
      assert GenerateWith(svc, db, body, env).steps + [] == GenerateWith(svc, db, body, env).steps;
    }
  }

  /** A request stopped by a guard, or whose body does not parse, writes
      nothing and asks the model nothing; an admitted one always writes.
      This holds as written and with the intended cleanup. */
  lemma GuardsWriteNothing(svc: Services, db: Db, body: Body, env: Env)
    ensures GenerateWith(svc, db, body, env).steps == [] <==> !Admitted(db, body, env)
    ensures !Admitted(db, body, env) ==> Apply(db, GenerateWith(svc, db, body, env).steps) == db
    ensures GenerateAsWrittenWith(svc, db, body, env).steps == [] <==> !Admitted(db, body, env)
    ensures !Admitted(db, body, env) ==> Apply(db, GenerateAsWrittenWith(svc, db, body, env).steps) == db
  {
    if Admitted(db, body, env) {
      assert Try(svc, db, body, env).Threw? ==> |Try(svc, db, body, env).stepsBefore| > 0;
    }
  }

  /** Once admitted, the first step is the write of `generating`, and every
      model call comes after it, as written and with the intended cleanup. */
  lemma StatusMarkedBeforeModel(svc: Services, db: Db, body: Body, env: Env)
    requires Admitted(db, body, env)
    ensures var s := GenerateWith(svc, db, body, env).steps;
      && |s| > 0 && s[0] == Effect(UpdatePlan(body.planId.value, StatusPatch(Generating)))
      && forall i :: 0 <= i < |s| && s[i].AskModel? ==> 0 < i
    ensures var s := GenerateAsWrittenWith(svc, db, body, env).steps;
      && |s| > 0 && s[0] == Effect(UpdatePlan(body.planId.value, StatusPatch(Generating)))
      && forall i :: 0 <= i < |s| && s[i].AskModel? ==> 0 < i
  {
  }

  /** Every step is a model call or an update of the requested plan, so
      nothing else is written, as written and with the intended cleanup. */
  lemma OnlyRequestedPlanWritten(svc: Services, db: Db, body: Body, env: Env)
    ensures Admitted(db, body, env) ==> OnlyPlan(GenerateWith(svc, db, body, env).steps, body.planId.value)
    ensures !Admitted(db, body, env) ==> GenerateWith(svc, db, body, env).steps == []
    ensures Admitted(db, body, env) ==> OnlyPlan(GenerateAsWrittenWith(svc, db, body, env).steps, body.planId.value)
    ensures !Admitted(db, body, env) ==> GenerateAsWrittenWith(svc, db, body, env).steps == []
  {
    GuardsWriteNothing(svc, db, body, env);
  }

  /** No other plan, no plan id and no refinement changes, as written and
      with the intended cleanup. */
  lemma OthersUnchanged(svc: Services, db: Db, body: Body, env: Env, other: string)
    requires !(body.Json? && body.planId == Some(other))
    ensures var after := Apply(db, GenerateWith(svc, db, body, env).steps);
      && after.refinements == db.refinements
      && after.plans.Keys == db.plans.Keys
      && (other in db.plans ==> after.plans[other] == db.plans[other])
    ensures var after := Apply(db, GenerateAsWrittenWith(svc, db, body, env).steps);
      && after.refinements == db.refinements
      && after.plans.Keys == db.plans.Keys
      && (other in db.plans ==> after.plans[other] == db.plans[other])
  {
    var s := GenerateWith(svc, db, body, env).steps;
    var s' := GenerateAsWrittenWith(svc, db, body, env).steps;
    OnlyRequestedPlanWritten(svc, db, body, env);
    if Admitted(db, body, env) {
      ApplyOnlyPlan(db, s, body.planId.value);
      ApplyOnlyPlan(db, s', body.planId.value);
    }
  }

  /** The only successful trace: status write, model call, content write. */
  lemma SuccessTrace(svc: Services, db: Db, body: Body, env: Env)
    requires GenerateWith(svc, db, body, env).response.status == 200
    ensures Admitted(db, body, env)
    ensures var id := body.planId.value;
      var plan := db.plans[id];
      var prompt := svc.build(plan.planType, plan.questionnaireResponses).value.value;
      var reply := env.model(prompt).value;
      var content := svc.read(reply).value;
      && GenerateWith(svc, db, body, env).response.body == GeneratedBody(id, content)
      && GenerateWith(svc, db, body, env).steps
           == [Effect(UpdatePlan(id, StatusPatch(Generating))), AskModel(prompt),
               Effect(UpdatePlan(id, GeneratedPatch(plan.generationVersion, content, env.now)))]
  {
  }

  /** Generation succeeds exactly when the request is admitted, the plan
      type is supported, the prompt builds, the model answers, its reply
      parses and the final update goes through. */
  lemma SucceedsExactly(svc: Services, db: Db, body: Body, env: Env)
    ensures GenerateWith(svc, db, body, env).response.status == 200 <==>
      && Admitted(db, body, env)
      && var plan := db.plans[body.planId.value];
         var prompt := svc.build(plan.planType, plan.questionnaireResponses);
         && prompt.Some? && prompt.value.Success?
         && env.model(prompt.value.value).Success?
         && svc.read(env.model(prompt.value.value).value).Success?
         && !env.updateFails
  {
  }

  /** On success the stored plan holds exactly the parsed content, in
      review, one version later, completed now; its other columns
      (including any finalized content) are untouched. */
  lemma SuccessReplacesContent(svc: Services, db: Db, body: Body, env: Env)
    requires GenerateWith(svc, db, body, env).response.status == 200
    ensures Admitted(db, body, env)
    ensures var id := body.planId.value;
      var before := db.plans[id];
      var content := GenerateWith(svc, db, body, env).response.body.content;
      Apply(db, GenerateWith(svc, db, body, env).steps).plans[id]
        == before.(status := Review, generatedContent := Some(content),
                   generationVersion := before.generationVersion + 1,
                   questionnaireCompletedAt := Some(env.now))
  {
    SuccessTrace(svc, db, body, env);
    OnlyRequestedPlanWritten(svc, db, body, env);
    var id := body.planId.value;
    var s := GenerateWith(svc, db, body, env).steps;
    ApplyOnlyPlan(db, s, id);
    PatchedConcat(db.plans[id], s[..2], s[2..]);
    assert s[..2] + s[2..] == s;
    MarkedPatch(db.plans[id], id, s[..2]);
  }

  /** An admitted request for a plan the builder has no prompt for gets a
      400, the model is never asked, and the plan is left `generating`. */
  lemma UnsupportedStaysGenerating(svc: Services, db: Db, body: Body, env: Env)
    requires Admitted(db, body, env)
    requires svc.build(db.plans[body.planId.value].planType, db.plans[body.planId.value].questionnaireResponses).None?
    ensures var o := GenerateWith(svc, db, body, env);
      && o.response == Response(400, ErrorBody("Unsupported plan type"))
      && (forall i :: 0 <= i < |o.steps| ==> !o.steps[i].AskModel?)
      && Apply(db, o.steps).plans[body.planId.value] == db.plans[body.planId.value].(status := Generating)
  {
    OnlyRequestedPlanWritten(svc, db, body, env);
    ApplyOnlyPlan(db, GenerateWith(svc, db, body, env).steps, body.planId.value);
  }

  /** With the intended cleanup, an admitted request that fails leaves the
      plan `questionnaire_in_progress` with every other column as it was. */
  lemma FailureResets(svc: Services, db: Db, body: Body, env: Env)
    requires Admitted(db, body, env) && GenerateWith(svc, db, body, env).response == ServerError
    ensures Apply(db, GenerateWith(svc, db, body, env).steps).plans[body.planId.value]
              == db.plans[body.planId.value].(status := QuestionnaireInProgress)
  {
    OnlyRequestedPlanWritten(svc, db, body, env);
    var id := body.planId.value;
    var before := Try(svc, db, body, env).stepsBefore;
    var s := GenerateWith(svc, db, body, env).steps;
    assert s == before + Reset(body);
    ApplyOnlyPlan(db, s, id);
    PatchedConcat(db.plans[id], before, Reset(body));
    MarkedPatch(db.plans[id], id, before);
  }

  /** As written, an admitted request that fails leaves the plan
      `generating`. */
  lemma FailureStuckAsWritten(svc: Services, db: Db, body: Body, env: Env)
    requires Admitted(db, body, env) && GenerateAsWrittenWith(svc, db, body, env).response == ServerError
    ensures Apply(db, GenerateAsWrittenWith(svc, db, body, env).steps).plans[body.planId.value]
              == db.plans[body.planId.value].(status := Generating)
  {
    var s := GenerateAsWrittenWith(svc, db, body, env).steps;
    assert s == Try(svc, db, body, env).stepsBefore;
    assert OnlyPlan(s, body.planId.value);
    ApplyOnlyPlan(db, s, body.planId.value);
    MarkedPatch(db.plans[body.planId.value], body.planId.value, s);
  }

  /** A concrete run: a plan whose model call fails. As written the plan
      stays `generating`; with the intended cleanup it returns to
      `questionnaire_in_progress`. */
  lemma ModelFailureExample()
    ensures var plan := Plan("p", "u", BusinessPlan, QuestionnaireInProgress, None, map[], None, None, 0, None, None);
      var db := Db(map["p" := plan], map[]);
      var env := Env(Some("u"), "t", (n: real) => "n", (m: ModelPrompt) => Failure("overloaded"),
                     (s: string) => None, false);
      var svc := Services((t: PlanType, a: Responses) => Some(Success(BusinessPlanRequest([]))),
                        (reply: string) => Failure("SyntaxError"));
      && GenerateAsWrittenWith(svc, db, Json(Some("p")), env).response == ServerError
      && Apply(db, GenerateAsWrittenWith(svc, db, Json(Some("p")), env).steps).plans["p"].status == Generating
      && Apply(db, GenerateWith(svc, db, Json(Some("p")), env).steps).plans["p"].status == QuestionnaireInProgress
  {
    var plan := Plan("p", "u", BusinessPlan, QuestionnaireInProgress, None, map[], None, None, 0, None, None);
    var db := Db(map["p" := plan], map[]);
    var env := Env(Some("u"), "t", (n: real) => "n", (m: ModelPrompt) => Failure("overloaded"),
                   (s: string) => None, false);
    var svc := Services((t: PlanType, a: Responses) => Some(Success(BusinessPlanRequest([]))),
                        (reply: string) => Failure("SyntaxError"));
    var body := Json(Some("p"));
    assert Admitted(db, body, env);
    FailureStuckAsWritten(svc, db, body, env);
    FailureResets(svc, db, body, env);
  }

  /** The handler never looks at the plan's status or its finalized
      columns: the response and the trace are the same whatever status,
      finalization time and finalized content the plan had, so a finalized
      plan is regenerated like any other, as written and with the intended
      cleanup. */
  lemma StatusIgnored(svc: Services, db: Db, body: Body, env: Env, id: string, s: PlanStatus,
                      f: Option<Timestamp>, c: Option<SectionContent>)
    requires id in db.plans
    ensures var db' := db.(plans := db.plans[id := db.plans[id].(status := s, finalizedAt := f, finalizedContent := c)]);
      GenerateWith(svc, db', body, env) == GenerateWith(svc, db, body, env)
    ensures var db' := db.(plans := db.plans[id := db.plans[id].(status := s, finalizedAt := f, finalizedContent := c)]);
      GenerateAsWrittenWith(svc, db', body, env) == GenerateAsWrittenWith(svc, db, body, env)
  {
  }

  /** Answers that hold lists under the list keys always give a prompt for
      a supported plan type. */
  lemma GenerationPromptBuilds(planType: PlanType, answers: Responses, num: real -> string)
    requires Supported(planType)
    requires forall p :: (BusinessPlanPrompt.ListValued(p)
               && TruthyOpt(Lookup(answers, BusinessPlanPrompt.Source(p).key))) ==>
               answers[BusinessPlanPrompt.Source(p).key].StrList?
    requires forall p :: (GtmPlanPrompt.ListValued(p)
               && TruthyOpt(Lookup(answers, GtmPlanPrompt.Source(p).key))) ==>
               answers[GtmPlanPrompt.Source(p).key].StrList?
    ensures GenerationPrompt(planType, answers, num).Some? && GenerationPrompt(planType, answers, num).value.Success?
  {
    if planType == BusinessPlan {
      BusinessPlanPrompt.MappedContextRenders(answers, num);
    } else {
      GtmPlanPrompt.MappedContextRenders(answers, num);
    }
  }

  /** With the handler's own builder, exactly the two questionnaire-backed
      plan types have a prompt, so the other two are refused with a 400
      after the plan was marked `generating`, as written and corrected
      alike. */
  lemma UnsupportedTypeRefused(db: Db, body: Body, env: Env)
    requires Admitted(db, body, env) && !Supported(db.plans[body.planId.value].planType)
    ensures var o := GenerateAsWritten(db, body, env);
      && o.response == Response(400, ErrorBody("Unsupported plan type"))
      && Apply(db, o.steps).plans[body.planId.value] == db.plans[body.planId.value].(status := Generating)
    ensures var o := Generate(db, body, env);
      && o.response == Response(400, ErrorBody("Unsupported plan type"))
      && Apply(db, o.steps).plans[body.planId.value] == db.plans[body.planId.value].(status := Generating)
  {
    var plan := db.plans[body.planId.value];
    var svc, svc' := WiredAsWritten(env), Wired(env);
    assert svc.build(plan.planType, plan.questionnaireResponses).None?;
    assert svc'.build(plan.planType, plan.questionnaireResponses).None?;
    UnsupportedStaysGenerating(svc, db, body, env);
    UnsupportedStaysGenerating(svc', db, body, env);
    CleanupOnlyAppends(svc, db, body, env);
  }
}
