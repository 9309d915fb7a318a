# Planning assistant core, modelled in Dafny

This project models the decision logic of a web application that takes a founder through a multi-step questionnaire. The application sends the answers to a language model to generate a business plan or a go-to-market (GTM) plan. Plan sections can then be refined with free-text feedback, and finalized plans are tracked through milestones. Everything around that logic is replaced by parameters and returned records: the database, the model provider, the router, React state and rendering. What remains is a set of pure functions over immutable datatypes, together with the properties the code promises.

| file | module | what it models |
|---|---|---|
| wrappers.dfy | Wrappers | `Option` and `Result` |
| strings.dfy | Strings | prefixes, suffixes, occurrences, trimming, joining |
| questionnaire_types.dfy | QuestionnaireTypes | questions, conditional display rules, answer values and JavaScript truthiness |
| database_types.dfy | DatabaseTypes | the closed enums and the plan, refinement and milestone records |
| use_questionnaire.dfy | QuestionnaireEngine | step validation, answer updates and imports, the saved progress, the autosave guard |
| question_renderer.dfy | QuestionRenderer | the conditional display check, the multi-select toggle, the values the scale and yes/no inputs emit |
| import_mapper.dfy | ImportMapper | the business plan to GTM answer copy and its preview |
| claude_client.dfy | ResponseExtraction | pulling the JSON text out of a model reply |
| prompt_lines.dfy | PromptLines | prompt templates as slot lists rendered against a context |
| business_plan_prompt.dfy | BusinessPlanPrompt | the answer-to-context mapper, the conditional prompt lines, the section keys |
| gtm_plan_prompt.dfy | GtmPlanPrompt | the same for the GTM plan |
| refinement_prompt.dfy | RefinementPrompt | the layout of the refinement prompt and the milestone extraction enums |
| plan_store.dfy | PlanStore | the database as records, and the writes the handlers perform |
| generate_route.dfy | GenerateRoute | the generate handler as guards plus a trace of writes |
| refine_route.dfy | RefineRoute | the refine handler, its refinement record and its section merge |
| routes.dfy | Routes | the in-app links and their text |
| questionnaire_shell.dfy | QuestionnaireShell | next/back navigation, the import banner, the import handler |
| step_indicator.dfy | StepIndicator | completed and current flags, connectors |
| plan_viewer.dfy | PlanViewer | section paging, the refine request, finalized gating, the print content |
| plan_journey.dfy | PlanJourney | the two-step planning journey: status, link, lock, action |
| milestone_actions.dfy | MilestoneActions | the status moves offered per milestone status, and the update they write |
| sidebar.dfy | Sidebar | the active-entry rule over the navigation list |
| milestone_filters.dfy | MilestoneFilters | the plan filter's query update, the Clear button, the option labels |

A route handler is a pure function from the database, the request body and an environment to a response and a list of steps. The steps are writes and model calls, and the database afterwards is the writes applied in order. The model provider, `JSON.parse`, the signed-in user, the clock and the write failures are fields of the environment. So every outcome the code can reach, errors included, is a choice of inputs.

## Model

| member | source | states |
|---|---|---|
| Strings.Utf16Length | src/lib/hooks/use-questionnaire.ts:125-130 | JavaScript's `length` counts between one and two code units per character, and equals the character count exactly when every character is in the Basic Multilingual Plane |
| Strings.Includes | src/components/questionnaire/question-renderer.tsx:99 | a string's `includes` holds exactly when the pattern occurs in it, the empty pattern always |
| QuestionnaireTypes.Lookup | src/lib/questionnaires/types.ts:59 | a response is found exactly for the ids the record holds, and it is the stored value |
| QuestionnaireTypes.QuestionTypesClosed | src/lib/questionnaires/types.ts:1-9 | there are exactly eight question types, with pairwise distinct spellings |
| QuestionnaireEngine.QuestionPasses | src/lib/hooks/use-questionnaire.ts:105-135 | a question hidden by its display condition, or not required, passes; a shown required one passes exactly when its answer is not missing (absent, null, empty string, empty list) and a string answer keeps within the non-zero length bounds, counted in UTF-16 code units |
| QuestionnaireEngine.ValidateStep | src/lib/hooks/use-questionnaire.ts:100-138 | an index with no step fails; otherwise the step passes exactly when every question of it passes |
| QuestionnaireEngine.FalseAnswersARequiredQuestion | src/lib/hooks/use-questionnaire.ts:116-120 | a required question answered `false` counts as answered |
| QuestionnaireEngine.LengthBoundsIgnoreLists | src/lib/hooks/use-questionnaire.ts:123-131 | a required question answered with a one-item list passes whatever its length bounds, since the bounds only apply to strings |
| QuestionnaireEngine.AstralCharacterCountsTwice | src/lib/hooks/use-questionnaire.ts:124-131 | one emoji is two code units, so it fails a required question whose `maxLength` is 1 |
| QuestionnaireEngine.UpdateAnswer | src/lib/hooks/use-questionnaire.ts:49-54 | the answer under the question id becomes the value; every other answer is kept and no other key appears |
| QuestionnaireEngine.MergedAnswers | src/lib/hooks/use-questionnaire.ts:57-67 | the merged keys are the old ones plus the incoming keys whose value is defined; defined incoming values win and every other old answer is kept |
| QuestionnaireEngine.ImportAnswers | src/lib/hooks/use-questionnaire.ts:57-67 | the loop over the incoming entries computes the merge above (keys, defined values win, old answers kept) |
| QuestionnaireEngine.SaveProgress | src/lib/hooks/use-questionnaire.ts:70-86 | a failed update leaves the row as it was and records the message; a successful one stores exactly the answers with status `questionnaire_in_progress`, changes no other column and does not clear an earlier error |
| QuestionnaireEngine.LoadAnswers | src/lib/hooks/use-questionnaire.ts:24-46 | a failed select keeps the answers and records the message; otherwise the stored answers replace them |
| QuestionnaireEngine.SaveThenLoad | src/lib/hooks/use-questionnaire.ts:24-86 | a load after a successful save brings back exactly the saved answers, and after a failed save what was stored before |
| QuestionnaireEngine.AutosaveArmed | src/lib/hooks/use-questionnaire.ts:89-97 | the autosave timer is set exactly when loading is over and there is at least one answer |
| DatabaseTypes.PlanTypeFromTag | src/types/database.ts:1 | a stored `plan_type` string reads back as the type it spells, and as nothing when no type spells it |
| DatabaseTypes.PlanTypeTagRoundTrip | src/types/database.ts:1 | reading back the spelling of a plan type gives that type |
| DatabaseTypes.PlanStatusFromTag | src/types/database.ts:3-9 | a stored status string reads back as the status it spells, and as nothing otherwise |
| DatabaseTypes.PlanStatusesClosed | src/types/database.ts:3-9 | exactly six plan statuses, with pairwise distinct spellings |
| DatabaseTypes.MilestoneCategoriesClosed | src/types/database.ts:11-17 | exactly six milestone categories, with pairwise distinct spellings |
| DatabaseTypes.MilestoneStatusesClosed | src/types/database.ts:19-24 | exactly five milestone statuses, with pairwise distinct spellings |
| PlanStore.PatchPlan | src/app/api/generate/route.ts:79-86 | an update replaces the columns it sets and keeps the id, owner, type, answers and finalized columns |
| PlanStore.ApplyWrite | src/app/api/generate/route.ts:47-49 | an update filtered on the id neither adds nor removes a plan |
| PlanStore.Apply | src/app/api/generate/route.ts:47-49 | a whole trace of writes keeps the set of plans |
| PlanStore.Next | src/app/api/generate/route.ts:47-49 | one step, write or model call, keeps the set of plans |
| PlanStore.ApplyConcat | src/app/api/generate/route.ts:45-90 | running two traces one after the other is running their concatenation |
| PlanStore.ApplyUntouched | src/app/api/generate/route.ts:47-49 | a plan that no step writes to is left exactly as it was |
| PlanStore.ApplyKeepsRefinements | src/app/api/generate/route.ts:45-90 | a trace with no refinement writes leaves that table as it was |
| PlanStore.ApplyOnlyPlan | src/app/api/generate/route.ts:79-86 | a trace that only updates one plan changes that row alone, to the row patched in order |
| PlanStore.PatchedConcat | src/app/api/generate/route.ts:45-90 | patching a row with two traces in turn is patching with their concatenation |
| PlanStore.ApplyConfined | src/app/api/refine/route.ts:64-98 | a trace that writes one plan and one refinement record leaves every other plan and record as it was |
| GenerateRoute.GenerationPrompt | src/app/api/generate/route.ts:56-66 | a prompt exists exactly for the business and go-to-market plan types, and it is the template of that type filled from the mapped answers |
| GenerateRoute.MarkedPatch | src/app/api/generate/route.ts:47-49 | the first write, alone or followed by the model call, only sets the status to `generating` |
| GenerateRoute.Run | src/app/api/generate/route.ts:45-96 | past the guards the trace starts with the `generating` write and touches only the requested plan; a 200 carries the parsed content after exactly one content write; a throw follows a failed model call, parse or write |
| GenerateRoute.Try | src/app/api/generate/route.ts:19-43 | the three guards answer 400, 401 and 404 in that order with no write, and only an admitted request gets further |
| GenerateRoute.GenerateAsWrittenWith | src/app/api/generate/route.ts:97-116 | the handler as written answers 500 exactly when its try block throws |
| GenerateRoute.GenerateWith | src/app/api/generate/route.ts:97-116 | with the cleanup reading the plan id it already has, the handler answers 500 exactly when the try block throws |
| GenerateRoute.CleanupOnlyAppends | src/app/api/generate/route.ts:97-116 | the two cleanups give the same response, and the intended one only appends the reset after a throw, so every success property carries over to the code as written |
| GenerateRoute.GuardsWriteNothing | src/app/api/generate/route.ts:19-43 | a request writes nothing exactly when it is stopped by a guard or its body does not parse, as written and with the intended cleanup |
| GenerateRoute.StatusMarkedBeforeModel | src/app/api/generate/route.ts:45-72 | once admitted, the `generating` write comes before any model call, as written and with the intended cleanup |
| GenerateRoute.OnlyRequestedPlanWritten | src/app/api/generate/route.ts:47-49 | every write is an update of the requested plan, and a refused request has no steps, as written and with the intended cleanup |
| GenerateRoute.OthersUnchanged | src/app/api/generate/route.ts:34-86 | no other plan and no refinement record changes, as written and with the intended cleanup |
| GenerateRoute.SuccessTrace | src/app/api/generate/route.ts:45-96 | a 200 comes only from the trace status write, model call, content write |
| GenerateRoute.SucceedsExactly | src/app/api/generate/route.ts:17-96 | generation succeeds exactly when the request is admitted, the type has a prompt and the model call, parse and content write all succeed |
| GenerateRoute.SuccessReplacesContent | src/app/api/generate/route.ts:77-86 | on success the plan holds the parsed content, status `review`, the version one above the stored one and the completion time, and nothing else changes |
| GenerateRoute.UnsupportedStaysGenerating | src/app/api/generate/route.ts:45-66 | an admitted request for a type with no prompt answers 400 and leaves the plan marked `generating` |
| GenerateRoute.FailureResets | src/app/api/generate/route.ts:100-107 | with the intended cleanup, a failed admitted request leaves the plan `questionnaire_in_progress` |
| GenerateRoute.FailureStuckAsWritten | src/app/api/generate/route.ts:100-110 | as written, a failed admitted request leaves the plan `generating`, because the clone of a consumed body cannot be read |
| GenerateRoute.ModelFailureExample | src/app/api/generate/route.ts:97-116 | a concrete plan whose model call fails: `generating` as written, `questionnaire_in_progress` as intended |
| GenerateRoute.StatusIgnored | src/app/api/generate/route.ts:34-49 | the handler never reads the plan's status, finalization time or finalized content: the response and the steps are the same whatever they are, so a finalized plan is regenerated like any other, as written and with the intended cleanup |
| GenerateRoute.GenerationPromptBuilds | src/app/api/generate/route.ts:56-63 | for the two supported types, answers that hold lists under the list keys always give a prompt |
| GenerateRoute.UnsupportedTypeRefused | src/app/api/generate/route.ts:64-66 | with the handler's own builder, the two other plan types get the 400 reply and stay `generating`, as written and corrected alike |
| RefineRoute.TitleOrKey | src/app/api/refine/route.ts:64-65 | the prompt names the section title when it is truthy, else the section key |
| RefineRoute.Run | src/app/api/refine/route.ts:40-103 | past the guards every step writes only the requested plan and the new record; a 200 is exactly the record insert, the `refining` write, the model call, the record completion and the merged-content write, in that order |
| RefineRoute.MergeSetsOneSection | src/app/api/refine/route.ts:87-90 | the merged content holds the refined text under the key and every other old section unchanged; with no old content it holds the key alone |
| RefineRoute.GuardsWriteNothing | src/app/api/refine/route.ts:12-55 | nothing is written exactly when a guard stops the request or the insert fails; a missing field answers 400, no user 401, a plan not found 404 |
| RefineRoute.RecordedBeforeModel | src/app/api/refine/route.ts:40-74 | once admitted and inserted, the record (key, feedback, previous content, `processing`, no refined text) comes first, then the `refining` write, then the one model call with the composed prompt |
| RefineRoute.SucceedsExactly | src/app/api/refine/route.ts:10-103 | refinement succeeds exactly when the request is admitted, the insert succeeds and the model answers |
| RefineRoute.RunSuccessState | src/app/api/refine/route.ts:76-98 | after a successful run the plan is in review with the one section merged, and the record is completed with the reply and the time |
| RefineRoute.SuccessState | src/app/api/refine/route.ts:76-98 | the same for the whole handler: only the refined section changes, and the record keeps the key, feedback and previous content it was inserted with |
| RefineRoute.ModelFailureLeavesRefining | src/app/api/refine/route.ts:104-110 | when the model fails the reply is 500 and nothing is cleaned up: the plan stays `refining` and the record `processing` |
| RefineRoute.OthersUnchanged | src/app/api/refine/route.ts:42-98 | no other plan and no other refinement record changes |
| RefineRoute.PromptNamesSection | src/app/api/refine/route.ts:64-68 | the handler's prompt names the section, then gives the current content, then the feedback, carries no business context and ends with the Task instructions |
| RefinementPrompt.ContextBlock | src/lib/ai/prompts/refinement.ts:34 | the business-context block is non-empty exactly when the context is a non-empty string, and then it is the heading, the context and a newline |
| RefinementPrompt.BuildRefinementPrompt | src/lib/ai/prompts/refinement.ts:19-39 | the title, the current content and the feedback each sit at a fixed offset, in that order without overlap, and the prompt ends with the Task instructions |
| RefinementPrompt.ContextBlockPlacement | src/lib/ai/prompts/refinement.ts:25-38 | without a truthy context the prompt is the head followed directly by the Task instructions; with one, the context block sits right after the head |
| RefinementPrompt.ContextOnlyInserts | src/lib/ai/prompts/refinement.ts:34 | a truthy context inserts its block just before the Task instructions and changes nothing else of the prompt |
| RefinementPrompt.ExtractionCategoriesMatch | src/lib/ai/prompts/refinement.ts:49 | the extraction prompt names exactly the six stored milestone categories, each once |
| RefinementPrompt.ExtractionPrioritiesMatch | src/lib/ai/prompts/refinement.ts:50 | the extraction prompt's priorities are exactly 1, 2 and 3 |
| ResponseExtraction.CaptureStart | src/lib/ai/claude-client.ts:87 | the capture group starts past the opening fence, an optional `json` tag and every whitespace character after them, never crossing a backtick |
| ResponseExtraction.FenceCapture | src/lib/ai/claude-client.ts:87-90 | there is a capture exactly when the reply holds an opening fence and a later closing one; it is the text between the first fence's capture start and the next fence, and holds no fence itself |
| ResponseExtraction.Span | src/lib/ai/claude-client.ts:93-94 | a greedy bracket match exists exactly when the first opener comes before the last closer; it starts with the opener, ends with the closer and runs from the first opener to the last closer |
| ResponseExtraction.SpanExists | src/lib/ai/claude-client.ts:93-94 | a greedy bracket match exists exactly when some opener precedes some closer |
| ResponseExtraction.Unfenced | src/lib/ai/claude-client.ts:84-90 | with a fenced block the searched text is its capture, without one the whole reply |
| ResponseExtraction.ParseJSONResponse | src/lib/ai/claude-client.ts:81-103 | the result is exactly what `JSON.parse` gives for the trimmed candidate chosen as written, and an error when it throws |
| ResponseExtraction.ObjectSpanPreferred | src/lib/ai/claude-client.ts:93-100 | the object match wins whenever there is one; the array match is the fallback, and the searched text itself when there is neither |
| ResponseExtraction.SpanOfWrapped | src/lib/ai/claude-client.ts:93-94 | bracketed text between prose that opens and closes no bracket is exactly the greedy match |
| ResponseExtraction.NoObjectSpanAround | src/lib/ai/claude-client.ts:93 | prose that opens no brace before a text and closes none after it adds no object match to a text that has none |
| ResponseExtraction.SelectOfWrapped | src/lib/ai/claude-client.ts:93-100 | the choice as written takes bracketed text out of bracket-free prose whole when it is an object, or an array with no object match inside |
| ResponseExtraction.ProseWrappedReply | src/lib/ai/claude-client.ts:81-103 | an unfenced reply whose JSON sits between bracket-free prose parses exactly that JSON, when it is an object or an array with no object match inside |
| ResponseExtraction.BareReply | src/lib/ai/claude-client.ts:81-103 | a reply that is only an object, or an array with no object match inside, and whitespace parses exactly the trimmed reply |
| ResponseExtraction.FenceCaptureOf | src/lib/ai/claude-client.ts:87-90 | with the first fence at `p` and the next one at `q`, the searched text is the capture between them |
| ResponseExtraction.FencedCapture | src/lib/ai/claude-client.ts:87-90 | after a ```` ```json ```` opening, the capture is the body past its leading whitespace |
| ResponseExtraction.FencedReplyAfter | src/lib/ai/claude-client.ts:81-103 | a tagged fence around a body whose trimmed form is an object, or an array with no object match inside, parses exactly that trimmed body |
| ResponseExtraction.FencedReply | src/lib/ai/claude-client.ts:81-103 | the same for the literal reply ```` ```json ```` + body + ```` ``` ```` |
| ResponseExtraction.UnfencedIsSlice | src/lib/ai/claude-client.ts:84-90 | the searched text is a contiguous slice of the reply |
| ResponseExtraction.SelectIsSlice | src/lib/ai/claude-client.ts:93-100 | the span chosen as written, and the corrected one, are contiguous slices of the searched text |
| ResponseExtraction.CandidateIsInfix | src/lib/ai/claude-client.ts:84-100 | whatever the reply, the text handed to `trim`, as written and corrected, is a contiguous slice of it |
| ResponseExtraction.ArrayOfObjectsAsWritten | src/lib/ai/claude-client.ts:93-100 | on `[{},{}]` the code as written hands `{},{}` to `JSON.parse`, while the corrected choice hands the whole array |
| ResponseExtraction.CorrectionOnlyWhenEnclosed | src/lib/ai/claude-client.ts:93-100 | the corrected choice differs from the code only when the array match encloses the object match, and there takes the array |
| ResponseExtraction.SelectCorrectedOfWrapped | src/lib/ai/claude-client.ts:93-100 | the corrected choice takes any bracketed text out of bracket-free prose whole, arrays of objects included |
| ResponseExtraction.ProseWrappedReplyCorrected | src/lib/ai/claude-client.ts:81-103 | with the corrected choice, an unfenced reply whose JSON sits between bracket-free prose parses exactly that JSON, whatever brackets it has |
| ResponseExtraction.AsideBeforeObject | src/lib/ai/claude-client.ts:93-100 | a bracketed aside before an object leaves the object chosen, as written and corrected alike |
| BusinessPlanPrompt.SourceDefaults | src/lib/ai/prompts/business-plan.ts:104-140 | the company name falls back to `Unnamed Company`, the three list fields to an empty list, the four optional fields (and the other-industry field) pass through undefined, and every other field falls back to the empty string |
| BusinessPlanPrompt.MapResponsesToContext | src/lib/ai/prompts/business-plan.ts:101-141 | a truthy answer is taken as given and an optional field passes its answer through; otherwise a missing or falsy answer gives `Unnamed Company` for the company name, an empty list for a list field and the empty string for the rest |
| BusinessPlanPrompt.ContextDefined | src/lib/ai/prompts/business-plan.ts:104-140 | every non-optional field is defined, the company name is always truthy, and a list field with no truthy answer is the empty list |
| BusinessPlanPrompt.MappedContextRenders | src/lib/ai/prompts/business-plan.ts:101-198 | a context mapped from answers that hold lists under the list keys always gives a prompt |
| BusinessPlanPrompt.IndustryShown | src/lib/ai/prompts/business-plan.ts:144 | the industry shown is the other-industry text when the industry is `other`, else the industry |
| BusinessPlanPrompt.BuildPrompt | src/lib/ai/prompts/business-plan.ts:143-237 | the prompt is built exactly when the three list fields hold lists (`join` throws otherwise), with one line per template slot |
| BusinessPlanPrompt.PromptRendered | src/lib/ai/prompts/business-plan.ts:146-236 | the prompt is the template rendered against the context, lists joined with `, ` |
| BusinessPlanPrompt.TemplateAscends | src/lib/ai/prompts/business-plan.ts:146-236 | the template names the fields in context order, so none has two lines, and the other-industry field has none of its own |
| BusinessPlanPrompt.CompanyLabels | src/lib/ai/prompts/business-plan.ts:148-154 | the company heading holds the name, one-liner, vision, stage and industry lines |
| BusinessPlanPrompt.ProblemSolutionLabels | src/lib/ai/prompts/business-plan.ts:156-163 | the problem heading holds the problem, severity, alternatives, solution, advantage and differentiators lines |
| BusinessPlanPrompt.MarketCustomerLabels | src/lib/ai/prompts/business-plan.ts:165-172 | the market heading holds the customer, segments, market size, trends, channels and CAC lines |
| BusinessPlanPrompt.ModelLabels | src/lib/ai/prompts/business-plan.ts:174-182 | the business-model heading holds the revenue model, pricing, LTV, margin, both revenue goals and profitability lines |
| BusinessPlanPrompt.CompetitionLabels | src/lib/ai/prompts/business-plan.ts:184-189 | the competition heading holds the competitors, positioning, moat and go-to-market lines |
| BusinessPlanPrompt.TeamFundingLabels | src/lib/ai/prompts/business-plan.ts:191-198 | the team heading holds the team, size, key hires, funding status, funding needs and challenges lines |
| BusinessPlanPrompt.ExpectedSlotPresent | src/lib/ai/prompts/business-plan.ts:148-198 | every field but the other-industry one has its labelled line in the template |
| BusinessPlanPrompt.TemplateSlot | src/lib/ai/prompts/business-plan.ts:148-198 | each field has at most one line, and it is the expected one |
| BusinessPlanPrompt.PromptIndustry | src/lib/ai/prompts/business-plan.ts:144-154 | the industry line shows the industry as chosen above, and no line shows the other-industry field directly |
| BusinessPlanPrompt.PromptLists | src/lib/ai/prompts/business-plan.ts:163-188 | the differentiators, channels and moat lines show their items joined with `, ` |
| BusinessPlanPrompt.PromptOptionalLines | src/lib/ai/prompts/business-plan.ts:172-197 | the CAC, LTV, key-hires and funding-needs lines are present exactly when their value is truthy, and then show it |
| BusinessPlanPrompt.PromptRequiredLines | src/lib/ai/prompts/business-plan.ts:150-198 | every other field always has its line, showing its value |
| BusinessPlanPrompt.ClosingRecaps | src/lib/ai/prompts/business-plan.ts:230-234 | the closing instructions hold a line for the stage, funding status, 12-month goal and team size |
| BusinessPlanPrompt.PromptRecaps | src/lib/ai/prompts/business-plan.ts:230-234 | those closing lines repeat the values shown above |
| BusinessPlanPrompt.TemplateRequestsSchema | src/lib/ai/prompts/business-plan.ts:202-228 | the JSON schema in the prompt asks for the twelve section keys, in order |
| BusinessPlanPrompt.SectionsMatchSchema | src/lib/ai/prompts/business-plan.ts:3-16 | the section list the viewer shows is exactly the schema's key list |
| BusinessPlanPrompt.SchemaKeysDistinct | src/lib/ai/prompts/business-plan.ts:204-228 | the schema has twelve pairwise distinct keys |
| BusinessPlanPrompt.PromptRequestsSections | src/lib/ai/prompts/business-plan.ts:3-16 | every built prompt requests exactly the twelve distinct section keys of the section list |
| GtmPlanPrompt.SourceDefaults | src/lib/ai/prompts/gtm-plan.ts:56-75 | the two list fields fall back to an empty list, the existing-audience and constraints fields pass through undefined, and every other field falls back to the empty string |
| GtmPlanPrompt.MapResponsesToContext | src/lib/ai/prompts/gtm-plan.ts:53-76 | a truthy answer is taken as given and an optional field passes its answer through; otherwise a missing or falsy answer gives an empty list for a list field and the empty string for the rest, the product name included |
| GtmPlanPrompt.ContextDefined | src/lib/ai/prompts/gtm-plan.ts:56-75 | every non-optional field is defined, and a list field with no truthy answer is the empty list |
| GtmPlanPrompt.BuildPrompt | src/lib/ai/prompts/gtm-plan.ts:78-139 | the prompt is built exactly when the two list fields hold lists (`join` throws otherwise), with one line per template slot |
| GtmPlanPrompt.PromptRendered | src/lib/ai/prompts/gtm-plan.ts:79-138 | the prompt is the template rendered against the context, lists joined with `, ` |
| GtmPlanPrompt.MappedContextRenders | src/lib/ai/prompts/gtm-plan.ts:53-106 | a context mapped from answers that hold lists under the list keys always gives a prompt |
| GtmPlanPrompt.TemplateAscends | src/lib/ai/prompts/gtm-plan.ts:79-138 | the template names the fields in context order, so none has two lines |
| GtmPlanPrompt.ProductLabels | src/lib/ai/prompts/gtm-plan.ts:79-84 | the product heading holds the name, description, launch type and readiness lines |
| GtmPlanPrompt.CustomerLabels | src/lib/ai/prompts/gtm-plan.ts:86-91 | the customer block holds the persona, buying journey, awareness and geography lines |
| GtmPlanPrompt.CompetitionLabels | src/lib/ai/prompts/gtm-plan.ts:93-97 | the competition block holds the competitors, advantage and positioning lines |
| GtmPlanPrompt.MarketingLabels | src/lib/ai/prompts/gtm-plan.ts:99-101 | the marketing block holds the channels, experience and audience lines |
| GtmPlanPrompt.LaunchLabels | src/lib/ai/prompts/gtm-plan.ts:103-106 | the launch block holds the date, budget, metrics and constraints lines |
| GtmPlanPrompt.ExpectedSlotPresent | src/lib/ai/prompts/gtm-plan.ts:79-106 | every field has its labelled line in the template |
| GtmPlanPrompt.TemplateSlot | src/lib/ai/prompts/gtm-plan.ts:79-106 | each field has exactly one line, and it is the expected one |
| GtmPlanPrompt.PromptLists | src/lib/ai/prompts/gtm-plan.ts:91-99 | the geography and channels lines show their items joined with `, ` |
| GtmPlanPrompt.PromptOptionalLines | src/lib/ai/prompts/gtm-plan.ts:101-106 | the existing-audience and constraints lines are present exactly when their value is truthy, and then show it |
| GtmPlanPrompt.PromptRequiredLines | src/lib/ai/prompts/gtm-plan.ts:81-105 | every other field always has its line, showing its value |
| GtmPlanPrompt.TemplateRequestsSchema | src/lib/ai/prompts/gtm-plan.ts:112-136 | the JSON schema in the prompt asks for the eleven section keys, in order |
| GtmPlanPrompt.SectionsMatchSchema | src/lib/ai/prompts/gtm-plan.ts:141-153 | the section list the viewer shows is exactly the schema's key list |
| GtmPlanPrompt.SchemaKeysDistinct | src/lib/ai/prompts/gtm-plan.ts:114-136 | the schema has eleven pairwise distinct keys |
| GtmPlanPrompt.PromptRequestsSections | src/lib/ai/prompts/gtm-plan.ts:141-153 | every built prompt requests exactly the eleven distinct section keys of the section list |
| GtmPlanPrompt.SharedSectionKeys | src/lib/ai/prompts/gtm-plan.ts:141-153 | the executive summary is the only section key the two plan types share |
| PromptLines.Resolve | src/lib/ai/prompts/business-plan.ts:105-138 | a field with a fallback takes the answer when it is truthy and the fallback otherwise; a pass-through field takes the answer as it is, possibly undefined |
| PromptLines.JoinList | src/lib/ai/prompts/business-plan.ts:163 | joining succeeds exactly on a list, giving its items separated by `, ` |
| PromptLines.Render | src/lib/ai/prompts/business-plan.ts:146-236 | a template renders to one line per slot, each from its own slot |
| PromptLines.RenderedValue | src/lib/ai/prompts/business-plan.ts:172 | a field with no slot shows no line, an always-shown slot shows the field's text, and a conditional slot shows it exactly when the value is truthy |
| ImportMapper.GtmImportKeysSpelledOut | src/lib/questionnaires/import-mapper.ts:9-55 | the import can write seven go-to-market keys: the five copied ones, the geographic focus and the readiness |
| ImportMapper.ImportFieldsWellFormed | src/lib/questionnaires/import-mapper.ts:9-32 | the five copied targets are distinct and are neither of the two remapped keys |
| ImportMapper.CopyTruthyFields | src/lib/questionnaires/import-mapper.ts:9-32 | a target is written exactly when its source answer is truthy, with that answer unchanged; nothing else is added or changed |
| ImportMapper.GeographicFocusFor | src/lib/questionnaires/import-mapper.ts:35-43 | `local` and `national` map to themselves, `international` and `online_global` to `global`, any other value that is not an `Object.prototype` member name to `national`, always as a one-item list |
| ImportMapper.ReadinessFor | src/lib/questionnaires/import-mapper.ts:46-55 | `idea` and `planning` map to `concept`, `building` to `development`, `launched` to `soft_launch`, `growing` to `ready`, any other value that is not an `Object.prototype` member name to `concept` |
| ImportMapper.MapBusinessPlanWith | src/lib/questionnaires/import-mapper.ts:4-58 | each copied key is present exactly when its source is truthy and holds the source answer; the focus is present exactly when the business plan's focus is truthy, and the readiness exactly when its current status is |
| ImportMapper.MapBusinessPlanToGTM | src/lib/questionnaires/import-mapper.ts:4-58 | the mapping writes only the seven importable keys |
| ImportMapper.EmptyImportsNothing | src/lib/questionnaires/import-mapper.ts:4-58 | an empty business plan imports nothing |
| ImportMapper.AsPartial | src/lib/questionnaires/import-mapper.ts:6 | the mapping as a partial record: the same keys, every value defined |
| ImportMapper.Truncated | src/lib/questionnaires/import-mapper.ts:78 | a string preview is its first 100 characters followed by `...`; a list becomes comma-joined text that also ends in `...`; a number or boolean has no `slice` and throws |
| ImportMapper.Previews | src/lib/questionnaires/import-mapper.ts:61-107 | the preview throws exactly when some set field's value cannot be cut, and otherwise has at most one row per field |
| ImportMapper.PreviewRowsComeFromSetFields | src/lib/questionnaires/import-mapper.ts:61-107 | every preview row is the row of a set field, with its target, caption and (cut) value |
| ImportMapper.SetFieldsArePreviewed | src/lib/questionnaires/import-mapper.ts:61-107 | every set field has its preview row |
| ImportMapper.PreviewAgreesWithImport | src/lib/questionnaires/import-mapper.ts:4-107 | over the same field table, the preview lists exactly the copied keys the import writes, each showing the imported value or its cut form |
| ImportMapper.GetImportableFields | src/lib/questionnaires/import-mapper.ts:61-107 | the preview has at most five rows |
| ImportMapper.PreviewListsImportedCopies | src/lib/questionnaires/import-mapper.ts:4-107 | the preview shown before importing lists exactly the copied keys the import writes, never the focus or the readiness, each with the imported value or its cut form |
| QuestionRenderer.RendererAgreesWithValidation | src/components/questionnaire/question-renderer.tsx:30-37 | the renderer hides a question exactly when validation skips it as hidden, so a question the user cannot see never blocks a step |
| QuestionRenderer.RenderedControlsAsWritten | src/components/questionnaire/question-renderer.tsx:49-206 | as written, a question type selects at most one input branch |
| QuestionRenderer.MultiSelectRendersNoInputAsWritten | src/components/questionnaire/question-renderer.tsx:96 | as written, the option-button branch tests `multiselect`, which no question type spells, so a multi-select question gets no input |
| QuestionRenderer.RenderedControls | src/components/questionnaire/question-renderer.tsx:49-206 | with the type union's own spelling, every question type renders exactly one control, and the option buttons exactly for a multi-select question |
| QuestionRenderer.CorrectionOnlyTouchesMultiSelect | src/components/questionnaire/question-renderer.tsx:49-206 | the corrected branches differ from the written ones for the multi-select type and for no other |
| QuestionRenderer.RemoveAll | src/components/questionnaire/question-renderer.tsx:108 | the filter drops every occurrence of the option and keeps every other value as often as before |
| QuestionRenderer.RemoveAllConcat | src/components/questionnaire/question-renderer.tsx:108 | the filter distributes over concatenation, so the kept values keep their order |
| QuestionRenderer.RemoveAllAbsent | src/components/questionnaire/question-renderer.tsx:108 | filtering out an option that is not there changes nothing |
| QuestionRenderer.Toggle | src/components/questionnaire/question-renderer.tsx:99-111 | after a click the option is selected exactly when it was not; an unselected option is appended at the end; other values are untouched |
| QuestionRenderer.ToggleTwiceRestores | src/components/questionnaire/question-renderer.tsx:106-111 | clicking an unselected option twice restores the selection |
| QuestionRenderer.SelectedValues | src/components/questionnaire/question-renderer.tsx:98 | a falsy answer reads as `[]`, a list as itself, a non-empty string stays a string, and a truthy number or `true` makes the render throw |
| QuestionRenderer.IsSelected | src/components/questionnaire/question-renderer.tsx:99 | `includes` is list membership on a list and a substring search on a string |
| QuestionRenderer.ToggleAnswer | src/components/questionnaire/question-renderer.tsx:98-111 | on a list (or falsy) answer the click emits a list that holds the option exactly when the selection did not; on a string answer a click on a contained option throws, and any other click emits the string's characters followed by the option; a truthy number or boolean throws |
| QuestionRenderer.ToggleAnswerTwiceRestores | src/components/questionnaire/question-renderer.tsx:98-111 | on a list answer without the option, two clicks give back the list |
| QuestionRenderer.StringAndNumberSelections | src/components/questionnaire/question-renderer.tsx:98-111 | `"ab"` clicked with `c` emits `["a","b","c"]`; `"abc"` clicked with `b` throws; the number 3 throws |
| QuestionRenderer.ButtonAnswers | src/components/questionnaire/question-renderer.tsx:159-206 | the scale emits the numbers 1 to 5, yes-no emits `true` then `false`, other types emit no button answer |
| QuestionRenderer.ButtonAnswersAreNeverMissing | src/components/questionnaire/question-renderer.tsx:159-206 | every button answer counts as answered for validation, and a scale answer is a whole number from 1 to 5 |
| QuestionnaireShell.KindOf | src/components/questionnaire/questionnaire-shell.tsx:101 | `basePath` is the business-plan one for a business plan and the go-to-market one for every other type |
| QuestionnaireShell.QuestionnaireFor | src/lib/hooks/use-questionnaire.ts:10-21 | only the business and go-to-market plan types have a questionnaire (the other two make the page throw on `.steps`), and where one exists it matches the base path |
| QuestionnaireShell.BasePathByType | src/components/questionnaire/questionnaire-shell.tsx:101 | the base path is `/business-plan` for a business plan and `/gtm-plan` for every other type |
| QuestionnaireShell.ShownStep | src/components/questionnaire/questionnaire-shell.tsx:96-99 | a step is shown exactly when the 1-based step number is in range, and it is that step; on the last step it is the final one |
| QuestionnaireShell.HandleNext | src/components/questionnaire/questionnaire-shell.tsx:103-112 | Next saves the answers first, then goes to `/plans/{id}/generate` on the last step and to the next step's page with the plan id otherwise |
| QuestionnaireShell.HandleBack | src/components/questionnaire/questionnaire-shell.tsx:114-120 | Back goes to the dashboard exactly from step 1 (or below), otherwise to the previous step's page with the plan id |
| QuestionnaireShell.BackUndoesNext | src/components/questionnaire/questionnaire-shell.tsx:103-120 | Back from the page Next leads to returns to the page Next was pressed on |
| QuestionnaireShell.NavigationStaysInRange | src/components/questionnaire/questionnaire-shell.tsx:103-120 | from a step in range Next and Back reach a step in range, and leave the questionnaire exactly at its two ends |
| QuestionnaireShell.NextButtonFor | src/components/questionnaire/questionnaire-shell.tsx:189-210 | Next is disabled exactly when the step is invalid or a save is running; it reads `Saving...` while saving, `Generate Plan` on the last step, `Continue` otherwise |
| QuestionnaireShell.EnabledNextIsValid | src/components/questionnaire/questionnaire-shell.tsx:191 | an enabled Next means the step is valid and nothing is saving |
| QuestionnaireShell.OfferFrom | src/components/questionnaire/questionnaire-shell.tsx:62-69 | an import is offered exactly when the latest finalized business plan has non-empty answers; it carries them and the plan's title, or `Business Plan` when the title is falsy |
| QuestionnaireShell.CheckForBusinessPlan | src/components/questionnaire/questionnaire-shell.tsx:49-81 | the lookup never changes the answers or the dismissal, and never closes an open banner |
| QuestionnaireShell.BannerOpensWhen | src/components/questionnaire/questionnaire-shell.tsx:49-81 | the banner opens exactly for step 1 of a go-to-market plan, not dismissed, with a business plan on offer and no answers yet |
| QuestionnaireShell.Dismiss | src/components/questionnaire/questionnaire-shell.tsx:91-94 | dismissing closes the banner and marks it dismissed, keeping the answers and the offer |
| QuestionnaireShell.DismissedStaysClosed | src/components/questionnaire/questionnaire-shell.tsx:51 | after a dismissal no lookup reopens the banner |
| QuestionnaireShell.Imported | src/components/questionnaire/questionnaire-shell.tsx:83-87 | importing keeps the offer and the dismissal and closes the banner |
| QuestionnaireShell.HandleImportAsWritten | src/components/questionnaire/questionnaire-shell.tsx:83-89 | as written, with nothing on offer nothing happens; otherwise the page shows the merged answers but the save writes the answers from before the import |
| QuestionnaireShell.HandleImport | src/components/questionnaire/questionnaire-shell.tsx:83-89 | corrected, the save writes the answers the page shows after the import |
| QuestionnaireShell.ImportSavesWhatItShows | src/components/questionnaire/questionnaire-shell.tsx:83-89 | the corrected import saves the merge: every mapped answer overwrites, every other answer is kept, and the banner is closed |
| QuestionnaireShell.ImportSavesStaleAnswersAsWritten | src/components/questionnaire/questionnaire-shell.tsx:83-89 | importing a plan named `Acme` onto an empty questionnaire shows the product name `Acme` but, as written, saves the empty map |
| Routes.NatText | src/components/questionnaire/questionnaire-shell.tsx:110 | a step number is written as at least one decimal digit, with no leading zero |
| Routes.NatTextRoundTrip | src/components/questionnaire/questionnaire-shell.tsx:110 | reading the written digits back gives the number |
| Routes.IntText | src/components/questionnaire/questionnaire-shell.tsx:116 | any integer is written as at least one character, starting with a digit exactly when it is not negative |
| Routes.IntTextInjective | src/components/questionnaire/questionnaire-shell.tsx:110-116 | different step numbers are written differently |
| Routes.StepLinksDiffer | src/components/questionnaire/questionnaire-shell.tsx:110-116 | two questionnaire links of the same track and plan are equal exactly when their steps are |
| StepIndicator.Indicator | src/components/questionnaire/step-indicator.tsx:18-49 | one view per step, in order: done when numbered below the current step, current when numbered like it, a check mark in place of a done step's number, and a connector after every step but the last, lit when the step is done |
| StepIndicator.OneCurrentStep | src/components/questionnaire/step-indicator.tsx:19-21 | no step is both done and current, at most one step is current, and one is current exactly when the current step is in range |
| StepIndicator.CompletedArePrefix | src/components/questionnaire/step-indicator.tsx:20 | the done steps are a prefix of the row |
| StepIndicator.ConnectorCount | src/components/questionnaire/step-indicator.tsx:39-46 | a row of `n` steps draws `n - 1` connectors |
| StepIndicator.ConnectorsFrom | src/components/questionnaire/step-indicator.tsx:39-46 | from step `k` on, the row draws `n - 1 - k` connectors |
| PlanViewer.InitialSection | src/components/plans/plan-viewer.tsx:56 | the page opens on the first section's key, and on no section exactly when the list is empty |
| PlanViewer.FindIndex | src/components/plans/plan-viewer.tsx:308-315 | `findIndex` gives the first position whose key matches, and -1 exactly when no section has the key |
| PlanViewer.Rendered | src/components/plans/plan-viewer.tsx:256-258 | a section's body is rendered exactly when its key is the active one |
| PlanViewer.OneSectionRendered | src/components/plans/plan-viewer.tsx:256-258 | with distinct keys exactly one body is shown when the active key names a section, and none otherwise |
| PlanViewer.PagingFor | src/components/plans/plan-viewer.tsx:308-336 | Previous appears exactly after the first section and opens the one before; Next appears exactly before the last section and opens the one after; neither appears when no section is active |
| PlanViewer.PagingRoundTrip | src/components/plans/plan-viewer.tsx:308-336 | with distinct keys, Next followed by Previous returns to the starting section, and so does Previous followed by Next |
| PlanViewer.FindIndexOfDistinct | src/components/plans/plan-viewer.tsx:312-315 | with distinct keys, each section is found at its own position |
| PlanViewer.RefineRequest | src/components/plans/plan-viewer.tsx:63-77 | a request is posted exactly when a section is chosen and the feedback is not blank after trimming; it carries the trimmed feedback, the section's key and title, and its content only when the section has some |
| PlanViewer.RefineRequestPassesFeedbackCheck | src/components/plans/plan-viewer.tsx:63-77 | every request the page posts passes the refine handler's feedback check, and passes its field check exactly when the plan id, the key and the content are non-empty |
| PlanViewer.ControlsFor | src/components/plans/plan-viewer.tsx:223-228 | the PDF export is offered exactly for a finalized plan, and Refine and Finalize exactly for one that is not |
| PlanViewer.ExportExcludesEditing | src/components/plans/plan-viewer.tsx:223-228 | the export control never appears together with the refine or finalize control |
| PlanViewer.ContentOf | src/components/plans/plan-viewer.tsx:119 | a section's printed content is its stored text, or empty when it has none |
| PlanViewer.PrintBlock | src/components/plans/plan-viewer.tsx:118-121 | a section prints as its title in a page-breaking heading, followed by its content |
| PlanViewer.PrintBlocks | src/components/plans/plan-viewer.tsx:117-121 | there is one printed block per section, in section order |
| PlanViewer.PrintListsEverySection | src/components/plans/plan-viewer.tsx:117-122 | every section's heading and then its content appear in the printout at that block's offset, and a blank line follows every block but the last |
| PlanViewer.PrintKeepsOrder | src/components/plans/plan-viewer.tsx:117-122 | an earlier section's block starts, and ends with its separator, before any later section's block |
| PlanJourney.StatusOf | src/components/plans/plan-journey.tsx:30 | a step shows its plan's status, or `not_started` when there is no plan |
| PlanJourney.HrefFor | src/components/plans/plan-journey.tsx:33-35 | a step links to the plan page for a finalized plan, to step 1 of its questionnaire with the plan id for an unfinished one, and to a fresh questionnaire when there is no plan id |
| PlanJourney.ActionFor | src/components/plans/plan-journey.tsx:121-148 | the offered action is View/Create New exactly for a finalized plan, Continue exactly for one in progress, the locked notice exactly for a locked step not yet started, and otherwise Start, highlighted exactly when the previous step is finished |
| PlanJourney.Journey | src/components/plans/plan-journey.tsx:24-64 | there are two steps numbered 1 and 2 with their plans' statuses; only step 2 can be locked, exactly when there is no business plan; step 2's predecessor counts as finished exactly when the business plan is finalized |
| PlanJourney.ActionsFollowPriority | src/components/plans/plan-journey.tsx:59-64 | every drawn step's action agrees with its own status, lock, link and predecessor |
| PlanJourney.UnfinishedBusinessPlanUnlocks | src/components/plans/plan-journey.tsx:63 | a business plan that is only in progress already unlocks the go-to-market step, which is offered to Start without highlighting |
| PlanJourney.LockedNoticeOnlyBeforeBusinessPlan | src/components/plans/plan-journey.tsx:63-140 | step 1 never shows the locked notice; step 2 shows it exactly when there is no business plan and the go-to-market plan is not started |
| MilestoneActions.Offered | src/components/accountability/milestone-actions.tsx:60-88 | each of the five menu entries is offered exactly under the status condition that guards it |
| MilestoneActions.CompletedOnlyDefers | src/components/accountability/milestone-actions.tsx:60-88 | a completed milestone offers Defer and nothing else |
| MilestoneActions.NoEntryKeepsTheStatus | src/components/accountability/milestone-actions.tsx:60-88 | for every stored status the menu is non-empty and no entry moves to the current status |
| MilestoneActions.UpdateDataFor | src/components/accountability/milestone-actions.tsx:29-32 | the update writes the new status, and writes the completion time exactly when the new status is `completed` |
| MilestoneActions.Choose | src/components/accountability/milestone-actions.tsx:25-39 | a failed update leaves the row as it was; a successful one sets the status, stamps the completion time only when completing, and changes no other column |
| MilestoneActions.DeferKeepsCompletionTime | src/components/accountability/milestone-actions.tsx:29-32 | deferring a completed milestone keeps its old completion time |
| MilestoneActions.OfferedMoveChangesStatus | src/components/accountability/milestone-actions.tsx:25-37 | a successful move through any offered entry changes the status |
| Sidebar.ActiveMeansSlashPrefix | src/components/layout/sidebar.tsx:55 | when an entry is active, the path followed by `/` starts with the entry's href followed by `/` |
| Sidebar.NeverBothActive | src/components/layout/sidebar.tsx:55 | two hrefs that differ at a position inside both of their `/`-extended forms are never active on the same path |
| Sidebar.AtMostOneActive | src/components/layout/sidebar.tsx:19-55 | on every path at most one entry of the navigation list is active |
| Sidebar.LookalikePathInactive | src/components/layout/sidebar.tsx:55 | a path that only shares an href's letters, such as `/plansX`, does not activate it |
| Sidebar.NestedPathActive | src/components/layout/sidebar.tsx:55 | every page below the milestones entry activates it |
| MilestoneFilters.Values | src/components/accountability/milestone-filters.tsx:30 | the values of a name number at most the entries |
| MilestoneFilters.Delete | src/components/accountability/milestone-filters.tsx:32 | `delete` keeps exactly the entries of other names and leaves the name without values |
| MilestoneFilters.SetLeavesOneValue | src/components/accountability/milestone-filters.tsx:34 | after `set` the name has exactly the one value given |
| MilestoneFilters.SetKeepsOthers | src/components/accountability/milestone-filters.tsx:34 | `set` keeps every entry of another name, in order |
| MilestoneFilters.DeleteTwice | src/components/accountability/milestone-filters.tsx:32 | deleting a name twice is deleting it once |
| MilestoneFilters.HandlePlanChange | src/components/accountability/milestone-filters.tsx:29-37 | the choice navigates to the milestones page with a query that keeps every other filter in order; `all` leaves no plan filter and any other id leaves exactly that one |
| MilestoneFilters.AllUndoesPlanChoice | src/components/accountability/milestone-filters.tsx:29-37 | choosing a plan and then `all` gives the query that choosing `all` alone gives |
| MilestoneFilters.ClearFilters | src/components/accountability/milestone-filters.tsx:39-41 | Clear navigates to the bare milestones path, with no query |
| MilestoneFilters.SelectValue | src/components/accountability/milestone-filters.tsx:49 | the select shows the current plan when there is a non-empty one, and `all` otherwise |
| MilestoneFilters.PlanLabel | src/components/accountability/milestone-filters.tsx:57-58 | an option shows the plan's title when it is non-empty, otherwise `Business Plan` for a business plan and `GTM Plan` for any other type |

## Left out

- The calls to the model provider (`generateWithClaude`, `streamWithClaude` in src/lib/ai/claude-client.ts:15-79) are network I/O. A model reply is a parameter. The model name, token limit and temperature are not modelled.
- The system prompts and the prose of every prompt are product content. Only the structure is modelled: which lines appear, in what order, and with which section keys.
- ImportMapper.Truncated: cuts after 100 characters, not 100 UTF-16 code units. `slice` can split a surrogate pair, which a string of Unicode scalar values cannot hold, so a preview of text outside the Basic Multilingual Plane may be longer here than in the code.
- ImportMapper.GeographicFocusFor: a value naming an `Object.prototype` member (`constructor`, `toString`, `hasOwnProperty`, `__proto__` and the like) reads an inherited member from the lookup object in the code, which is truthy and is returned as the mapped value. The model treats such a value like any other unknown one and maps it to `national`.
- ImportMapper.ReadinessFor: the same prototype-member lookup applies; the model maps such a value to `concept`.
- `JSON.parse` is an opaque partial function passed as a parameter. In the generate handler it yields section content or nothing, so a reply that parses to an array, a string or a number (which the code would store as the plan content) is treated like a reply that fails to parse. Parsing the request body is reduced to a `Body` datatype that either failed to parse or carries the fields as options.
- Authentication and database queries are I/O. The signed-in user is a parameter, and so are the failures of the writes the handlers check. Writes whose errors the code ignores always succeed in the model.
- A `planId` that is present but not a string is not modelled; request fields are strings or absent.
- The refine handler does no cleanup on error. The model keeps that as written: the plan stays `refining` and the record stays `processing` (RefineRoute.ModelFailureLeavesRefining).
- ResponseExtraction.Select: the corrected choice takes the array match whenever it encloses the object match. A reply with a bracketed aside both before and after its object (`[a] {…} [b]`) then yields the whole stretch, which does not parse, where the code as written yields the object. ResponseExtraction.CorrectionOnlyWhenEnclosed states exactly where the two choices differ.
- The generate handler returns 400 for an unsupported plan type after it has already written `generating`. The model keeps that as written too (GenerateRoute.UnsupportedStaysGenerating).
- The query behind the import banner has no user filter of its own and relies on row-level security. Its result is a parameter.
- Query strings are lists of name/value entries. Percent-encoding and the `URLSearchParams` parse/print round trip are not modelled.
- The progress percentage, the currency `parseFloat` and the number input work on floating point and are not modelled.
- The 2-second autosave timer is timing and concurrency. Only its guard is modelled (QuestionnaireEngine.AutosaveArmed). Loading the saved answers on mount is modelled by its outcome (QuestionnaireEngine.LoadAnswers); the `isLoading` and `isSaving` flags are not. A stored `questionnaire_responses` of `null`, which the load would skip, is not modelled: a row always holds an answer map.
- Rendering, CSS, markdown and toasts are not modelled, and neither are router refreshes. Only the decisions that choose what is shown are.
- The PDF export's print window, HTML shell and date are not modelled. Only the printable body (`printContent`) is.
- The finalize request in the plan viewer is a network call and is not modelled. Only the gating of its button is.
- The finalize, update-section, delete and check-in handlers are not part of this model, and neither are milestone date and category repair or check-in scheduling.
- The questionnaire page for an operations manual or a P&L tracker throws as soon as it reads the steps (QuestionnaireShell.QuestionnaireFor). The navigation functions are stated for every plan type and say nothing about that throw.
- The concrete questionnaire definitions are not part of this model. Every operation takes the questionnaire as a parameter.

## Findings

| source | as written | input that shows it | evidently intended | confidence | as-written member | corrected member |
|---|---|---|---|---|---|---|
| src/components/questionnaire/question-renderer.tsx:96 | the option-button branch tests the type `'multiselect'`, but the question type union (src/lib/questionnaires/types.ts:5) spells it `'multi-select'` | any question of type `'multi-select'` | a multi-select question renders its option buttons | high; not executed | QuestionRenderer.MultiSelectRendersNoInputAsWritten | QuestionRenderer.RenderedControls |
| src/components/questionnaire/questionnaire-shell.tsx:83-89 | `handleImport` merges the imported answers and then calls `saveProgress`, which still holds the answers from before the merge | empty answers, importing `business_name = "Acme"`: the screen shows `product_name = "Acme"` but the save writes the empty map | the explicit save writes the answers the screen shows (the 2-second autosave writes them later) | medium; not executed | QuestionnaireShell.ImportSavesStaleAnswersAsWritten | QuestionnaireShell.ImportSavesWhatItShows |
| src/lib/ai/claude-client.ts:93-100 | the object span is preferred whenever one exists, even when an array opens first | the reply `[{},{}]` gives `{},{}`, which is not JSON | an array match that encloses the object match is extracted whole, so a bare array of objects survives; otherwise the object match is taken as before | high; not executed | ResponseExtraction.ArrayOfObjectsAsWritten | ResponseExtraction.SelectCorrectedOfWrapped |
| src/app/api/generate/route.ts:100-110 | the cleanup reads the plan id again through `request.clone().json()` after the body was consumed; `clone()` throws, the inner `catch` swallows it, and the reset is never written | a supported plan whose model call fails: the handler returns 500 and the plan stays `generating` | a failure resets the plan to `questionnaire_in_progress` | medium-high; not executed | GenerateRoute.FailureStuckAsWritten | GenerateRoute.FailureResets |
