/** The questionnaire engine: step validation, the two answer-merge operations,
    the record written by a save, and the autosave guard. React state, the
    database round trip and the debounce timer are replaced by inputs and
    returned values. */
module QuestionnaireEngine {
  import opened Wrappers
  import opened QuestionnaireTypes
  import opened DatabaseTypes
  import opened Strings

  // ------------------------------------------------------ conditional display

  /** A conditional rule is met when the referenced answer is a string equal to
      the expected value (strict equality) or, for a list rule, a string that
      the list includes. Any other answer, `undefined` included, leaves the rule
      unmet. */
  predicate ConditionMet(c: ConditionalDisplay, answers: Responses) {
    match Lookup(answers, c.questionId)
    case Some(Str(s)) =>
      (match c.value
       case One(expected) => s == expected
       case AnyOf(accepted) => s in accepted)
    case _ => false
  }

  /** A question is shown unless it carries a rule that is unmet. */
  predicate ShownByRule(q: Question, answers: Responses) {
    q.conditionalDisplay.None? || ConditionMet(q.conditionalDisplay.value, answers)
  }

  // ------------------------------------------------------------- validation

  /** The answers a required question rejects: `undefined`, `null`, the empty
      string and the empty list. */
  predicate IsMissing(v: Option<Answer>) {
    v == None || v == Some(Null) || v == Some(Str("")) || v == Some(StrList([]))
  }

  /** A length bound applies only when it is truthy, so a bound of 0 is
      ignored. */
  predicate BoundActive(bound: Option<int>) {
    bound.Some? && bound.value != 0
  }

  /** The length checks: they look only at string answers, and measure them
      in UTF-16 code units as JavaScript's `length` does. */
  predicate LengthOk(q: Question, v: Option<Answer>) {
    match (q.validation, v)
    case (Some(rules), Some(Str(s))) =>
      && (BoundActive(rules.minLength) ==> Utf16Length(s) >= rules.minLength.value)
      && (BoundActive(rules.maxLength) ==> Utf16Length(s) <= rules.maxLength.value)
    case _ => true
  }

  /** The per-question test of `validateStep`, written as the source's chain of
      early returns. */
  function QuestionPasses(q: Question, answers: Responses): (ok: bool)
    ensures !ShownByRule(q, answers) ==> ok
    ensures ShownByRule(q, answers) && !q.required ==> ok
    ensures ShownByRule(q, answers) && q.required ==>
      (ok <==> !IsMissing(Lookup(answers, q.id)) && LengthOk(q, Lookup(answers, q.id)))
  {
    if q.conditionalDisplay.Some? && !ConditionMet(q.conditionalDisplay.value, answers) then true
    else if !q.required then true
    else
      var value := Lookup(answers, q.id);
      if value.None? || value.value == Null || value.value == Str("") then false
      else if value.value.StrList? && |value.value.items| == 0 then false
      else if q.validation.Some? && value.value.Str? then
        var rules := q.validation.value;
        var s := value.value.s;
        if rules.minLength.Some? && rules.minLength.value != 0 && Utf16Length(s) < rules.minLength.value then false
        else if rules.maxLength.Some? && rules.maxLength.value != 0 && Utf16Length(s) > rules.maxLength.value then false
        else true
      else true
  }

  /** `validateStep`: an index with no step fails; otherwise the step passes
      exactly when every one of its questions passes (`every`, so a step with no
      questions passes). */
  method ValidateStep(questionnaire: Questionnaire, answers: Responses, stepIndex: int) returns (valid: bool)
    ensures !(0 <= stepIndex < |questionnaire.steps|) ==> !valid
    ensures 0 <= stepIndex < |questionnaire.steps| ==>
      (valid <==> forall i :: 0 <= i < |questionnaire.steps[stepIndex].questions| ==>
                    QuestionPasses(questionnaire.steps[stepIndex].questions[i], answers))
  {
    if !(0 <= stepIndex < |questionnaire.steps|) {
      return false;
    }
    var questions := questionnaire.steps[stepIndex].questions;
    valid := true;
    var i := 0;
    while i < |questions| && valid
      invariant 0 <= i <= |questions|
      invariant valid <==> forall j :: 0 <= j < i ==> QuestionPasses(questions[j], answers)
    {
      valid := QuestionPasses(questions[i], answers);
      i := i + 1;
    }
  }

  /** A required `yes-no` question answered `false` passes: only `undefined`,
      `null`, `''` and `[]` count as missing. */
  lemma FalseAnswersARequiredQuestion(q: Question, answers: Responses)
    requires q.required && q.id in answers && answers[q.id] == Bool(false)
    ensures QuestionPasses(q, answers)
  {
  }

  /** The length bounds ignore non-string answers: a one-item list passes a
      required question whatever its `minLength`. */
  lemma LengthBoundsIgnoreLists(q: Question, answers: Responses, item: string)
    requires q.required && q.id in answers && answers[q.id] == StrList([item])
    ensures QuestionPasses(q, answers)
  {
  }

  /** One character outside the Basic Multilingual Plane is two code units,
      so it fails a required question limited to one character. */
  lemma AstralCharacterCountsTwice(q: Question, answers: Responses)
    requires q.conditionalDisplay.None? && q.required && q.validation.Some?
    requires q.validation.value.maxLength == Some(1)
    requires q.id in answers && answers[q.id] == Str(['\U{1F600}'])
    ensures !QuestionPasses(q, answers)
  {
    assert Utf16Length(['\U{1F600}']) == 2;
  }

  // ---------------------------------------------------------- answer merges

  /** `updateAnswer`: sets one key and leaves every other answer as it was. */
  function UpdateAnswer(answers: Responses, questionId: string, value: Answer): (r: Responses)
    ensures r.Keys == answers.Keys + {questionId}
    ensures r[questionId] == value
    ensures forall k :: k in answers && k != questionId ==> r[k] == answers[k]
  {
    answers[questionId := value]
  }

  /** The keys of a partial answer map whose value is not `undefined`. */
  function DefinedKeys(incoming: map<string, Option<Answer>>): set<string> {
    set k | k in incoming && incoming[k].Some?
  }

  /** `importAnswers`: every incoming entry that is not `undefined` overwrites
      (a `null` or `''` included); `undefined` entries and keys absent from the
      input leave the existing answers alone. */
  method ImportAnswers(answers: Responses, incoming: map<string, Option<Answer>>) returns (merged: Responses)
    ensures merged.Keys == answers.Keys + DefinedKeys(incoming)
    ensures forall k :: k in incoming && incoming[k].Some? ==> merged[k] == incoming[k].value
    ensures forall k :: k in answers && k !in DefinedKeys(incoming) ==> merged[k] == answers[k]
    ensures merged == MergedAnswers(answers, incoming)
  {
    merged := answers;
    var pending := incoming.Keys;
    while pending != {}
      invariant pending <= incoming.Keys
      invariant merged.Keys == answers.Keys + (DefinedKeys(incoming) - pending)
      invariant forall k :: k in incoming && k !in pending && incoming[k].Some? ==> merged[k] == incoming[k].value
      invariant forall k :: k in answers && (k in pending || k !in DefinedKeys(incoming)) ==> merged[k] == answers[k]
      decreases pending
    {
      var key :| key in pending;
      if incoming[key].Some? {
        merged := merged[key := incoming[key].value];
      }
      pending := pending - {key};
    }
  }

  /** The state `importAnswers` leaves, as one map: each defined incoming
      value, else the existing answer. */
  function MergedAnswers(answers: Responses, incoming: map<string, Option<Answer>>): (merged: Responses)
    ensures merged.Keys == answers.Keys + DefinedKeys(incoming)
    ensures forall k :: k in incoming && incoming[k].Some? ==> merged[k] == incoming[k].value
    ensures forall k :: k in answers && k !in DefinedKeys(incoming) ==> merged[k] == answers[k]
  {
    map k | k in answers.Keys + DefinedKeys(incoming) ::
      if k in incoming && incoming[k].Some? then incoming[k].value else answers[k]
  }

  // ---------------------------------------------------------- persistence

  /** What `saveProgress` leaves: the stored row and the hook's `error`. */
  datatype Saved = Saved(row: Plan, error: Option<string>)

  /** `saveProgress`, given whether the update fails. A failed update leaves
      the row as it was and records the message; a successful one writes the
      whole answer map and the status `questionnaire_in_progress`, changes no
      other column, and leaves an earlier error in place (it is never
      cleared). */
  function SaveProgress(row: Plan, answers: Responses, error: Option<string>, failure: Option<string>): (s: Saved)
    ensures failure.Some? ==> s.row == row && s.error == failure
    ensures failure.None? ==> s.error == error
    ensures failure.None? ==> s.row.questionnaireResponses == answers && s.row.status == QuestionnaireInProgress
    ensures failure.None? ==>
      s.row.(questionnaireResponses := row.questionnaireResponses, status := row.status) == row
  {
    match failure
    case Some(message) => Saved(row, Some(message))
    case None => Saved(row.(questionnaireResponses := answers, status := QuestionnaireInProgress), error)
  }

  /** What the load on mount leaves: the hook's answers and `error`. */
  datatype Loaded = Loaded(answers: Responses, error: Option<string>)

  /** The load on mount, given whether the select fails. A failure records the
      message and keeps the answers; otherwise the stored answers replace
      them (a stored object is truthy even when empty). */
  function LoadAnswers(answers: Responses, error: Option<string>, row: Plan, failure: Option<string>): (l: Loaded)
    ensures failure.Some? ==> l.answers == answers && l.error == failure
    ensures failure.None? ==> l.answers == row.questionnaireResponses && l.error == error
  {
    match failure
    case Some(message) => Loaded(answers, Some(message))
    case None => Loaded(row.questionnaireResponses, error)
  }

  /** Saving and loading are inverse: after a successful save, a successful
      load brings back exactly the saved answers; after a failed save it
      brings back what was stored before. */
  lemma SaveThenLoad(row: Plan, answers: Responses, error: Option<string>, failure: Option<string>,
                     onScreen: Responses, shown: Option<string>)
    ensures failure.None? ==>
      LoadAnswers(onScreen, shown, SaveProgress(row, answers, error, failure).row, None).answers == answers
    ensures failure.Some? ==>
      LoadAnswers(onScreen, shown, SaveProgress(row, answers, error, failure).row, None).answers == row.questionnaireResponses
  {
  }

  /** The autosave effect schedules a save only once loading has finished and
      at least one answer exists. */
  function AutosaveArmed(answers: Responses, isLoading: bool): (armed: bool)
    ensures isLoading ==> !armed
    ensures answers == map[] ==> !armed
    ensures !isLoading && answers != map[] ==> armed
  {
    !(|answers| == 0 || isLoading)
  }
}
