/** The questionnaire data model: question definitions, conditional-display
    rules, validation bounds and the answer map. Questionnaire definitions are
    data supplied to the engine, never built here. */
module QuestionnaireTypes {
  import opened Wrappers

  /** One answer value: the union `string | string[] | number | boolean | null`.
      Numbers are modelled as reals; NaN and infinities are not represented. */
  datatype Answer = Str(s: string) | StrList(items: seq<string>) | Num(n: real) | Bool(b: bool) | Null

  /** The answer map. A question id that is not a key reads as `undefined`. */
  type Responses = map<string, Answer>

  /** JavaScript truthiness of an answer: the empty string, zero, `false` and
      `null` are falsy; every array, even an empty one, is truthy. */
  predicate Truthy(a: Answer) {
    match a
    case Str(s) => s != ""
    case StrList(_) => true
    case Num(n) => n != 0.0
    case Bool(b) => b
    case Null => false
  }

  /** Truthiness of a possibly-undefined value (`undefined` is falsy). */
  predicate TruthyOpt(v: Option<Answer>) {
    v.Some? && Truthy(v.value)
  }

  /** Reading `responses[key]`. */
  function Lookup(responses: Responses, key: string): (r: Option<Answer>)
    ensures r.Some? <==> key in responses
    ensures r.Some? ==> r.value == responses[key]
  {
    if key in responses then Some(responses[key]) else None
  }

  /** `value || fallback`: the value when truthy, the fallback otherwise. */
  function OrElse(v: Option<Answer>, fallback: Answer): (r: Answer)
    ensures TruthyOpt(v) ==> r == v.value
    ensures !TruthyOpt(v) ==> r == fallback
  {
    if TruthyOpt(v) then v.value else fallback
  }

  /** The closed set of eight question types. */
  datatype QuestionType = Text | Textarea | Select | MultiSelect | Date | Currency | Scale | YesNo

  const AllQuestionTypes: seq<QuestionType> :=
    [Text, Textarea, Select, MultiSelect, Date, Currency, Scale, YesNo]

  /** The string each type is spelled as in a questionnaire definition. */
  function QuestionTypeTag(t: QuestionType): string {
    match t
    case Text => "text"
    case Textarea => "textarea"
    case Select => "select"
    case MultiSelect => "multi-select"
    case Date => "date"
    case Currency => "currency"
    case Scale => "scale"
    case YesNo => "yes-no"
  }

  /** The type list is exhaustive and its eight spellings are pairwise distinct. */
  lemma QuestionTypesClosed()
    ensures |AllQuestionTypes| == 8
    ensures forall t: QuestionType :: t in AllQuestionTypes
    ensures forall i, j :: 0 <= i < j < |AllQuestionTypes| ==>
      QuestionTypeTag(AllQuestionTypes[i]) != QuestionTypeTag(AllQuestionTypes[j])
  {
    forall t: QuestionType ensures t in AllQuestionTypes {
      match t
      case Text => assert AllQuestionTypes[0] == t;
      case Textarea => assert AllQuestionTypes[1] == t;
      case Select => assert AllQuestionTypes[2] == t;
      case MultiSelect => assert AllQuestionTypes[3] == t;
      case Date => assert AllQuestionTypes[4] == t;
      case Currency => assert AllQuestionTypes[5] == t;
      case Scale => assert AllQuestionTypes[6] == t;
      case YesNo => assert AllQuestionTypes[7] == t;
    }
  }

  datatype QuestionOption = QuestionOption(value: string, caption: string, description: Option<string>)

  /** Every bound is optional. Lengths are integers here; fractional bounds are
      not modelled. */
  datatype QuestionValidation = QuestionValidation(
    min: Option<real>,
    max: Option<real>,
    minLength: Option<int>,
    maxLength: Option<int>,
    pattern: Option<string>,
    required: Option<bool>)

  /** The value a conditional rule compares against: one string, or a list of
      accepted strings. */
  datatype ConditionValue = One(expected: string) | AnyOf(accepted: seq<string>)

  datatype ConditionalDisplay = ConditionalDisplay(questionId: string, value: ConditionValue)

  /** A question: `required` is mandatory, `validation` and
      `conditionalDisplay` are optional. */
  datatype Question = Question(
    id: string,
    qtype: QuestionType,
    caption: string,
    required: bool,
    validation: Option<QuestionValidation>,
    options: Option<seq<QuestionOption>>,
    conditionalDisplay: Option<ConditionalDisplay>)

  datatype QuestionnaireStep = QuestionnaireStep(id: string, title: string, description: string, questions: seq<Question>)

  /** A questionnaire exists only for the two generated plan kinds. */
  datatype QuestionnaireKind = BusinessPlanQuestionnaire | GtmPlanQuestionnaire

  datatype Questionnaire = Questionnaire(planType: QuestionnaireKind, steps: seq<QuestionnaireStep>)
}
