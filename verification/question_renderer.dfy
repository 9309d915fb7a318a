/** The question renderer's decisions: whether a question renders at all,
    which input control its type selects, the multi-select toggle, and the
    values the scale and yes-no buttons emit. Markup is not modelled. */
module QuestionRenderer {
  import opened Wrappers
  import Strings
  import opened QuestionnaireTypes
  import QuestionnaireEngine

  // ------------------------------------------------------ conditional display

  /** The renderer's own copy of the display rule: a single expected value is
      compared with strict equality, a list is searched with `includes`. */
  predicate RendererShows(q: Question, allAnswers: Responses) {
    match q.conditionalDisplay
    case None => true
    case Some(rule) =>
      match rule.value
      case One(expected) => Lookup(allAnswers, rule.questionId) == Some(Str(expected))
      case AnyOf(accepted) => exists i :: 0 <= i < |accepted| && Lookup(allAnswers, rule.questionId) == Some(Str(accepted[i]))
  }

  /** The renderer hides a question exactly when validation skips it as hidden,
      so a question the user cannot see never blocks a step. */
  lemma RendererAgreesWithValidation(q: Question, allAnswers: Responses)
    ensures !RendererShows(q, allAnswers) <==> !QuestionnaireEngine.ShownByRule(q, allAnswers)
    ensures !RendererShows(q, allAnswers) ==> QuestionnaireEngine.QuestionPasses(q, allAnswers)
  {
    if q.conditionalDisplay.Some? && q.conditionalDisplay.value.value.AnyOf? {
      var rule := q.conditionalDisplay.value;
      var accepted := rule.value.accepted;
      var v := Lookup(allAnswers, rule.questionId);
      if v.Some? && v.value.Str? && v.value.s in accepted {
        var i :| 0 <= i < |accepted| && accepted[i] == v.value.s;
        assert Lookup(allAnswers, rule.questionId) == Some(Str(accepted[i]));
      }
    }
  }

  // --------------------------------------------------------- input controls

  datatype Control = TextInput | TextArea | SelectMenu | OptionButtons | DateInput | CurrencyInput | ScaleButtons | YesNoButtons

  /** The input branches as written: each renders when the type string equals
      its literal, and the option-button branch tests the literal
      `"multiselect"`. */
  function RenderedControlsAsWritten(t: QuestionType): (controls: seq<Control>)
    ensures |controls| <= 1
  {
    var tag := QuestionTypeTag(t);
    (if tag == "text" then [TextInput] else [])
    + (if tag == "textarea" then [TextArea] else [])
    + (if tag == "select" then [SelectMenu] else [])
    + (if tag == "multiselect" then [OptionButtons] else [])
    + (if tag == "date" then [DateInput] else [])
    + (if tag == "currency" then [CurrencyInput] else [])
    + (if tag == "scale" then [ScaleButtons] else [])
    + (if tag == "yes-no" then [YesNoButtons] else [])
  }

  /** The type union spells the type `"multi-select"`, so as written a
      multi-select question renders its label and no input at all. */
  lemma MultiSelectRendersNoInputAsWritten()
    ensures RenderedControlsAsWritten(MultiSelect) == []
  {
  }

  /** The input branches with the option-button branch testing the type
      union's own spelling: every type renders exactly one control, the
      option buttons for a multi-select question. */
  function RenderedControls(t: QuestionType): (controls: seq<Control>)
    ensures |controls| == 1
    ensures controls[0] == OptionButtons <==> t == MultiSelect
  {
    var tag := QuestionTypeTag(t);
    (if tag == "text" then [TextInput] else [])
    + (if tag == "textarea" then [TextArea] else [])
    + (if tag == "select" then [SelectMenu] else [])
    + (if tag == "multi-select" then [OptionButtons] else [])
    + (if tag == "date" then [DateInput] else [])
    + (if tag == "currency" then [CurrencyInput] else [])
    + (if tag == "scale" then [ScaleButtons] else [])
    + (if tag == "yes-no" then [YesNoButtons] else [])
  }

  /** The correction changes the multi-select question only: every other
      type renders the same control as before. */
  lemma CorrectionOnlyTouchesMultiSelect(t: QuestionType)
    ensures t != MultiSelect <==> RenderedControls(t) == RenderedControlsAsWritten(t)
  {
  }

  // ------------------------------------------------------- multi-select toggle

  /** `filter((v) => v !== option)`. */
  function RemoveAll(xs: seq<string>, option: string): (r: seq<string>)
    ensures |r| <= |xs|
    ensures forall x :: multiset(r)[x] == if x == option then 0 else multiset(xs)[x]
    ensures forall x :: x in r <==> x in xs && x != option
  {
    if |xs| == 0 then []
    else
      assert xs == [xs[0]] + xs[1..];
      (if xs[0] == option then [] else [xs[0]]) + RemoveAll(xs[1..], option)
  }

  /** Filtering distributes over concatenation, so the kept elements keep their
      relative order. */
  lemma {:induction false} RemoveAllConcat(a: seq<string>, b: seq<string>, option: string)
    ensures RemoveAll(a + b, option) == RemoveAll(a, option) + RemoveAll(b, option)
  {
    if |a| == 0 {
      assert a + b == b;
    } else {
      assert (a + b)[1..] == a[1..] + b;
      RemoveAllConcat(a[1..], b, option);
    }
  }

  /** Removing an option that is not there returns the list unchanged. */
  lemma {:induction false} RemoveAllAbsent(xs: seq<string>, option: string)
    requires option !in xs
    ensures RemoveAll(xs, option) == xs
  {
    if |xs| > 0 {
      RemoveAllAbsent(xs[1..], option);
    }
  }

  /** What `(value as string[]) || []` holds at run time: a list, or a
      string the cast does not convert. */
  datatype Selection = Items(items: seq<string>) | Chars(s: string)

  /** The current selection: a falsy answer reads as `[]`, a list as itself
      and a non-empty string as that string. A truthy number or `true` has
      no `includes`, so rendering the buttons throws a `TypeError`. */
  function SelectedValues(value: Option<Answer>): (r: Result<Selection, string>)
    ensures !TruthyOpt(value) ==> r == Success(Items([]))
    ensures value.Some? && value.value.StrList? ==> r == Success(Items(value.value.items))
    ensures value.Some? && value.value.Str? && value.value.s != "" ==> r == Success(Chars(value.value.s))
    ensures r.Failure? <==> TruthyOpt(value) && (value.value.Num? || value.value.Bool?)
  {
    if !TruthyOpt(value) then Success(Items([]))
    else match value.value
      case StrList(items) => Success(Items(items))
      case Str(s) => Success(Chars(s))
      case _ => Failure("TypeError: selectedValues.includes is not a function")
  }

  /** `selectedValues.includes(option.value)`: membership in a list, a
      substring search in a string. */
  function IsSelected(sel: Selection, option: string): (b: bool)
    ensures sel.Items? ==> (b <==> option in sel.items)
    ensures sel.Chars? ==> (b <==> Strings.IsInfix(option, sel.s))
  {
    match sel
    case Items(items) => option in items
    case Chars(s) => Strings.Includes(s, option)
  }

  /** Clicking an option button: a selected option is removed (every
      occurrence), an unselected one is appended at the end. */
  function Toggle(selected: seq<string>, option: string): (r: seq<string>)
    ensures option in r <==> option !in selected
    ensures option !in selected ==> |r| == |selected| + 1 && r[..|selected|] == selected && r[|selected|] == option
    ensures forall x :: x != option ==> multiset(r)[x] == multiset(selected)[x]
  {
    if option in selected then RemoveAll(selected, option) else selected + [option]
  }

  /** Toggling an unselected option twice restores the original selection. */
  lemma ToggleTwiceRestores(selected: seq<string>, option: string)
    requires option !in selected
    ensures Toggle(Toggle(selected, option), option) == selected
  {
    RemoveAllConcat(selected, [option], option);
    RemoveAllAbsent(selected, option);
  }

  /** `[...s]` on a string: its characters, each as a one-character string. */
  function Spread(s: string): (r: seq<string>)
    ensures |r| == |s| && forall i :: 0 <= i < |s| ==> r[i] == [s[i]]
  {
    seq(|s|, i requires 0 <= i < |s| => [s[i]])
  }

  /** The answer an option click emits. On a list selection the option is
      toggled. On a string selection, a click on an option the string
      contains calls `filter`, which strings lack, and throws; any other
      click spreads the string into its characters and appends the option.
      When the selection itself throws, no button is rendered. */
  function ToggleAnswer(value: Option<Answer>, option: string): (r: Result<Answer, string>)
    ensures SelectedValues(value).Failure? ==> r.Failure?
    ensures SelectedValues(value).Success? && SelectedValues(value).value.Items? ==>
      r.Success? && r.value.StrList?
      && (option in r.value.items <==> option !in SelectedValues(value).value.items)
    ensures value.Some? && value.value.Str? && value.value.s != "" ==>
      (r.Failure? <==> Strings.IsInfix(option, value.value.s))
    ensures value.Some? && value.value.Str? && value.value.s != "" && r.Success? ==>
      r.value.StrList? && |r.value.items| == |value.value.s| + 1
      && r.value.items[|value.value.s|] == option
      && forall i :: 0 <= i < |value.value.s| ==> r.value.items[i] == [value.value.s[i]]
  {
    match SelectedValues(value)
    case Failure(e) => Failure(e)
    case Success(Items(items)) => Success(StrList(Toggle(items, option)))
    case Success(Chars(s)) =>
      if IsSelected(Chars(s), option) then Failure("TypeError: selectedValues.filter is not a function")
      else Success(StrList(Spread(s) + [option]))
  }

  /** On a list answer, or none, toggling an unselected option twice gives
      back the list it started from. */
  lemma ToggleAnswerTwiceRestores(items: seq<string>, option: string)
    requires option !in items
    ensures ToggleAnswer(Some(StrList(items)), option).Success?
    ensures var once := ToggleAnswer(Some(StrList(items)), option).value;
      ToggleAnswer(Some(once), option) == Success(StrList(items))
  {
    ToggleTwiceRestores(items, option);
  }

  /** A string answer: clicking an option it does not contain spreads it
      into characters, clicking one it contains throws, and a truthy number
      throws before any button is shown. */
  lemma StringAndNumberSelections()
    ensures ToggleAnswer(Some(Str("ab")), "c") == Success(StrList(["a", "b", "c"]))
    ensures ToggleAnswer(Some(Str("abc")), "b").Failure?
    ensures ToggleAnswer(Some(Num(3.0)), "b").Failure?
  {
    assert Strings.OccursAt("abc", 1, "b");
    var r := ToggleAnswer(Some(Str("ab")), "c");
    assert !Strings.IsInfix("c", "ab") by {
      forall i ensures !Strings.OccursAt("ab", i, "c") {
        if 0 <= i < 2 {
          assert "ab"[i..i + 1] == ["ab"[i]];
        }
      }
    }
    assert r.value.items == ["a", "b", "c"];
  }

  // ------------------------------------------------------- button answers

  /** The answers the button-based inputs can emit: the scale emits the
      numbers 1 to 5, yes-no emits `true` or `false`. */
  function ButtonAnswers(t: QuestionType): (r: seq<Answer>)
    ensures t == Scale ==> |r| == 5 && forall i :: 0 <= i < 5 ==> r[i] == Num((i + 1) as real)
    ensures t == YesNo ==> r == [Bool(true), Bool(false)]
    ensures t != Scale && t != YesNo ==> r == []
  {
    match t
    case Scale => seq(5, i => Num((i + 1) as real))
    case YesNo => [Bool(true), Bool(false)]
    case _ => []
  }

  /** Any button answer fills a required question: neither `0` nor `false` is
      treated as missing, because `false` passes and the scale never emits 0. */
  lemma ButtonAnswersAreNeverMissing(t: QuestionType, a: Answer)
    requires a in ButtonAnswers(t)
    ensures !QuestionnaireEngine.IsMissing(Some(a))
    ensures a.Num? ==> 1.0 <= a.n <= 5.0 && a.n.Floor as real == a.n
  {
  }
}
