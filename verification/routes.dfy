/** The pages the components send the browser to, and the URL each page is
    written as. A navigation is modelled as the page it targets; the URL is
    derived from it by `Href`. */
module Routes {
  import opened Wrappers
  import opened Strings
  import opened QuestionnaireTypes

  /** One `name=value` entry of a query string. */
  datatype Param = Param(name: string, value: string)

  /** A page of the app. A questionnaire page names its track, its 1-based
      step and, when the plan exists, the plan id; the milestones page
      carries its query entries, or none for the bare path. */
  datatype Destination =
    | Dashboard
    | PlanPage(planId: string)
    | GeneratePage(planId: string)
    | QuestionnairePage(kind: QuestionnaireKind, step: int, forPlan: Option<string>)
    | MilestonesPage(query: Option<seq<Param>>)

  /** The path prefix of a questionnaire track. */
  function BasePath(kind: QuestionnaireKind): string {
    match kind
    case BusinessPlanQuestionnaire => "/business-plan"
    case GtmPlanQuestionnaire => "/gtm-plan"
  }

  // ------------------------------------------------------------- numbers

  predicate IsDigit(c: char) {
    '0' <= c <= '9'
  }

  predicate AllDigits(s: string) {
    forall i :: 0 <= i < |s| ==> IsDigit(s[i])
  }

  /** The digit character for `d`. */
  function DigitChar(d: nat): (c: char)
    requires d < 10
    ensures IsDigit(c) && c as int - '0' as int == d
  {
    (d + '0' as int) as char
  }

  /** A natural number in decimal, as a template literal prints it: no sign,
      no leading zero. */
  function NatText(n: nat): (s: string)
    ensures 1 <= |s| && AllDigits(s)
    ensures |s| > 1 ==> s[0] != '0'
    decreases n
  {
    if n < 10 then [DigitChar(n)] else NatText(n / 10) + [DigitChar(n % 10)]
  }

  /** The value of a string of digits. */
  function DigitsValue(s: string): nat
    requires AllDigits(s)
    decreases |s|
  {
    if |s| == 0 then 0
    else DigitsValue(s[..|s| - 1]) * 10 + (s[|s| - 1] as int - '0' as int)
  }

  /** Reading the printed digits back gives the number. */
  lemma {:induction false} NatTextRoundTrip(n: nat)
    ensures DigitsValue(NatText(n)) == n
    decreases n
  {
    if n >= 10 {
      NatTextRoundTrip(n / 10);
      var s := NatText(n);
      assert s[..|s| - 1] == NatText(n / 10);
    }
  }

  /** An integer in decimal, with a leading `-` when negative. */
  function IntText(i: int): (s: string)
    ensures 1 <= |s|
    ensures i >= 0 <==> IsDigit(s[0])
  {
    if i < 0 then "-" + NatText(-i) else NatText(i)
  }

  /** Different integers print differently. */
  lemma IntTextInjective(i: int, j: int)
    requires IntText(i) == IntText(j)
    ensures i == j
  {
    if i < 0 {
      assert IntText(i)[1..] == NatText(-i);
      assert IntText(j)[1..] == NatText(-j);
      NatTextRoundTrip(-i);
      NatTextRoundTrip(-j);
    } else {
      NatTextRoundTrip(i);
      NatTextRoundTrip(j);
    }
  }

  // ---------------------------------------------------------------- URLs

  /** A query string's entries as `toString` lists them, in order, without
      percent-encoding. */
  function QueryText(query: seq<Param>): string {
    if |query| == 0 then ""
    else if |query| == 1 then query[0].name + "=" + query[0].value
    else query[0].name + "=" + query[0].value + "&" + QueryText(query[1..])
  }

  /** The URL a page is written as. */
  function Href(d: Destination): string {
    match d
    case Dashboard => "/dashboard"
    case PlanPage(id) => "/plans/" + id
    case GeneratePage(id) => "/plans/" + id + "/generate"
    case QuestionnairePage(kind, step, planId) =>
      BasePath(kind) + "/new/" + IntText(step) + (if planId.Some? then "?planId=" + planId.value else "")
    case MilestonesPage(query) =>
      "/accountability/milestones" + (if query.Some? then "?" + QueryText(query.value) else "")
  }

  /** Two questionnaire links of the same track and plan differ exactly when
      their steps differ. */
  lemma StepLinksDiffer(kind: QuestionnaireKind, n: int, m: int, planId: Option<string>)
    ensures Href(QuestionnairePage(kind, n, planId)) == Href(QuestionnairePage(kind, m, planId)) <==> n == m
  {
    var pre := BasePath(kind) + "/new/";
    var post := if planId.Some? then "?planId=" + planId.value else "";
    if Href(QuestionnairePage(kind, n, planId)) == Href(QuestionnairePage(kind, m, planId)) {
      var a, b := pre + IntText(n) + post, pre + IntText(m) + post;
      assert a == b;
      assert |IntText(n)| == |IntText(m)|;
      assert a[|pre|..|pre| + |IntText(n)|] == IntText(n);
      assert b[|pre|..|pre| + |IntText(m)|] == IntText(m);
      IntTextInjective(n, m);
    }
  }
}
