/** What the two plan prompts share: how a context property is read from the
    questionnaire answers, how a value is interpolated into a template, and
    the structure of a prompt as a sequence of lines. The prose around the
    values is not modelled; a prompt is its labelled value lines, its section
    headings and the keys of the JSON object it requests. */
module PromptLines {
  import opened Wrappers
  import opened Strings
  import opened QuestionnaireTypes

  /** How a context property treats a missing or falsy answer: `value ||
      fallback`, or a plain pass-through that may leave it undefined. */
  datatype Default = Fallback(fallback: Answer) | PassThrough

  /** The answer key a context property is read from, and its default. */
  datatype ContextSource = ContextSource(key: string, default: Default)

  /** The context value of one property. */
  function Resolve(answers: Responses, src: ContextSource): (v: Option<Answer>)
    ensures src.default.PassThrough? ==> v == Lookup(answers, src.key)
    ensures src.default.Fallback? && TruthyOpt(Lookup(answers, src.key)) ==> v == Some(answers[src.key])
    ensures src.default.Fallback? && !TruthyOpt(Lookup(answers, src.key)) ==> v == Some(src.default.fallback)
  {
    match src.default
    case Fallback(d) => Some(OrElse(Lookup(answers, src.key), d))
    case PassThrough => Lookup(answers, src.key)
  }

  /** `String(value)` inside a template literal. Number formatting is a
      parameter; a list is joined with commas; `undefined` is spelled out. */
  function Display(v: Option<Answer>, showNumber: real -> string): string {
    match v
    case None => "undefined"
    case Some(Str(s)) => s
    case Some(StrList(items)) => Join(items, ",")
    case Some(Num(n)) => showNumber(n)
    case Some(Bool(b)) => if b then "true" else "false"
    case Some(Null) => "null"
  }

  /** `value.join(', ')`: only a list has `join`; anything else throws. */
  function JoinList(v: Option<Answer>): (r: Result<string, string>)
    ensures r.Success? <==> v.Some? && v.value.StrList?
    ensures r.Success? ==> r.value == Join(v.value.items, ", ")
  {
    match v
    case Some(StrList(items)) => Success(Join(items, ", "))
    case _ => Failure("TypeError: join is not a function")
  }

  /** One line of a prompt, over a type `F` naming the labelled values. A
      `Recap` repeats a value in the closing instructions; `Schema` is the
      JSON object the prompt requests, by its keys in order. */
  datatype Line<F> = Heading(title: string) | Blank | Entry(field: F, value: string)
                   | Recap(field: F, value: string) | Schema(keys: seq<SectionKey>)

  /** The value of the first `Entry` line for `f`, if any. */
  function ValueOf<F(==)>(lines: seq<Line<F>>, f: F): (r: Option<string>)
    ensures r.Some? <==> exists i :: 0 <= i < |lines| && lines[i].Entry? && lines[i].field == f
    ensures r.Some? ==> Entry(f, r.value) in lines
  {
    if |lines| == 0 then None
    else if lines[0].Entry? && lines[0].field == f then Some(lines[0].value)
    else
      var r := ValueOf(lines[1..], f);
      assert forall i :: 0 < i < |lines| ==> lines[i] == lines[1..][i - 1];
      r
  }

  /** A prompt template: its section headings, its labelled value lines (one
      that is always present, or one present only when the value is truthy,
      as in `${value ? `**Label:** ${value}` : ''}`), the JSON object it
      requests, and values repeated in the closing instructions. */
  datatype Slot<F> = Title(title: string) | Always(field: F) | WhenTruthy(field: F)
                   | Keys(keys: seq<SectionKey>) | Again(field: F)

  /** One slot filled in: `value` is a field's context value, `text` its
      interpolated text. An absent conditional line is left empty. */
  function RenderSlot<F>(slot: Slot<F>, value: F -> Option<Answer>, text: F -> string): Line<F> {
    match slot
    case Title(t) => Heading(t)
    case Always(f) => Entry(f, text(f))
    case WhenTruthy(f) => if TruthyOpt(value(f)) then Entry(f, text(f)) else Blank
    case Keys(k) => Schema(k)
    case Again(f) => Recap(f, text(f))
  }

  /** A template filled in, line by line. */
  function Render<F>(t: seq<Slot<F>>, value: F -> Option<Answer>, text: F -> string): (lines: seq<Line<F>>)
    ensures |lines| == |t|
    ensures forall i :: 0 <= i < |t| ==> lines[i] == RenderSlot(t[i], value, text)
  {
    seq(|t|, i requires 0 <= i < |t| => RenderSlot(t[i], value, text))
  }

  /** Whether a slot is a value line for `f`. */
  predicate Labels<F(==)>(slot: Slot<F>, f: F) {
    (slot.Always? || slot.WhenTruthy?) && slot.field == f
  }

  /** How many value-line slots of `t` are for `f`. */
  function Occurrences<F(==)>(t: seq<Slot<F>>, f: F): nat {
    if |t| == 0 then 0
    else (if Labels(t[0], f) then 1 else 0) + Occurrences(t[1..], f)
  }

  /** The first value-line slot for `f`. */
  function SlotFor<F(==)>(t: seq<Slot<F>>, f: F): (r: Option<Slot<F>>)
    ensures r.None? <==> Occurrences(t, f) == 0
    ensures r.Some? ==> Labels(r.value, f)
  {
    if |t| == 0 then None
    else if Labels(t[0], f) then Some(t[0])
    else SlotFor(t[1..], f)
  }

  /** Rendering drops the first slot with the first line. */
  lemma RenderTail<F>(t: seq<Slot<F>>, value: F -> Option<Answer>, text: F -> string)
    requires |t| > 0
    ensures Render(t, value, text)[1..] == Render(t[1..], value, text)
  {
  }

  /** The value a rendered template shows for a field it labels at most
      once: none when it has no slot; its text when the slot is
      unconditional; and for a conditional slot, its text exactly when the
      value is truthy. */
  lemma {:induction false} RenderedValue<F>(t: seq<Slot<F>>, value: F -> Option<Answer>, text: F -> string, f: F)
    requires Occurrences(t, f) <= 1
    ensures SlotFor(t, f).None? ==> ValueOf(Render(t, value, text), f).None?
    ensures SlotFor(t, f) == Some(Always(f)) ==> ValueOf(Render(t, value, text), f) == Some(text(f))
    ensures SlotFor(t, f) == Some(WhenTruthy(f)) ==>
              ValueOf(Render(t, value, text), f) == if TruthyOpt(value(f)) then Some(text(f)) else None
    decreases |t|
  {
    if |t| > 0 {
      RenderTail(t, value, text);
      RenderedValue(t[1..], value, text, f);
    }
  }

  /** The keys of the first `Keys` slot of a template. */
  function TemplateKeys<F>(t: seq<Slot<F>>): seq<SectionKey> {
    if |t| == 0 then []
    else if t[0].Keys? then t[0].keys
    else TemplateKeys(t[1..])
  }

  /** A rendered template requests the keys its template names. */
  lemma {:induction false} RenderedKeys<F>(t: seq<Slot<F>>, value: F -> Option<Answer>, text: F -> string)
    ensures SchemaKeys(Render(t, value, text)) == TemplateKeys(t)
    decreases |t|
  {
    if |t| > 0 {
      RenderTail(t, value, text);
      RenderedKeys(t[1..], value, text);
    }
  }

  /** Counting slots distributes over concatenation. */
  lemma {:induction false} OccurrencesConcat<F>(a: seq<Slot<F>>, b: seq<Slot<F>>, f: F)
    ensures Occurrences(a + b, f) == Occurrences(a, f) + Occurrences(b, f)
    decreases |a|
  {
    if |a| > 0 {
      assert (a + b)[1..] == a[1..] + b;
      OccurrencesConcat(a[1..], b, f);
    } else {
      assert a + b == b;
    }
  }

  /** The first slot for `f` in a concatenation is found in the first part
      when it has one. */
  lemma {:induction false} SlotForConcat<F>(a: seq<Slot<F>>, b: seq<Slot<F>>, f: F)
    ensures SlotFor(a + b, f) == if SlotFor(a, f).Some? then SlotFor(a, f) else SlotFor(b, f)
    decreases |a|
  {
    if |a| > 0 {
      assert (a + b)[1..] == a[1..] + b;
      SlotForConcat(a[1..], b, f);
    } else {
      assert a + b == b;
    }
  }

  /** Keys requested after a part with no `Keys` slot are the second part's. */
  lemma {:induction false} TemplateKeysConcat<F>(a: seq<Slot<F>>, b: seq<Slot<F>>)
    requires forall i :: 0 <= i < |a| ==> !a[i].Keys?
    ensures TemplateKeys(a + b) == TemplateKeys(b)
    decreases |a|
  {
    if |a| > 0 {
      assert (a + b)[1..] == a[1..] + b;
      TemplateKeysConcat(a[1..], b);
    } else {
      assert a + b == b;
    }
  }

  /** The value-line slots of `t` are in strictly ascending `rank`, all above
      `lo`; `hi` is the rank of the last one, or `lo` when there is none. */
  predicate Ascends<F>(t: seq<Slot<F>>, rank: F -> int, lo: int, hi: int)
    decreases |t|
  {
    if |t| == 0 then lo == hi
    else if t[0].Always? || t[0].WhenTruthy? then lo < rank(t[0].field) && Ascends(t[1..], rank, rank(t[0].field), hi)
    else Ascends(t[1..], rank, lo, hi)
  }

  /** Two ascending parts, the second starting where the first ends, make an
      ascending whole. */
  lemma {:induction false} AscendsConcat<F>(a: seq<Slot<F>>, b: seq<Slot<F>>, rank: F -> int, lo: int, mid: int, hi: int)
    requires Ascends(a, rank, lo, mid) && Ascends(b, rank, mid, hi)
    ensures Ascends(a + b, rank, lo, hi)
    decreases |a|
  {
    if |a| > 0 {
      assert (a + b)[1..] == a[1..] + b;
      if a[0].Always? || a[0].WhenTruthy? {
        AscendsConcat(a[1..], b, rank, rank(a[0].field), mid, hi);
      } else {
        AscendsConcat(a[1..], b, rank, lo, mid, hi);
      }
    } else {
      assert a + b == b;
    }
  }

  /** Six consecutive ascending parts make an ascending whole. */
  lemma AscendsConcat6<F>(a: seq<Slot<F>>, b: seq<Slot<F>>, c: seq<Slot<F>>, d: seq<Slot<F>>, e: seq<Slot<F>>, f: seq<Slot<F>>,
                          rank: F -> int, m0: int, m1: int, m2: int, m3: int, m4: int, m5: int, m6: int)
    requires Ascends(a, rank, m0, m1) && Ascends(b, rank, m1, m2) && Ascends(c, rank, m2, m3)
    requires Ascends(d, rank, m3, m4) && Ascends(e, rank, m4, m5) && Ascends(f, rank, m5, m6)
    ensures Ascends(a + (b + (c + (d + (e + f)))), rank, m0, m6)
  {
    AscendsConcat(e, f, rank, m4, m5, m6);
    AscendsConcat(d, e + f, rank, m3, m4, m6);
    AscendsConcat(c, d + (e + f), rank, m2, m3, m6);
    AscendsConcat(b, c + (d + (e + f)), rank, m1, m2, m6);
    AscendsConcat(a, b + (c + (d + (e + f))), rank, m0, m1, m6);
  }

  /** A template with a value line that ascends from a bound ascends from any
      lower bound. */
  lemma {:induction false} AscendsWeaken<F>(t: seq<Slot<F>>, rank: F -> int, lo: int, lo2: int, hi: int)
    requires lo <= lo2 < hi && Ascends(t, rank, lo2, hi)
    ensures Ascends(t, rank, lo, hi)
    decreases |t|
  {
    if |t| > 0 && !(t[0].Always? || t[0].WhenTruthy?) {
      AscendsWeaken(t[1..], rank, lo, lo2, hi);
    }
  }

  /** In an ascending template no field ranked at or below the bound has a
      line, and no field has two. */
  lemma {:induction false} AscendingAtMostOnce<F>(t: seq<Slot<F>>, rank: F -> int, lo: int, hi: int, f: F)
    requires Ascends(t, rank, lo, hi)
    ensures rank(f) <= lo ==> Occurrences(t, f) == 0
    ensures Occurrences(t, f) <= 1
    decreases |t|
  {
    if |t| > 0 {
      if t[0].Always? || t[0].WhenTruthy? {
        AscendingAtMostOnce(t[1..], rank, rank(t[0].field), hi, f);
      } else {
        AscendingAtMostOnce(t[1..], rank, lo, hi, f);
      }
    }
  }

  /** A labelled slot is counted. */
  lemma {:induction false} LabelledIsCounted<F>(t: seq<Slot<F>>, f: F, i: int)
    requires 0 <= i < |t| && Labels(t[i], f)
    ensures Occurrences(t, f) >= 1
    decreases |t|
  {
    if i > 0 {
      assert t[1..][i - 1] == t[i];
      LabelledIsCounted(t[1..], f, i - 1);
    }
  }

  /** A field labelled at most once is found at its one slot. */
  lemma {:induction false} SlotForMember<F>(t: seq<Slot<F>>, f: F, i: int)
    requires 0 <= i < |t| && Labels(t[i], f) && Occurrences(t, f) <= 1
    ensures SlotFor(t, f) == Some(t[i])
    decreases |t|
  {
    if i > 0 {
      assert t[1..][i - 1] == t[i];
      LabelledIsCounted(t[1..], f, i - 1);
      SlotForMember(t[1..], f, i - 1);
    }
  }

  /** A value the template repeats is repeated with its text. */
  lemma RenderedRecap<F>(t: seq<Slot<F>>, value: F -> Option<Answer>, text: F -> string, f: F)
    requires Again(f) in t
    ensures Recap(f, text(f)) in Render(t, value, text)
  {
    var i :| 0 <= i < |t| && t[i] == Again(f);
    assert Render(t, value, text)[i] == Recap(f, text(f));
  }

  /** The keys of the JSON object a prompt requests. */
  function SchemaKeys<F>(lines: seq<Line<F>>): (keys: seq<SectionKey>)
    ensures keys != [] ==> Schema(keys) in lines
  {
    if |lines| == 0 then []
    else if lines[0].Schema? then lines[0].keys
    else SchemaKeys(lines[1..])
  }

  /** The keys of the sections of generated plans: the twelve business-plan
      sections, then the ten go-to-market sections other than the shared
      executive summary. */
  datatype SectionKey =
    | ExecutiveSummary | MarketOpportunity | ProblemAnalysis | SolutionValueProp | BusinessModel
    | GoToMarketSection | CompetitiveAnalysis | TractionMilestones | FinancialProjections | TeamSection
    | RisksMitigation | ActionPlan | PositioningAndMessaging | TargetAudienceDeepDive
    | CompetitivePositioningSection | ChannelStrategy | LaunchTimeline | ContentStrategy
    | BudgetAllocation | MetricsAndKpis | RiskMitigation | QuickWins

  /** The key as it appears in the JSON object and in the content map. */
  function KeyName(k: SectionKey): string {
    match k
    case ExecutiveSummary => "executive_summary"
    case MarketOpportunity => "market_opportunity"
    case ProblemAnalysis => "problem_analysis"
    case SolutionValueProp => "solution_value_prop"
    case BusinessModel => "business_model"
    case GoToMarketSection => "go_to_market"
    case CompetitiveAnalysis => "competitive_analysis"
    case TractionMilestones => "traction_milestones"
    case FinancialProjections => "financial_projections"
    case TeamSection => "team_section"
    case RisksMitigation => "risks_mitigation"
    case ActionPlan => "action_plan"
    case PositioningAndMessaging => "positioning_and_messaging"
    case TargetAudienceDeepDive => "target_audience_deep_dive"
    case CompetitivePositioningSection => "competitive_positioning"
    case ChannelStrategy => "channel_strategy"
    case LaunchTimeline => "launch_timeline"
    case ContentStrategy => "content_strategy"
    case BudgetAllocation => "budget_allocation"
    case MetricsAndKpis => "metrics_and_kpis"
    case RiskMitigation => "risk_mitigation"
    case QuickWins => "quick_wins"
  }

  /** The title a section is shown under. The executive summary, the one
      key both plans share, has the same title in both. The icon names are
      presentation and are not modelled. */
  function SectionTitle(k: SectionKey): string {
    match k
    case ExecutiveSummary => "Executive Summary"
    case MarketOpportunity => "Market Opportunity"
    case ProblemAnalysis => "Problem Analysis"
    case SolutionValueProp => "Solution & Value Proposition"
    case BusinessModel => "Business Model"
    case GoToMarketSection => "Go-to-Market Strategy"
    case CompetitiveAnalysis => "Competitive Analysis"
    case TractionMilestones => "Traction & Milestones"
    case FinancialProjections => "Financial Projections"
    case TeamSection => "Team"
    case RisksMitigation => "Risks & Mitigation"
    case ActionPlan => "90-Day Action Plan"
    case PositioningAndMessaging => "Positioning & Messaging"
    case TargetAudienceDeepDive => "Target Audience Deep Dive"
    case CompetitivePositioningSection => "Competitive Positioning"
    case ChannelStrategy => "Channel Strategy"
    case LaunchTimeline => "Launch Timeline"
    case ContentStrategy => "Content Strategy"
    case BudgetAllocation => "Budget Allocation"
    case MetricsAndKpis => "Metrics & KPIs"
    case RiskMitigation => "Risk Mitigation"
    case QuickWins => "Quick Wins"
  }

  /** No element occurs twice. */
  predicate Distinct<T(==)>(xs: seq<T>) {
    forall i, j :: 0 <= i < j < |xs| ==> xs[i] != xs[j]
  }
}
