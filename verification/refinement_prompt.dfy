/** The refinement prompt, as the exact string `buildRefinementPrompt`
    assembles, and the closed value lists the milestone-extraction prompt
    names. */
module RefinementPrompt {
  import opened Wrappers
  import opened Strings
  import opened DatabaseTypes

  // The fixed text between and after the interpolated values.
  const SectionHead: string := "## Section Being Refined\n**"
  const ContentHead: string := "**\n\n## Current Content\n"
  const FeedbackHead: string := "\n\n## User's Feedback\n"
  const AfterFeedback: string := "\n\n"
  const ContextHead: string := "## Business Context\n"
  const TaskBlock: string :=
    "\n## Task\nRewrite this section to address the user's feedback while maintaining quality. "
    + "Keep the same general structure but make the requested improvements.\n\n"
    + "Return ONLY the refined markdown content."

  /** The optional business context counts only when it is a non-empty
      string. */
  predicate HasContext(businessContext: Option<string>) {
    businessContext.Some? && businessContext.value != ""
  }

  /** The business-context block: a heading, the context and a newline when
      the context is truthy, and nothing otherwise. */
  function ContextBlock(businessContext: Option<string>): (b: string)
    ensures HasContext(businessContext) <==> |b| > 0
    ensures HasContext(businessContext) ==> b == ContextHead + businessContext.value + "\n"
  {
    if HasContext(businessContext) then ContextHead + businessContext.value + "\n" else ""
  }

  /** Everything before the business-context block. */
  function Head(title: string, content: string, feedback: string): string {
    SectionHead + title + ContentHead + content + FeedbackHead + feedback + AfterFeedback
  }

  /** Where the current content starts. */
  function ContentAt(title: string): nat {
    |SectionHead| + |title| + |ContentHead|
  }

  /** Where the feedback starts. */
  function FeedbackAt(title: string, content: string): nat {
    ContentAt(title) + |content| + |FeedbackHead|
  }

  /** `buildRefinementPrompt`. */
  function BuildRefinementPrompt(title: string, content: string, feedback: string,
                                 businessContext: Option<string>): (r: string)
    ensures OccursAt(r, |SectionHead|, title)
    ensures OccursAt(r, ContentAt(title), content)
    ensures OccursAt(r, FeedbackAt(title, content), feedback)
    ensures |SectionHead| + |title| < ContentAt(title)
    ensures ContentAt(title) + |content| < FeedbackAt(title, content)
    ensures EndsWith(r, TaskBlock)
  {
    Layout(SectionHead, title, ContentHead, content, FeedbackHead, feedback, AfterFeedback,
           ContextBlock(businessContext), TaskBlock);
    Head(title, content, feedback) + ContextBlock(businessContext) + TaskBlock
  }

  /** Where the three values sit in `a + x + b + y + c + z + d + m + t`, and
      that the whole ends with `t`. */
  lemma Layout(a: string, x: string, b: string, y: string, c: string, z: string, d: string,
               m: string, t: string)
    ensures var s := a + x + b + y + c + z + d + m + t;
      && OccursAt(s, |a|, x)
      && OccursAt(s, |a| + |x| + |b|, y)
      && OccursAt(s, |a| + |x| + |b| + |y| + |c|, z)
      && EndsWith(s, t)
  {
    var s := a + x + b + y + c + z + d + m + t;
    assert s == a + (x + (b + y + c + z + d + m + t));
    assert s == (a + x + b) + (y + (c + z + d + m + t));
    assert s == (a + x + b + y + c) + (z + (d + m + t));
    assert s[|a|..|a| + |x|] == x;
    assert s[|a + x + b|..|a + x + b| + |y|] == y;
    assert s[|a + x + b + y + c|..|a + x + b + y + c| + |z|] == z;
    OccursAtEnd(a + x + b + y + c + z + d + m, t);
  }

  /** The business-context block is present exactly when the context is
      truthy: without it the prompt is the head followed directly by the
      task, and with it the block sits between the two. */
  lemma ContextBlockPlacement(title: string, content: string, feedback: string, businessContext: Option<string>)
    ensures var r := BuildRefinementPrompt(title, content, feedback, businessContext);
      && (!HasContext(businessContext) <==> r == Head(title, content, feedback) + TaskBlock)
      && (HasContext(businessContext) ==>
            OccursAt(r, |Head(title, content, feedback)|, ContextHead + businessContext.value + "\n"))
  {
    var h := Head(title, content, feedback);
    var b := ContextBlock(businessContext);
    InsertedBlock(h, b, TaskBlock);
  }

  /** `h + b + t` is `h + t` exactly when `b` is empty, and holds `b` right
      after `h`. */
  lemma InsertedBlock(h: string, b: string, t: string)
    ensures |b| == 0 <==> h + b + t == h + t
    ensures OccursAt(h + b + t, |h|, b)
  {
    if |b| > 0 {
      assert |h + b + t| > |h + t|;
    } else {
      assert h + b == h;
    }
    assert (h + b + t)[|h|..|h| + |b|] == b;
  }

  /** Adding a truthy business context inserts its block just before the
      task and changes nothing else. */
  lemma ContextOnlyInserts(title: string, content: string, feedback: string, businessContext: Option<string>)
    requires HasContext(businessContext)
    ensures var without := BuildRefinementPrompt(title, content, feedback, None);
      var k := |without| - |TaskBlock|;
      BuildRefinementPrompt(title, content, feedback, businessContext)
        == without[..k] + ContextBlock(businessContext) + without[k..]
  {
    var h := Head(title, content, feedback);
    SplitAt(h, TaskBlock);
    assert ContextBlock(None) == "";
    assert h + "" == h;
  }

  /** Cutting `h + t` at `|h|` gives back `h` and `t`. */
  lemma SplitAt(h: string, t: string)
    ensures (h + t)[..|h|] == h && (h + t)[|h|..] == t
  {
  }

  // ------------------------------------------------------- milestone extraction

  /** The category names `MILESTONE_EXTRACTION_PROMPT` lists, in order. */
  function ExtractionCategories(): seq<string> {
    ["revenue", "product", "marketing", "operations", "hiring", "other"]
  }

  /** The priorities it lists: 1 high, 2 medium, 3 low. */
  function ExtractionPriorities(): seq<int> {
    [1, 2, 3]
  }

  /** The prompt names exactly the stored categories: every category's tag
      is listed, every listed name is some category's tag, and no name is
      listed twice. */
  lemma ExtractionCategoriesMatch()
    ensures forall c: MilestoneCategory :: MilestoneCategoryTag(c) in ExtractionCategories()
    ensures forall s :: s in ExtractionCategories() ==> exists c: MilestoneCategory :: MilestoneCategoryTag(c) == s
    ensures |ExtractionCategories()| == 6
    ensures forall i, j :: 0 <= i < j < |ExtractionCategories()| ==> ExtractionCategories()[i] != ExtractionCategories()[j]
  {
    forall s | s in ExtractionCategories()
      ensures exists c: MilestoneCategory :: MilestoneCategoryTag(c) == s
    {
      if s == "revenue" {
        assert MilestoneCategoryTag(Revenue) == s;
      } else if s == "product" {
        assert MilestoneCategoryTag(Product) == s;
      } else if s == "marketing" {
        assert MilestoneCategoryTag(Marketing) == s;
      } else if s == "operations" {
        assert MilestoneCategoryTag(Operations) == s;
      } else if s == "hiring" {
        assert MilestoneCategoryTag(Hiring) == s;
      } else {
        assert MilestoneCategoryTag(Other) == s;
      }
    }
  }

  /** The listed priorities are exactly the values of `Priority`. */
  lemma ExtractionPrioritiesMatch(p: int)
    ensures p in ExtractionPriorities() <==> 1 <= p <= 3
  {
  }
}
