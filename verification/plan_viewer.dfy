/** The plan page: one section at a time with Previous/Next paging, the
    refine request it sends, which controls a finalized plan shows, and the
    printable text of the whole plan. */
module PlanViewer {
  import opened Wrappers
  import opened Strings
  import opened DatabaseTypes
  import RefineRoute

  /** A section the page lists: its content key and its heading. */
  datatype Section = Section(key: string, title: string)

  /** No two sections share a key. */
  predicate DistinctKeys(sections: seq<Section>) {
    forall i, j :: 0 <= i < j < |sections| ==> sections[i].key != sections[j].key
  }

  /** The section open when the page loads: the first one, if any. */
  function InitialSection(sections: seq<Section>): (active: Option<string>)
    ensures active.Some? <==> |sections| > 0
    ensures active.Some? ==> active.value == sections[0].key
  {
    if |sections| > 0 then Some(sections[0].key) else None
  }

  /** `findIndex` on the key: the first section with that key, or -1. */
  function FindIndex(sections: seq<Section>, key: string): (i: int)
    ensures -1 <= i < |sections|
    ensures i >= 0 ==> sections[i].key == key && forall j :: 0 <= j < i ==> sections[j].key != key
    ensures i == -1 <==> forall j :: 0 <= j < |sections| ==> sections[j].key != key
    decreases |sections|
  {
    if |sections| == 0 then -1
    else if sections[0].key == key then 0
    else
      var k := FindIndex(sections[1..], key);
      if k == -1 then -1 else k + 1
  }

  /** The sections whose body is rendered: those keyed like the active one. */
  function Rendered(sections: seq<Section>, active: string): (r: seq<Section>)
    ensures forall i :: 0 <= i < |r| ==> r[i].key == active && r[i] in sections
    ensures forall i :: 0 <= i < |sections| && sections[i].key == active ==> sections[i] in r
    decreases |sections|
  {
    if |sections| == 0 then []
    else (if sections[0].key == active then [sections[0]] else []) + Rendered(sections[1..], active)
  }

  /** With distinct keys exactly one body is rendered when the active key is
      listed, and none otherwise. */
  lemma {:induction false} OneSectionRendered(sections: seq<Section>, active: string)
    requires DistinctKeys(sections)
    ensures |Rendered(sections, active)| == (if FindIndex(sections, active) >= 0 then 1 else 0)
    decreases |sections|
  {
    if |sections| > 0 {
      assert DistinctKeys(sections[1..]) by {
        forall i, j | 0 <= i < j < |sections[1..]| ensures sections[1..][i].key != sections[1..][j].key {
          assert sections[1..][i] == sections[i + 1] && sections[1..][j] == sections[j + 1];
        }
      }
      OneSectionRendered(sections[1..], active);
      if sections[0].key == active {
        assert FindIndex(sections[1..], active) == -1 by {
          forall j | 0 <= j < |sections[1..]| ensures sections[1..][j].key != active {
            assert sections[1..][j] == sections[j + 1];
          }
        }
      }
    }
  }

  /** The paging buttons under the rendered section: the key each one opens,
      or `None` when the button is hidden. */
  datatype Paging = Paging(previous: Option<string>, next: Option<string>)

  /** Paging for the active key. The buttons sit inside the rendered section,
      so there are none when no section has the active key. */
  function PagingFor(sections: seq<Section>, active: string): (p: Option<Paging>)
    ensures p.Some? <==> FindIndex(sections, active) >= 0
    ensures p.Some? ==> var i := FindIndex(sections, active);
      && (p.value.previous.Some? <==> i > 0)
      && (p.value.previous.Some? ==> p.value.previous.value == sections[i - 1].key)
      && (p.value.next.Some? <==> i < |sections| - 1)
      && (p.value.next.Some? ==> p.value.next.value == sections[i + 1].key)
  {
    var i := FindIndex(sections, active);
    if i < 0 then None
    else Some(Paging(if i > 0 then Some(sections[i - 1].key) else None,
                     if i < |sections| - 1 then Some(sections[i + 1].key) else None))
  }

  /** With distinct keys, Next then Previous returns to the section paged
      from, and Previous then Next does too. */
  lemma PagingRoundTrip(sections: seq<Section>, active: string)
    requires DistinctKeys(sections)
    ensures var p := PagingFor(sections, active);
      p.Some? && p.value.next.Some? ==>
        PagingFor(sections, p.value.next.value).Some?
        && PagingFor(sections, p.value.next.value).value.previous == Some(active)
    ensures var p := PagingFor(sections, active);
      p.Some? && p.value.previous.Some? ==>
        PagingFor(sections, p.value.previous.value).Some?
        && PagingFor(sections, p.value.previous.value).value.next == Some(active)
  {
    var i := FindIndex(sections, active);
    if i >= 0 && i < |sections| - 1 {
      FindIndexOfDistinct(sections, i + 1);
    }
    if i > 0 {
      FindIndexOfDistinct(sections, i - 1);
    }
  }

  /** With distinct keys, a section's key is found at its own index. */
  lemma FindIndexOfDistinct(sections: seq<Section>, i: nat)
    requires DistinctKeys(sections) && i < |sections|
    ensures FindIndex(sections, sections[i].key) == i
  {
  }

  // -------------------------------------------------------------- refine

  /** The body `handleRefine` posts, or `None` when it returns without
      posting: no section chosen, or feedback that is blank after trimming.
      The feedback is sent trimmed; a section without content sends no
      `currentContent` field. */
  function RefineRequest(planId: string, chosen: Option<Section>, feedback: string,
                         content: SectionContent): (body: Option<RefineRoute.Body>)
    ensures body.Some? <==> chosen.Some? && Trim(feedback) != ""
    ensures body.Some? ==> body.value.Json? && body.value.feedback == Some(Trim(feedback))
    ensures body.Some? ==> body.value.sectionKey == Some(chosen.value.key)
    ensures body.Some? ==> body.value.sectionTitle == Some(chosen.value.title)
    ensures body.Some? ==>
      (body.value.currentContent.Some? <==> chosen.value.key in content)
  {
    if chosen.None? || Trim(feedback) == "" then None
    else
      var s := chosen.value;
      Some(RefineRoute.Json(Some(planId), Some(s.key), Some(s.title),
                            if s.key in content then Some(content[s.key]) else None,
                            Some(Trim(feedback))))
  }

  /** A request the page sends always has feedback the refine handler
      accepts, and passes its field check exactly when the plan id and the
      section key are non-empty and the section has content. */
  lemma RefineRequestPassesFeedbackCheck(planId: string, chosen: Option<Section>, feedback: string,
                                         content: SectionContent)
    requires RefineRequest(planId, chosen, feedback, content).Some?
    ensures var body := RefineRequest(planId, chosen, feedback, content).value;
      && RefineRoute.Given(body.feedback)
      && (RefineRoute.Complete(body) <==>
            planId != "" && chosen.value.key != "" && chosen.value.key in content && content[chosen.value.key] != "")
  {
  }

  // ------------------------------------------------------------- controls

  /** Which plan-level controls are rendered. */
  datatype Controls = Controls(pdfExport: bool, refine: bool, finalize: bool)

  /** A finalized plan offers only the PDF export; any other plan offers
      Refine and Finalize and no export. */
  function ControlsFor(isFinalized: bool): (c: Controls)
    ensures c.pdfExport <==> isFinalized
    ensures c.refine <==> !isFinalized
    ensures c.finalize <==> !isFinalized
  {
    Controls(isFinalized, !isFinalized, !isFinalized)
  }

  /** The export and the edit controls never appear together. */
  lemma ExportExcludesEditing(isFinalized: bool)
    ensures var c := ControlsFor(isFinalized);
      (c.pdfExport <==> !c.finalize) && c.refine == c.finalize
  {
  }

  // ---------------------------------------------------------------- print

  const HeadingOpen: string := "<h1 style=\"page-break-before: always; margin-top: 0;\">"
  const HeadingClose: string := "</h1>\n"
  const BlockSeparator: string := "\n\n"

  /** A section's content, or the empty string when it has none. */
  function ContentOf(content: SectionContent, key: string): (c: string)
    ensures key in content ==> c == content[key]
    ensures key !in content ==> c == ""
  {
    if key in content then content[key] else ""
  }

  /** One section of the printout: its title as a heading, then its
      content. */
  function PrintBlock(s: Section, content: SectionContent): (b: string)
    ensures StartsWith(b, HeadingOpen + s.title + HeadingClose)
    ensures EndsWith(b, ContentOf(content, s.key))
  {
    var head := HeadingOpen + s.title + HeadingClose;
    OccursAtEnd(head, ContentOf(content, s.key));
    assert (head + ContentOf(content, s.key))[..|head|] == head;
    head + ContentOf(content, s.key)
  }

  /** The blocks of every section, in order. */
  function PrintBlocks(sections: seq<Section>, content: SectionContent): (blocks: seq<string>)
    ensures |blocks| == |sections|
    ensures forall i :: 0 <= i < |sections| ==> blocks[i] == PrintBlock(sections[i], content)
  {
    seq(|sections|, i requires 0 <= i < |sections| => PrintBlock(sections[i], content))
  }

  /** The printable body: the blocks joined by blank lines. */
  function PrintContent(sections: seq<Section>, content: SectionContent): string {
    Join(PrintBlocks(sections, content), BlockSeparator)
  }

  /** Every section appears in the printout in list order, as its heading
      followed by its content, and a blank line separates it from the
      next. */
  lemma PrintListsEverySection(sections: seq<Section>, content: SectionContent, i: nat)
    requires i < |sections|
    ensures var out := PrintContent(sections, content);
      var at := JoinOffset(PrintBlocks(sections, content), BlockSeparator, i);
      && OccursAt(out, at, HeadingOpen + sections[i].title + HeadingClose)
      && OccursAt(out, at + |HeadingOpen + sections[i].title + HeadingClose|, ContentOf(content, sections[i].key))
      && (i + 1 < |sections| ==> OccursAt(out, at + |PrintBlock(sections[i], content)|, BlockSeparator))
  {
    var head := HeadingOpen + sections[i].title + HeadingClose;
    var body := ContentOf(content, sections[i].key);
    var blocks := PrintBlocks(sections, content);
    BlockIs(sections, content, i);
    BlockInJoin(blocks, BlockSeparator, i, head, body);
  }

  /** The block of section `i`, spelled out. */
  lemma BlockIs(sections: seq<Section>, content: SectionContent, i: nat)
    requires i < |sections|
    ensures PrintBlocks(sections, content)[i] == HeadingOpen + sections[i].title + HeadingClose + ContentOf(content, sections[i].key)
  {
  }

  /** An element `head + body` of a joined list shows its head at its
      offset, its body right after, and the separator after that unless it
      is last. */
  lemma BlockInJoin(blocks: seq<string>, sep: string, i: nat, head: string, body: string)
    requires i < |blocks| && blocks[i] == head + body
    ensures var out := Join(blocks, sep);
      var at := JoinOffset(blocks, sep, i);
      && OccursAt(out, at, head)
      && OccursAt(out, at + |head|, body)
      && (i + 1 < |blocks| ==> OccursAt(out, at + |blocks[i]|, sep))
  {
    JoinPlaces(blocks, sep, i);
    SplitOccurrence(Join(blocks, sep), JoinOffset(blocks, sep, i), head, body);
  }

  /** An occurrence of `head + body` is one of `head` followed by one of
      `body`. */
  lemma SplitOccurrence(out: string, at: int, head: string, body: string)
    requires OccursAt(out, at, head + body)
    ensures OccursAt(out, at, head) && OccursAt(out, at + |head|, body)
  {
    assert out[at..at + |head|] == (head + body)[..|head|];
    assert out[at + |head|..at + |head| + |body|] == (head + body)[|head|..];
  }

  /** Block `i` starts after every earlier block and its separator, so the
      sections come in list order. */
  lemma PrintKeepsOrder(sections: seq<Section>, content: SectionContent, i: nat, j: nat)
    requires i < j < |sections|
    ensures JoinOffset(PrintBlocks(sections, content), BlockSeparator, i)
          + |PrintBlock(sections[i], content)| + |BlockSeparator|
         <= JoinOffset(PrintBlocks(sections, content), BlockSeparator, j)
  {
    OffsetsAscend(PrintBlocks(sections, content), BlockSeparator, i, j);
  }

  /** Offsets in a joined list grow by at least an element and a separator
      from one element to any later one. */
  lemma {:induction false} OffsetsAscend(xs: seq<string>, sep: string, i: nat, j: nat)
    requires i < j <= |xs|
    ensures JoinOffset(xs, sep, i) + |xs[i]| + |sep| <= JoinOffset(xs, sep, j)
    decreases i
  {
    if i > 0 {
      OffsetsAscend(xs[1..], sep, i - 1, j - 1);
      assert xs[1..][i - 1] == xs[i];
    }
  }
}
