/** The plan filter above the milestone list: the query the plan choice
    navigates to, the Clear button, and the option labels. Query strings
    are ordered lists of entries, as `URLSearchParams` keeps them. */
module MilestoneFilters {
  import opened Wrappers
  import opened Routes

  /** The values of the entries named `name`, in order. */
  function Values(params: seq<Param>, name: string): (vs: seq<string>)
    ensures |vs| <= |params|
    decreases |params|
  {
    if |params| == 0 then []
    else (if params[0].name == name then [params[0].value] else []) + Values(params[1..], name)
  }

  /** `delete(name)`: every entry named `name` removed, the rest kept in
      order. */
  function Delete(params: seq<Param>, name: string): (r: seq<Param>)
    ensures forall i :: 0 <= i < |r| ==> r[i].name != name
    ensures forall p :: p in r <==> p in params && p.name != name
    ensures Values(r, name) == []
    decreases |params|
  {
    if |params| == 0 then []
    else if params[0].name == name then Delete(params[1..], name)
    else [params[0]] + Delete(params[1..], name)
  }

  /** `set(name, value)`: the first entry named `name` takes the value and
      the later ones are removed; with no such entry one is appended. */
  function Set(params: seq<Param>, name: string, value: string): (r: seq<Param>)
    decreases |params|
  {
    if |params| == 0 then [Param(name, value)]
    else if params[0].name == name then [Param(name, value)] + Delete(params[1..], name)
    else [params[0]] + Set(params[1..], name, value)
  }

  /** Values of a concatenation. */
  lemma {:induction false} ValuesConcat(a: seq<Param>, b: seq<Param>, name: string)
    ensures Values(a + b, name) == Values(a, name) + Values(b, name)
    decreases |a|
  {
    if |a| == 0 {
      assert a + b == b;
    } else {
      var head := if a[0].name == name then [a[0].value] else [];
      assert (a + b)[0] == a[0];
      assert (a + b)[1..] == a[1..] + b;
      assert Values(a + b, name) == head + Values(a[1..] + b, name);
      ValuesConcat(a[1..], b, name);
      assert Values(a, name) == head + Values(a[1..], name);
    }
  }

  /** After `set`, the name has exactly the one value given. */
  lemma {:induction false} SetLeavesOneValue(params: seq<Param>, name: string, value: string)
    ensures Values(Set(params, name, value), name) == [value]
    decreases |params|
  {
    if |params| == 0 {
      assert Values([Param(name, value)], name) == [value] + Values([], name);
    } else if params[0].name == name {
      ValuesConcat([Param(name, value)], Delete(params[1..], name), name);
      assert Values([Param(name, value)], name) == [value] + Values([], name);
    } else {
      SetLeavesOneValue(params[1..], name, value);
      ValuesConcat([params[0]], Set(params[1..], name, value), name);
      assert Values([params[0]], name) == [] + Values([], name);
    }
  }

  /** `set` keeps every entry of another name, in order. */
  lemma {:induction false} SetKeepsOthers(params: seq<Param>, name: string, value: string)
    ensures Delete(Set(params, name, value), name) == Delete(params, name)
    decreases |params|
  {
    if |params| == 0 {
      assert Delete([Param(name, value)], name) == Delete([], name);
    } else if params[0].name == name {
      DeleteConcat([Param(name, value)], Delete(params[1..], name), name);
      DeleteTwice(params[1..], name);
      assert Delete([Param(name, value)], name) == Delete([], name);
    } else {
      SetKeepsOthers(params[1..], name, value);
      DeleteConcat([params[0]], Set(params[1..], name, value), name);
      assert Delete([params[0]], name) == [params[0]] + Delete([], name);
    }
  }

  /** Deleting from a concatenation. */
  lemma {:induction false} DeleteConcat(a: seq<Param>, b: seq<Param>, name: string)
    ensures Delete(a + b, name) == Delete(a, name) + Delete(b, name)
    decreases |a|
  {
    if |a| == 0 {
      assert a + b == b;
    } else {
      assert (a + b)[0] == a[0];
      assert (a + b)[1..] == a[1..] + b;
      DeleteConcat(a[1..], b, name);
    }
  }

  /** Deleting twice is deleting once. */
  lemma {:induction false} DeleteTwice(params: seq<Param>, name: string)
    ensures Delete(Delete(params, name), name) == Delete(params, name)
    decreases |params|
  {
    if |params| > 0 {
      DeleteTwice(params[1..], name);
      if params[0].name != name {
        var rest := Delete(params[1..], name);
        assert ([params[0]] + rest)[0] == params[0];
        assert ([params[0]] + rest)[1..] == rest;
      }
    }
  }

  /** `handlePlanChange`: `all` removes the plan filter, any other id sets
      it; every other entry of the current query is kept in order, and the
      query part is always written. */
  function HandlePlanChange(params: seq<Param>, planId: string): (d: Destination)
    ensures d.MilestonesPage? && d.query.Some?
    ensures Delete(d.query.value, "plan") == Delete(params, "plan")
    ensures planId == "all" ==> Values(d.query.value, "plan") == []
    ensures planId != "all" ==> Values(d.query.value, "plan") == [planId]
  {
    if planId == "all" then
      DeleteTwice(params, "plan");
      MilestonesPage(Some(Delete(params, "plan")))
    else
      SetKeepsOthers(params, "plan", planId);
      SetLeavesOneValue(params, "plan", planId);
      MilestonesPage(Some(Set(params, "plan", planId)))
  }

  /** Choosing a plan and then `all` leaves the query `all` alone would. */
  lemma AllUndoesPlanChoice(params: seq<Param>, planId: string)
    requires planId != "all"
    ensures HandlePlanChange(HandlePlanChange(params, planId).query.value, "all") == HandlePlanChange(params, "all")
  {
    SetKeepsOthers(params, "plan", planId);
  }

  /** `clearFilters`: the bare milestones path, with no query at all. */
  function ClearFilters(): (d: Destination)
    ensures d.MilestonesPage? && d.query.None?
    ensures Href(d) == "/accountability/milestones"
  {
    MilestonesPage(None)
  }

  /** A current plan id counts when present and non-empty; the Clear button
      is shown exactly then. */
  predicate HasCurrentPlan(currentPlanId: Option<string>) {
    currentPlanId.Some? && currentPlanId.value != ""
  }

  /** The select's value: the current plan, or `all` without one. */
  function SelectValue(currentPlanId: Option<string>): (v: string)
    ensures HasCurrentPlan(currentPlanId) ==> v == currentPlanId.value
    ensures !HasCurrentPlan(currentPlanId) ==> v == "all"
  {
    if HasCurrentPlan(currentPlanId) then currentPlanId.value else "all"
  }

  /** An option's label: the plan's title, or a name for its type. */
  function PlanLabel(title: Option<string>, planType: string): (l: string)
    ensures title.Some? && title.value != "" ==> l == title.value
    ensures (title.None? || title.value == "") && planType == "business_plan" ==> l == "Business Plan"
    ensures (title.None? || title.value == "") && planType != "business_plan" ==> l == "GTM Plan"
  {
    if title.Some? && title.value != "" then title.value
    else if planType == "business_plan" then "Business Plan" else "GTM Plan"
  }
}
