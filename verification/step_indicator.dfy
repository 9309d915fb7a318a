/** The row of numbered circles above a questionnaire step: which steps are
    done, which one is current, and which connectors between them are lit. */
module StepIndicator {
  import opened Wrappers

  /** What a circle shows: a check mark, or the step's number. */
  datatype Badge = CheckMark | Number(n: nat)

  /** One step as drawn. `connector` is the line after the step: absent
      after the last one, otherwise lit or not. */
  datatype StepView = StepView(number: nat, completed: bool, current: bool, badge: Badge, connector: Option<bool>)

  /** How the step at 0-based `index` of `count` is drawn when `currentStep`
      (1-based) is current: done when numbered below it, current when
      numbered like it, a check mark in place of the number when done, and a
      connector after every step but the last, lit when the step is done. */
  predicate DrawnAs(v: StepView, index: nat, count: nat, currentStep: int) {
    && v.number == index + 1
    && (v.completed <==> index + 1 < currentStep)
    && (v.current <==> index + 1 == currentStep)
    && v.badge == (if v.completed then CheckMark else Number(index + 1))
    && v.connector == (if index + 1 < count then Some(index + 1 < currentStep) else None)
  }

  /** The indicator for `count` steps, one view per step in order. */
  method Indicator(count: nat, currentStep: int) returns (views: seq<StepView>)
    ensures |views| == count
    ensures forall i :: 0 <= i < count ==> DrawnAs(views[i], i, count, currentStep)
  {
    views := [];
    var i := 0;
    while i < count
      invariant 0 <= i <= count && |views| == i
      invariant forall j :: 0 <= j < i ==> DrawnAs(views[j], j, count, currentStep)
    {
      var number := i + 1;
      var completed := number < currentStep;
      var v := StepView(number, completed, number == currentStep,
                        if completed then CheckMark else Number(number),
                        if number < count then Some(number < currentStep) else None);
      views := views + [v];
      i := i + 1;
    }
  }

  /** No step is both done and current, and at most one step is current;
      exactly one is when the current number is in range. */
  lemma OneCurrentStep(views: seq<StepView>, count: nat, currentStep: int)
    requires |views| == count
    requires forall i :: 0 <= i < count ==> DrawnAs(views[i], i, count, currentStep)
    ensures forall i :: 0 <= i < count ==> !(views[i].completed && views[i].current)
    ensures forall i, j :: 0 <= i < count && 0 <= j < count && views[i].current && views[j].current ==> i == j
    ensures (exists i :: 0 <= i < count && views[i].current) <==> 1 <= currentStep <= count
  {
    if 1 <= currentStep <= count {
      assert views[currentStep - 1].current;
    }
  }

  /** The done steps are exactly those before the current one: a prefix of
      the row. */
  lemma CompletedArePrefix(views: seq<StepView>, count: nat, currentStep: int)
    requires |views| == count
    requires forall i :: 0 <= i < count ==> DrawnAs(views[i], i, count, currentStep)
    ensures forall i, j :: 0 <= i <= j < count && views[j].completed ==> views[i].completed
  {
  }

  /** The number of connectors drawn. */
  function Connectors(views: seq<StepView>): nat
    decreases |views|
  {
    if |views| == 0 then 0 else (if views[0].connector.Some? then 1 else 0) + Connectors(views[1..])
  }

  /** `n` steps are joined by `n - 1` connectors. */
  lemma ConnectorCount(views: seq<StepView>, count: nat, currentStep: int)
    requires |views| == count >= 1
    requires forall i :: 0 <= i < count ==> DrawnAs(views[i], i, count, currentStep)
    ensures Connectors(views) == count - 1
  {
    ConnectorsFrom(views, count, currentStep, 0);
    assert views[0..] == views;
  }

  /** Counting from step `k` on. */
  lemma {:induction false} ConnectorsFrom(views: seq<StepView>, count: nat, currentStep: int, k: nat)
    requires |views| == count && k < count
    requires forall i :: 0 <= i < count ==> DrawnAs(views[i], i, count, currentStep)
    ensures Connectors(views[k..]) == count - 1 - k
    decreases count - k
  {
    assert views[k..][0] == views[k];
    if k + 1 < count {
      ConnectorsFrom(views, count, currentStep, k + 1);
      assert views[k..][1..] == views[k + 1..];
    } else {
      assert views[k..][1..] == [];
    }
  }
}
