/**
 `LayoutOption3`: a three-step wizard (location, prediction, insights) with
 a progress bar, a step indicator and per-step buttons.
 */
module Wizard {

  /** Number of entries in the step list. */
  const StepCount: int := 3

  predicate IsStep(k: int) {
    1 <= k <= StepCount
  }

  /** The buttons of the step cards. */
  datatype Button =
    | ContinueToPrediction  // step 1
    | BackToLocation        // step 2
    | ContinueToInsights    // step 2
    | BackToResults         // step 3
    | StartNewPrediction    // step 3

  /** The buttons the step's card shows. */
  function ButtonsOn(step: int): set<Button> {
    if step == 1 then {ContinueToPrediction}
    else if step == 2 then {BackToLocation, ContinueToInsights}
    else if step == 3 then {BackToResults, StartNewPrediction}
    else {}
  }

  /** The step a button moves to. */
  function Target(b: Button): int {
    match b
    case ContinueToPrediction => 2
    case BackToLocation => 1
    case ContinueToInsights => 3
    case BackToResults => 2
    case StartNewPrediction => 1
  }

  /** Some button on the `from` card leads to `to`. */
  predicate CanMove(from: int, to: int) {
    exists b :: b in ButtonsOn(from) && Target(b) == to
  }

  /** The wizard moves 1→2, 2→1, 2→3, 3→2 and 3→1, and in no other way. */
  lemma TransitionsExactly(from: int, to: int)
    ensures CanMove(from, to) <==>
      (from, to) in {(1, 2), (2, 1), (2, 3), (3, 2), (3, 1)}
  {
    if (from, to) == (1, 2) { assert ContinueToPrediction in ButtonsOn(from); }
    else if (from, to) == (2, 1) { assert BackToLocation in ButtonsOn(from); }
    else if (from, to) == (2, 3) { assert ContinueToInsights in ButtonsOn(from); }
    else if (from, to) == (3, 2) { assert BackToResults in ButtonsOn(from); }
    else if (from, to) == (3, 1) { assert StartNewPrediction in ButtonsOn(from); }
  }

  /** Every button shown on a step's card leads to a step. */
  lemma ButtonsStayInSteps(step: int, b: Button)
    requires b in ButtonsOn(step)
    ensures IsStep(step) && IsStep(Target(b)) && Target(b) != step
  {
  }

  /** The state after pressing shown buttons one after another. */
  function Clicks(step: int, bs: seq<Button>): int
    decreases |bs|
  {
    if bs == [] then step else Clicks(Target(bs[0]), bs[1..])
  }

  predicate AllShown(step: int, bs: seq<Button>)
    decreases |bs|
  {
    bs == [] || (bs[0] in ButtonsOn(step) && AllShown(Target(bs[0]), bs[1..]))
  }

  /** Starting on step 1, any sequence of shown buttons leaves the wizard on a step. */
  lemma {:induction false} ClicksStayInSteps(step: int, bs: seq<Button>)
    requires IsStep(step) && AllShown(step, bs)
    ensures IsStep(Clicks(step, bs))
    decreases |bs|
  {
    if bs != [] {
      ButtonsStayInSteps(step, bs[0]);
      ClicksStayInSteps(Target(bs[0]), bs[1..]);
    }
  }

  /** `((currentStep - 1) / (steps.length - 1)) * 100`. */
  function ProgressPercentage(step: int): real {
    ((step - 1) as real / (StepCount - 1) as real) * 100.0
  }

  /** The bar reads 0, 50 and 100 on the three steps. */
  lemma ProgressValues()
    ensures ProgressPercentage(1) == 0.0
    ensures ProgressPercentage(2) == 50.0
    ensures ProgressPercentage(3) == 100.0
  {
  }

  /** How a step's circle in the indicator is drawn; completeness wins over activity. */
  datatype Status = Complete | Active | Pending

  /** `isComplete = currentStep > k`, `isActive = currentStep === k`. */
  function StatusOf(current: int, k: int): Status {
    if current > k then Complete else if current == k then Active else Pending
  }

  /** The indicator left to right. */
  function Indicator(current: int): seq<Status> {
    seq(StepCount, i requires 0 <= i < StepCount => StatusOf(current, i + 1))
  }

  /** Occurrences of `x` in `st`. */
  function CountStatus(st: seq<Status>, x: Status): nat
    decreases |st|
  {
    if st == [] then 0 else CountStatus(st[1..], x) + (if st[0] == x then 1 else 0)
  }

  /** Exactly one step is active and the `current - 1` steps before it are complete. */
  lemma IndicatorCounts(current: int)
    requires IsStep(current)
    ensures CountStatus(Indicator(current), Active) == 1
    ensures CountStatus(Indicator(current), Complete) == current - 1
    ensures forall i :: 0 <= i < |Indicator(current)| ==> (Indicator(current)[i] == Complete <==> i + 1 < current)
  {
    var ind := Indicator(current);
    assert ind == [StatusOf(current, 1), StatusOf(current, 2), StatusOf(current, 3)];
    assert ind[1..] == [ind[1], ind[2]];
    assert ind[1..][1..] == [ind[2]];
    assert ind[1..][1..][1..] == [];
    forall x: Status
      ensures CountStatus(ind, x) ==
        (if ind[0] == x then 1 else 0) + (if ind[1] == x then 1 else 0) + (if ind[2] == x then 1 else 0)
    {
      assert CountStatus(ind[1..][1..], x) == (if ind[2] == x then 1 else 0);
    }
  }

  /** The connector after step `k` (steps 1 and 2 have one) is filled. */
  predicate ConnectorFilled(current: int, k: int)
    requires 1 <= k < StepCount
  {
    current > k
  }

  /** A connector is filled exactly when the step before it is complete. */
  lemma ConnectorFollowsStatus(current: int, k: int)
    requires 1 <= k < StepCount
    ensures ConnectorFilled(current, k) <==> StatusOf(current, k) == Complete
  {
  }

  /** What the wizard shows. */
  datatype WizardScreen = LoginScreen | StepScreen(step: int, progress: real)

  /** The login form while logged out, otherwise the current step's card and the progress. */
  function Render(isLoggedIn: bool, current: int): (r: WizardScreen)
    ensures r == LoginScreen <==> !isLoggedIn
    ensures isLoggedIn && IsStep(current) ==> r.step == current && 0.0 <= r.progress <= 100.0
  {
    if !isLoggedIn then LoginScreen else StepScreen(current, ProgressPercentage(current))
  }

  class LayoutOption3 {
    var currentStep: int

    ghost predicate Valid()
      reads this
    {
      IsStep(currentStep)
    }

    constructor ()
      ensures currentStep == 1 && Valid()
    {
      currentStep := 1;
    }

    /** A button of the current card. */
    method Click(b: Button)
      requires Valid() && b in ButtonsOn(currentStep)
      modifies this
      ensures Valid()
      ensures currentStep == Target(b) && CanMove(old(currentStep), currentStep)
    {
      currentStep := Target(b);
    }
  }

  /** Continue twice, then start over: the wizard is back on step 1 with an empty bar. */
  method ExampleWizard() {
    var w := new LayoutOption3();
    w.Click(ContinueToPrediction);
    w.Click(ContinueToInsights);
    assert Render(true, w.currentStep) == StepScreen(3, 100.0);
    w.Click(StartNewPrediction);
    assert Render(true, w.currentStep) == StepScreen(1, 0.0);
    assert Render(false, w.currentStep) == LoginScreen;
  }
}
