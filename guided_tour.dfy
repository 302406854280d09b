/**
 * The guided tour: an overlay that walks through a list of steps, each
 * pointing at a page element, and the orchestrator that runs the workspace
 * tour, offers the project tour, and records that the tour was done.
 *
 * The DOM lookup is the parameter `query` (a selector to the element's
 * rectangle, None when nothing matches); the window size is a parameter;
 * local storage is the field `storedDone`.
 */
module GuidedTour {
  import opened Common

  const TOUR_KEY: string := "alexbot-tour-done"
  const PAD: real := 16.0
  const CARD_W: real := 340.0
  const CARD_H: real := 220.0

  /** A tour step: the element it points at and the selector tried when that one is missing. */
  datatype Step = Step(target: string, fallbackSelector: Option<string>, title: string)

  const ROOT_STEPS: seq<Step> := [
    Step("a[href=\"/\"]", None, "Projects"),
    Step("a[href=\"/tasks\"]", None, "All Tasks"),
    Step("a[href=\"/team\"]", None, "People"),
    Step("a[href=\"/knowledge\"]", None, "Knowledge Base"),
    Step("a[href=\"/queue\"]", None, "AI Queue"),
    Step("a[href=\"/docs\"]", None, "Documentation"),
    Step("a[href=\"/settings\"]", None, "Settings")]

  const PROJECT_STEPS: seq<Step> := [
    Step("[data-tour=\"dashboard\"]", Some("a[href$=\"/\"]"), "Dashboard"),
    Step("[data-tour=\"tasks\"]", Some("a[href*=\"/tasks\"]"), "Tasks"),
    Step("[data-tour=\"agents\"]", Some("a[href*=\"/agents\"]"), "AI Agents"),
    Step("[data-tour=\"alerts\"]", Some("a[href*=\"/alerts\"]"), "Alerts"),
    Step("[data-tour=\"settings\"]", Some("a[href*=\"/settings\"]"), "Project Settings")]

  /** `updateRect`'s lookup: the target, else the fallback selector, else no rectangle. */
  function TargetRect(step: Step, query: string -> Option<Rect>): (r: Option<Rect>)
    ensures query(step.target).Some? ==> r == query(step.target)
    ensures query(step.target).None? && step.fallbackSelector.Some? ==> r == query(step.fallbackSelector.value)
    ensures query(step.target).None? && step.fallbackSelector.None? ==> r.None?
  {
    if query(step.target).Some? then query(step.target)
    else if step.fallbackSelector.Some? then query(step.fallbackSelector.value)
    else None
  }

  /** Where the tooltip card goes. */
  datatype Placement = Centered | At(top: real, left: real)

  /**
   * `getTooltipStyle`: centred without a target; otherwise beside the target,
   * on its right unless the card would pass the right margin, then on its
   * left, kept 16 px inside the top, bottom and left edges.
   */
  function TooltipStyle(target: Option<Rect>, innerWidth: real, innerHeight: real): (p: Placement)
    ensures target.None? <==> p == Centered
    ensures p.At? ==> p.left >= PAD && p.top >= PAD
    ensures p.At? ==> var r := target.value;
      var centre := r.top + r.height / 2.0 - CARD_H / 2.0;
      p.top == Max(PAD, Min(centre, innerHeight - CARD_H - PAD))
    ensures p.At? && innerHeight >= CARD_H + 2.0 * PAD ==> p.top + CARD_H <= innerHeight - PAD
    ensures p.At? ==> var r := target.value;
      (r.Right() + PAD + CARD_W <= innerWidth - PAD ==> p.left == Max(PAD, r.Right() + PAD))
    ensures p.At? ==> var r := target.value;
      (r.Right() + PAD + CARD_W > innerWidth - PAD ==> p.left == Max(PAD, r.left - CARD_W - PAD))
  {
    match target
    case None => Centered
    case Some(r) =>
      var top0 := r.top + r.height / 2.0 - CARD_H / 2.0;
      var left0 := r.Right() + PAD;
      var left1 := if left0 + CARD_W > innerWidth - PAD then r.left - CARD_W - PAD else left0;
      At(Max(PAD, Min(top0, innerHeight - CARD_H - PAD)), Max(PAD, left1))
  }

  /**
   * A card placed on the right ends inside the right margin; one flipped to
   * the left and not pushed by the left margin ends 16 px before the target.
   */
  lemma TooltipBesideTarget(r: Rect, innerWidth: real, innerHeight: real)
    ensures var p := TooltipStyle(Some(r), innerWidth, innerHeight);
      && (r.Right() + PAD + CARD_W <= innerWidth - PAD && r.Right() >= 0.0 ==>
            p.left == r.Right() + PAD && p.left + CARD_W <= innerWidth - PAD)
      && (r.Right() + PAD + CARD_W > innerWidth - PAD && r.left - CARD_W - PAD >= PAD ==>
            p.left + CARD_W + PAD == r.left)
  {
  }

  /** The label of the primary button. */
  datatype PrimaryLabel = NextLabel | DoneLabel

  /** The tour card: the current step of a fixed list. */
  class TourOverlay {
    const steps: seq<Step>
    var currentStep: nat
    /** Calls of `onComplete`. */
    var completeCalls: nat

    /** The step index stays on the list (at 0 for an empty one). */
    ghost predicate Valid()
      reads this
    {
      && (|steps| == 0 ==> currentStep == 0)
      && (|steps| > 0 ==> currentStep < |steps|)
    }

    constructor (steps: seq<Step>)
      ensures Valid() && this.steps == steps && currentStep == 0 && completeCalls == 0
    {
      this.steps := steps;
      currentStep := 0;
      completeCalls := 0;
    }

    /** `next`: advance below the last step; on the last one complete instead. */
    method Next()
      requires Valid()
      modifies this
      ensures Valid()
      ensures old(currentStep) + 1 < |steps| ==> currentStep == old(currentStep) + 1 && completeCalls == old(completeCalls)
      ensures old(currentStep) + 1 >= |steps| ==> currentStep == old(currentStep) && completeCalls == old(completeCalls) + 1
    {
      if currentStep + 1 < |steps| {
        currentStep := currentStep + 1;
      } else {
        completeCalls := completeCalls + 1;
      }
    }

    /** `prev`: step back unless on the first step. */
    method Prev()
      requires Valid()
      modifies this
      ensures Valid() && completeCalls == old(completeCalls)
      ensures currentStep == if old(currentStep) > 0 then old(currentStep) - 1 else 0
      ensures old(BackDisabled()) <==> currentStep == old(currentStep)
    {
      if currentStep > 0 {
        currentStep := currentStep - 1;
      }
    }

    /** The ✕ button completes the tour from any step. */
    method Close()
      requires Valid()
      modifies this
      ensures Valid() && currentStep == old(currentStep) && completeCalls == old(completeCalls) + 1
    {
      completeCalls := completeCalls + 1;
    }

    /** The progress bar: one segment per step, lit up to the current one. */
    function Progress(): (lit: seq<bool>)
      reads this
      ensures |lit| == |steps|
      ensures forall i :: 0 <= i < |lit| ==> (lit[i] <==> i <= currentStep)
    {
      var current := currentStep;
      seq(|steps|, i => i <= current)
    }

    /** 'Done' only on the last step, 'Next' before it. */
    function Primary(): (l: PrimaryLabel)
      reads this
      requires Valid()
      ensures l == DoneLabel <==> |steps| == 0 || currentStep == |steps| - 1
    {
      if currentStep + 1 < |steps| then NextLabel else DoneLabel
    }

    /** Back is disabled on the first step. */
    predicate BackDisabled()
      reads this
    {
      currentStep == 0
    }
  }

  /** Pressing Next on every step of a fresh tour visits each step once and completes once. */
  method WalkThrough(steps: seq<Step>) returns (visited: seq<nat>, completions: nat)
    ensures |steps| > 0 ==> visited == seq(|steps|, i => i)
    ensures completions == 1
  {
    var overlay := new TourOverlay(steps);
    visited := [];
    var k := 0;
    while k < |steps|
      invariant 0 <= k <= |steps| && overlay.Valid() && overlay.steps == steps
      invariant |visited| == k && forall i :: 0 <= i < k ==> visited[i] == i
      invariant k < |steps| ==> overlay.currentStep == k
      invariant k < |steps| || k == 0 ==> overlay.completeCalls == 0
      invariant k == |steps| && k > 0 ==> overlay.currentStep == k - 1 && overlay.completeCalls == 1
    {
      visited := visited + [overlay.currentStep];
      overlay.Next();
      k := k + 1;
    }
    if |steps| == 0 {
      overlay.Next();
    }
    completions := overlay.completeCalls;
  }

  datatype Phase = Idle | Root | Transition | Project

  /** What the orchestrator renders. */
  datatype Screen = NoScreen | Overlay(steps: seq<Step>, phaseLabel: string) | TransitionScreen

  /** The orchestrator: the phase, the stored done flag, and the 600 ms hand-off timer. */
  class TourController {
    var phase: Phase
    /** The start listener is registered only when the done flag was absent at mount. */
    const listening: bool
    var storedDone: Option<string>
    var projectTimerPending: bool

    constructor (doneFlag: Option<string>)
      ensures phase == Idle && storedDone == doneFlag && !projectTimerPending
      ensures listening <==> !(doneFlag.Some? && doneFlag.value != "")
    {
      phase := Idle;
      storedDone := doneFlag;
      listening := !(doneFlag.Some? && doneFlag.value != "");
      projectTimerPending := false;
    }

    /** The `alexbot-start-tour` event. */
    method StartEvent()
      modifies this
      ensures phase == (if listening then Root else old(phase))
      ensures storedDone == old(storedDone) && projectTimerPending == old(projectTimerPending)
    {
      if listening {
        phase := Root;
      }
    }

    /** `finishTour`: no phase, and the done flag persisted. */
    method Finish()
      modifies this
      ensures phase == Idle && storedDone == Some("true")
      ensures projectTimerPending == old(projectTimerPending)
    {
      phase := Idle;
      storedDone := Some("true");
    }

    /** The workspace tour completed: show the transition screen. */
    method RootComplete()
      requires phase == Root
      modifies this
      ensures phase == Transition && storedDone == old(storedDone)
      ensures projectTimerPending == old(projectTimerPending)
    {
      phase := Transition;
    }

    /** 'Show me a project': follow a project link and start the project tour later, or finish. */
    method Continue(projectLinkExists: bool)
      requires phase == Transition
      modifies this
      ensures projectLinkExists ==> phase == Transition && projectTimerPending && storedDone == old(storedDone)
      ensures !projectLinkExists ==> phase == Idle && storedDone == Some("true")
                                     && projectTimerPending == old(projectTimerPending)
    {
      if projectLinkExists {
        projectTimerPending := true;
      } else {
        Finish();
      }
    }

    /** The hand-off timer fires: the project tour starts, whatever the phase is by then. */
    method ProjectTimerFired()
      requires projectTimerPending
      modifies this
      ensures phase == Project && !projectTimerPending && storedDone == old(storedDone)
    {
      phase := Project;
      projectTimerPending := false;
    }

    /** "I'm good, thanks". */
    method Skip()
      requires phase == Transition
      modifies this
      ensures phase == Idle && storedDone == Some("true")
      ensures projectTimerPending == old(projectTimerPending)
    {
      Finish();
    }

    /** The project tour completed or was closed. */
    method ProjectComplete()
      requires phase == Project
      modifies this
      ensures phase == Idle && storedDone == Some("true")
      ensures projectTimerPending == old(projectTimerPending)
    {
      Finish();
    }

    function Render(): (s: Screen)
      reads this
      ensures phase == Idle <==> s == NoScreen
      ensures phase == Root ==> s == Overlay(ROOT_STEPS, "Workspace Overview")
      ensures phase == Transition <==> s == TransitionScreen
      ensures phase == Project ==> s == Overlay(PROJECT_STEPS, "Inside a Project")
    {
      match phase
      case Idle => NoScreen
      case Root => Overlay(ROOT_STEPS, "Workspace Overview")
      case Transition => TransitionScreen
      case Project => Overlay(PROJECT_STEPS, "Inside a Project")
    }
  }
}
