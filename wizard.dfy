/**
 * The six-step campaign creation wizard: the campaign draft, the step
 * counter, the three-phase simulated generation that runs when the user
 * leaves step 3, the launch flag and the AI-feature selection.
 *
 * Every `setTimeout` callback of the component is an event method of its
 * own; the delays are not modelled, only the order in which the callbacks
 * can run. A scheduled callback is recorded in the state (`pending`,
 * `launchTimers`) so that an event method may only run when its timer
 * exists.
 */
module CampaignWizard {
  import opened Lists

  /** Number of wizard steps; `currentStep` ranges over 1..TotalSteps. */
  const TotalSteps: int := 6

  // ---------------------------------------------------------------------
  // The campaign draft
  // ---------------------------------------------------------------------

  /**
   * A value written by `handleInputChange`: the handler accepts a string or
   * a boolean for any field and stores it as given.
   */
  datatype FieldValue = Text(text: string) | Flag(flag: bool)

  /** The keys of the draft record. */
  datatype Field =
    | Name | TargetAudience | CampaignType | Frequency | CustomPrompt
    | VipSegment | ScheduleType | ScheduleDate | ScheduleTime | Timezone
    | IsRecurring | RecurringType | RecurringEndDate | MaxSends

  /** The campaign draft record with its fourteen fields. */
  datatype Draft = Draft(
    name: FieldValue,
    targetAudience: FieldValue,
    campaignType: FieldValue,
    frequency: FieldValue,
    customPrompt: FieldValue,
    vipSegment: FieldValue,
    scheduleType: FieldValue,
    scheduleDate: FieldValue,
    scheduleTime: FieldValue,
    timezone: FieldValue,
    isRecurring: FieldValue,
    recurringType: FieldValue,
    recurringEndDate: FieldValue,
    maxSends: FieldValue)

  /** The draft the wizard starts from. */
  function InitialDraft(): Draft
  {
    Draft(Text(""), Text(""), Text(""), Text(""), Text(""), Text(""),
          Text("immediate"), Text(""), Text(""), Text("UTC"), Flag(false),
          Text(""), Text(""), Text(""))
  }

  /** Reads one field of the draft. */
  function Get(d: Draft, f: Field): FieldValue
  {
    match f
    case Name => d.name
    case TargetAudience => d.targetAudience
    case CampaignType => d.campaignType
    case Frequency => d.frequency
    case CustomPrompt => d.customPrompt
    case VipSegment => d.vipSegment
    case ScheduleType => d.scheduleType
    case ScheduleDate => d.scheduleDate
    case ScheduleTime => d.scheduleTime
    case Timezone => d.timezone
    case IsRecurring => d.isRecurring
    case RecurringType => d.recurringType
    case RecurringEndDate => d.recurringEndDate
    case MaxSends => d.maxSends
  }

  /**
   * The spread update `{ ...prev, [field]: value }`: field `f` now holds
   * `v` and every other field keeps its value. No validation is applied.
   */
  function Set(d: Draft, f: Field, v: FieldValue): (r: Draft)
    ensures Get(r, f) == v
    ensures forall g :: g != f ==> Get(r, g) == Get(d, g)
  {
    match f
    case Name => d.(name := v)
    case TargetAudience => d.(targetAudience := v)
    case CampaignType => d.(campaignType := v)
    case Frequency => d.(frequency := v)
    case CustomPrompt => d.(customPrompt := v)
    case VipSegment => d.(vipSegment := v)
    case ScheduleType => d.(scheduleType := v)
    case ScheduleDate => d.(scheduleDate := v)
    case ScheduleTime => d.(scheduleTime := v)
    case Timezone => d.(timezone := v)
    case IsRecurring => d.(isRecurring := v)
    case RecurringType => d.(recurringType := v)
    case RecurringEndDate => d.(recurringEndDate := v)
    case MaxSends => d.(maxSends := v)
  }

  /** Two drafts that agree on every field are the same draft. */
  lemma DraftExtensionality(d: Draft, e: Draft)
    requires forall f :: Get(d, f) == Get(e, f)
    ensures d == e
  {
    assert Get(d, Name) == Get(e, Name);
    assert Get(d, TargetAudience) == Get(e, TargetAudience);
    assert Get(d, CampaignType) == Get(e, CampaignType);
    assert Get(d, Frequency) == Get(e, Frequency);
    assert Get(d, CustomPrompt) == Get(e, CustomPrompt);
    assert Get(d, VipSegment) == Get(e, VipSegment);
    assert Get(d, ScheduleType) == Get(e, ScheduleType);
    assert Get(d, ScheduleDate) == Get(e, ScheduleDate);
    assert Get(d, ScheduleTime) == Get(e, ScheduleTime);
    assert Get(d, Timezone) == Get(e, Timezone);
    assert Get(d, IsRecurring) == Get(e, IsRecurring);
    assert Get(d, RecurringType) == Get(e, RecurringType);
    assert Get(d, RecurringEndDate) == Get(e, RecurringEndDate);
    assert Get(d, MaxSends) == Get(e, MaxSends);
  }

  /** Writing back the value a field already holds changes nothing. */
  lemma SetSameValue(d: Draft, f: Field)
    ensures Set(d, f, Get(d, f)) == d
  {
    DraftExtensionality(Set(d, f, Get(d, f)), d);
  }

  /** A second write to the same field overrides the first. */
  lemma SetTwice(d: Draft, f: Field, v: FieldValue, w: FieldValue)
    ensures Set(Set(d, f, v), f, w) == Set(d, f, w)
  {
    DraftExtensionality(Set(Set(d, f, v), f, w), Set(d, f, w));
  }

  /** Writes to two different fields commute. */
  lemma SetCommutes(d: Draft, f: Field, v: FieldValue, g: Field, w: FieldValue)
    requires f != g
    ensures Set(Set(d, f, v), g, w) == Set(Set(d, g, w), f, v)
  {
    DraftExtensionality(Set(Set(d, f, v), g, w), Set(Set(d, g, w), f, v));
  }

  // ---------------------------------------------------------------------
  // Estimated reach
  // ---------------------------------------------------------------------

  /**
   * The fixed reach table keyed by the VIP segment; a segment outside the
   * table (the initial empty string included) yields 0.
   */
  function EstimatedReach(segment: FieldValue): (r: nat)
    ensures r == 450 <==> segment == Text("platinum")
    ensures r == 1200 <==> segment == Text("gold")
    ensures r == 2100 <==> segment == Text("silver")
    ensures r == 3750 <==> segment == Text("all-vip")
    ensures r == 0 <==> segment !in {Text("platinum"), Text("gold"), Text("silver"), Text("all-vip")}
  {
    match segment
    case Text(s) =>
      if s == "platinum" then 450
      else if s == "gold" then 1200
      else if s == "silver" then 2100
      else if s == "all-vip" then 3750
      else 0
    case Flag(_) => 0
  }

  /**
   * The reach shown on step 6 depends on the VIP segment only: editing any
   * other field leaves it as it was, and a fresh draft reaches nobody.
   */
  lemma ReachDependsOnSegmentOnly(d: Draft, f: Field, v: FieldValue)
    requires f != VipSegment
    ensures EstimatedReach(Set(d, f, v).vipSegment) == EstimatedReach(d.vipSegment)
    ensures EstimatedReach(InitialDraft().vipSegment) == 0
  {
  }

  // ---------------------------------------------------------------------
  // Generation badges
  // ---------------------------------------------------------------------

  /** The three badges of the generation preview. */
  datatype StepBadge = Processing | Ready | ReadyToRun

  /** The phases 1..n in order: the completed-phase list after n phases. */
  function Phases(n: nat): seq<int>
  {
    seq(n, i => i + 1)
  }

  lemma InPhases(n: nat, x: int)
    ensures x in Phases(n) <==> 1 <= x <= n
  {
    if 1 <= x <= n {
      assert Phases(n)[x - 1] == x;
    }
  }

  /** Extending the completed list by the next phase. */
  lemma PhasesSnoc(n: nat)
    ensures Phases(n) + [n + 1] == Phases(n + 1)
  {
    assert (Phases(n) + [n + 1])[n] == n + 1;
  }

  /**
   * The classification of `renderStepBadge`: Processing for the phase now
   * running, Ready for a completed phase, Ready to Run otherwise.
   */
  function Badge(isGenerating: bool, generationStep: int, completedSteps: seq<int>, step: int): StepBadge
  {
    if isGenerating && generationStep == step then Processing
    else if step in completedSteps then Ready
    else ReadyToRun
  }

  /**
   * While phase k runs, the badges read Ready for the phases before k,
   * Processing for k and Ready to Run after it.
   */
  lemma BadgesDuringGeneration(k: int, step: int)
    requires 1 <= k <= 3
    ensures Badge(true, k, Phases(k - 1), step) ==
              if step == k then Processing
              else if 1 <= step < k then Ready
              else ReadyToRun
  {
    InPhases(k - 1, step);
  }

  /**
   * When no generation runs, the badges read Ready to Run before the first
   * generation and Ready for every phase after one has finished.
   */
  lemma BadgesWhenIdle(completedSteps: seq<int>, step: int)
    requires completedSteps == [] || completedSteps == Phases(3)
    ensures Badge(false, 0, completedSteps, step) ==
              if completedSteps != [] && 1 <= step <= 3 then Ready else ReadyToRun
  {
    InPhases(3, step);
  }

  // ---------------------------------------------------------------------
  // AI feature selection
  // ---------------------------------------------------------------------

  /**
   * `prev.filter((f) => f !== feature)`: every occurrence of `feature` is
   * gone, every other value keeps all its occurrences, in the same order.
   */
  function Without(features: seq<string>, feature: string): (r: seq<string>)
    ensures feature !in r
    ensures forall g :: g != feature ==> (g in r <==> g in features)
    ensures multiset(r) == multiset(features)[feature := 0]
    ensures IsSubsequence(r, features)
  {
    if features == [] then []
    else
      assert features == [features[0]] + features[1..];
      if features[0] == feature then Without(features[1..], feature)
      else [features[0]] + Without(features[1..], feature)
  }

  /** A click on a feature badge: removes a selected feature, appends an unselected one. */
  function Toggle(features: seq<string>, feature: string): (r: seq<string>)
    ensures feature in features ==> multiset(r) == multiset(features)[feature := 0]
    ensures feature !in features ==> r == features + [feature]
  {
    if feature in features then Without(features, feature) else features + [feature]
  }

  /** Toggling flips the clicked feature's membership and no other feature's. */
  lemma ToggleFlipsOne(features: seq<string>, feature: string, g: string)
    ensures feature in Toggle(features, feature) <==> feature !in features
    ensures g != feature ==> (g in Toggle(features, feature) <==> g in features)
  {
  }

  /** Filtering out a value that is absent changes nothing. */
  lemma {:induction false} WithoutAbsent(features: seq<string>, feature: string)
    requires feature !in features
    ensures Without(features, feature) == features
  {
    if features != [] {
      WithoutAbsent(features[1..], feature);
    }
  }

  /** Filtering distributes over a one-element append. */
  lemma {:induction false} WithoutAppend(features: seq<string>, x: string, feature: string)
    ensures Without(features + [x], feature) ==
              Without(features, feature) + (if x == feature then [] else [x])
  {
    if features == [] {
      assert [x][1..] == [];
    } else {
      assert (features + [x])[1..] == features[1..] + [x];
      WithoutAppend(features[1..], x, feature);
    }
  }

  /** Selecting an unselected feature and clicking it again restores the list. */
  lemma ToggleTwiceFromAbsent(features: seq<string>, feature: string)
    requires feature !in features
    ensures Toggle(Toggle(features, feature), feature) == features
  {
    WithoutAppend(features, feature, feature);
    WithoutAbsent(features, feature);
  }

  /** Filtering keeps a duplicate-free list duplicate-free. */
  lemma {:induction false} WithoutNoDup(features: seq<string>, feature: string)
    requires NoDup(features)
    ensures NoDup(Without(features, feature))
  {
    if features != [] {
      var tail := features[1..];
      assert NoDup(tail) by {
        forall i, j | 0 <= i < j < |tail| ensures tail[i] != tail[j] {
          assert tail[i] == features[i + 1] && tail[j] == features[j + 1];
        }
      }
      WithoutNoDup(tail, feature);
      if features[0] != feature {
        var rest := Without(tail, feature);
        assert features[0] !in tail by {
          forall j | 0 <= j < |tail| ensures tail[j] != features[0] {
            assert tail[j] == features[j + 1];
          }
        }
        assert features[0] !in rest;
        var r := [features[0]] + rest;
        forall i, j | 0 <= i < j < |r| ensures r[i] != r[j] {
          if i == 0 {
            assert r[j] == rest[j - 1];
          } else {
            assert r[i] == rest[i - 1] && r[j] == rest[j - 1];
          }
        }
      }
    }
  }

  /** The selected-feature list never holds a feature twice. */
  lemma ToggleNoDup(features: seq<string>, feature: string)
    requires NoDup(features)
    ensures NoDup(Toggle(features, feature))
  {
    if feature in features {
      WithoutNoDup(features, feature);
    } else {
      var r := features + [feature];
      forall i, j | 0 <= i < j < |r| ensures r[i] != r[j] {
        if j == |features| {
          assert r[i] == features[i];
        } else {
          assert r[i] == features[i] && r[j] == features[j];
        }
      }
    }
  }

  /** Removing a value that occurs once takes exactly one copy out of the multiset. */
  lemma {:induction false} WithoutOnce(features: seq<string>, feature: string)
    requires NoDup(features) && feature in features
    ensures multiset(Without(features, feature)) == multiset(features) - multiset{feature}
  {
    var tail := features[1..];
    assert features == [features[0]] + tail;
    assert features[0] !in tail by {
      forall j | 0 <= j < |tail| ensures tail[j] != features[0] {
        assert tail[j] == features[j + 1];
      }
    }
    if features[0] == feature {
      WithoutAbsent(tail, feature);
    } else {
      assert NoDup(tail) by {
        forall i, j | 0 <= i < j < |tail| ensures tail[i] != tail[j] {
          assert tail[i] == features[i + 1] && tail[j] == features[j + 1];
        }
      }
      WithoutOnce(tail, feature);
    }
  }

  /**
   * Clicking a selected feature twice keeps the same selection, now with
   * that feature moved to the end.
   */
  lemma ToggleTwiceFromPresent(features: seq<string>, feature: string)
    requires NoDup(features) && feature in features
    ensures Toggle(Toggle(features, feature), feature) == Without(features, feature) + [feature]
    ensures multiset(Toggle(Toggle(features, feature), feature)) == multiset(features)
  {
    WithoutOnce(features, feature);
  }

  // ---------------------------------------------------------------------
  // The wizard component
  // ---------------------------------------------------------------------

  /**
   * The generation callback that is scheduled, if any. `capturedStep` is
   * the `currentStep` that the callbacks' closure saw when generation
   * started; the third callback advances from it, not from the current
   * value.
   */
  datatype PendingTimer = NoTimer | PhaseTimer(phase: int, capturedStep: int)

  class Wizard {
    var campaignData: Draft
    var currentStep: int
    var isGenerating: bool
    var generationStep: int
    var completedSteps: seq<int>
    var isLaunching: bool
    var selectedFeatures: seq<string>
    /** the generation callback waiting on its timer */
    var pending: PendingTimer
    /** how many launch callbacks are waiting on their timers */
    var launchTimers: nat

    /**
     * The step stays within 1..6; a generation callback is pending exactly
     * while generating, and then phases 1..k-1 are complete and phase k
     * runs; when idle, either no phase or all three are complete.
     */
    ghost predicate Valid()
      reads this
    {
      && 1 <= currentStep <= TotalSteps
      && (isGenerating <==> pending.PhaseTimer?)
      && (pending.PhaseTimer? ==>
            && 1 <= pending.phase <= 3
            && pending.capturedStep == 3
            && generationStep == pending.phase
            && completedSteps == Phases(pending.phase - 1))
      && (!isGenerating ==>
            generationStep == 0 && (completedSteps == [] || completedSteps == Phases(3)))
      && (isLaunching ==> launchTimers > 0)
      && NoDup(selectedFeatures)
    }

    /** The state in which the component mounts. */
    constructor ()
      ensures Valid()
      ensures campaignData == InitialDraft() && currentStep == 1
      ensures !isGenerating && generationStep == 0 && completedSteps == []
      ensures !isLaunching && selectedFeatures == []
      ensures pending == NoTimer && launchTimers == 0
    {
      campaignData := InitialDraft();
      currentStep := 1;
      isGenerating := false;
      generationStep := 0;
      completedSteps := [];
      isLaunching := false;
      selectedFeatures := [];
      pending := NoTimer;
      launchTimers := 0;
    }

    /** Overwrites one field of the draft; nothing else changes. */
    method HandleInputChange(field: Field, value: FieldValue)
      requires Valid()
      modifies this`campaignData
      ensures Valid()
      ensures campaignData == Set(old(campaignData), field, value)
      ensures Get(campaignData, field) == value
      ensures forall g :: g != field ==> Get(campaignData, g) == Get(old(campaignData), g)
    {
      campaignData := Set(campaignData, field, value);
    }

    /** Starts the three-phase generation and schedules the first callback. */
    method HandleAIGeneration()
      requires Valid() && !isGenerating && currentStep == 3
      modifies this`isGenerating, this`completedSteps, this`generationStep, this`pending
      ensures Valid()
      ensures isGenerating && completedSteps == [] && generationStep == 1
      ensures pending == PhaseTimer(1, 3)
    {
      isGenerating := true;
      completedSteps := [];
      generationStep := 1;
      pending := PhaseTimer(1, currentStep);
    }

    /**
     * The Next button. It is disabled while generating, so it is only
     * pressed when no generation runs. On step 3 it starts the generation
     * and leaves the step alone; below step 6 it advances by one; on step 6
     * it does nothing.
     */
    method NextStep()
      requires Valid() && !isGenerating
      modifies this`currentStep, this`isGenerating, this`completedSteps, this`generationStep, this`pending
      ensures Valid()
      ensures old(currentStep) == 3 ==>
                && currentStep == 3
                && isGenerating && completedSteps == [] && generationStep == 1
                && pending == PhaseTimer(1, 3)
      ensures old(currentStep) != 3 ==>
                && currentStep == (if old(currentStep) < TotalSteps then old(currentStep) + 1 else old(currentStep))
                && !isGenerating && completedSteps == old(completedSteps)
                && generationStep == old(generationStep) && pending == old(pending)
    {
      if currentStep == 3 {
        HandleAIGeneration();
      } else if currentStep < TotalSteps {
        currentStep := currentStep + 1;
      }
    }

    /** The first callback: phase 1 is complete, phase 2 is scheduled. */
    method CompletePhase1()
      requires Valid() && pending.PhaseTimer? && pending.phase == 1
      modifies this`completedSteps, this`generationStep, this`pending
      ensures Valid()
      ensures completedSteps == old(completedSteps) + [1] && completedSteps == [1]
      ensures generationStep == 2 && isGenerating
      ensures pending == PhaseTimer(2, old(pending.capturedStep))
    {
      PhasesSnoc(0);
      completedSteps := completedSteps + [1];
      generationStep := 2;
      pending := PhaseTimer(2, pending.capturedStep);
    }

    /** The second callback: phase 2 is complete, phase 3 is scheduled. */
    method CompletePhase2()
      requires Valid() && pending.PhaseTimer? && pending.phase == 2
      modifies this`completedSteps, this`generationStep, this`pending
      ensures Valid()
      ensures completedSteps == old(completedSteps) + [2] && completedSteps == [1, 2]
      ensures generationStep == 3 && isGenerating
      ensures pending == PhaseTimer(3, old(pending.capturedStep))
    {
      PhasesSnoc(1);
      completedSteps := completedSteps + [2];
      generationStep := 3;
      pending := PhaseTimer(3, pending.capturedStep);
    }

    /**
     * The third callback: phase 3 is complete, generation stops and the
     * wizard lands on the step after the one captured at the start, step 4.
     */
    method CompletePhase3()
      requires Valid() && pending.PhaseTimer? && pending.phase == 3
      modifies this`completedSteps, this`isGenerating, this`generationStep, this`currentStep, this`pending
      ensures Valid()
      ensures completedSteps == old(completedSteps) + [3] && completedSteps == [1, 2, 3]
      ensures !isGenerating && generationStep == 0 && pending == NoTimer
      ensures currentStep == old(pending.capturedStep) + 1 && currentStep == 4
    {
      PhasesSnoc(2);
      completedSteps := completedSteps + [3];
      isGenerating := false;
      generationStep := 0;
      currentStep := pending.capturedStep + 1;
      pending := NoTimer;
    }

    /** The Previous handler: back one step, never below step 1. */
    method PrevStep()
      requires Valid()
      modifies this`currentStep
      ensures Valid()
      ensures currentStep == if old(currentStep) > 1 then old(currentStep) - 1 else old(currentStep)
    {
      if currentStep > 1 {
        currentStep := currentStep - 1;
      }
    }

    /** Confirming the launch dialog: sets the flag and schedules the launch callback. */
    method HandleLaunchCampaign()
      requires Valid()
      modifies this`isLaunching, this`launchTimers
      ensures Valid()
      ensures isLaunching && launchTimers == old(launchTimers) + 1
    {
      isLaunching := true;
      launchTimers := launchTimers + 1;
    }

    /** The launch callback: clears the flag. */
    method CompleteLaunch()
      requires Valid() && launchTimers > 0
      modifies this`isLaunching, this`launchTimers
      ensures Valid()
      ensures !isLaunching && launchTimers == old(launchTimers) - 1
    {
      isLaunching := false;
      launchTimers := launchTimers - 1;
    }

    /** A click on an AI feature badge. */
    method ToggleFeature(feature: string)
      requires Valid()
      modifies this`selectedFeatures
      ensures Valid()
      ensures selectedFeatures == Toggle(old(selectedFeatures), feature)
    {
      ToggleNoDup(selectedFeatures, feature);
      selectedFeatures := Toggle(selectedFeatures, feature);
    }

    /** Whether the Previous button can be pressed. */
    predicate PreviousEnabled()
      reads this
    {
      !(currentStep == 1 || isGenerating || isLaunching)
    }

    /** Whether the Next button is shown and can be pressed. */
    predicate NextEnabled()
      reads this
    {
      currentStep < TotalSteps && !isGenerating
    }

    /** Whether the launch button is shown and can be pressed. */
    predicate LaunchEnabled()
      reads this
    {
      currentStep == TotalSteps && !isLaunching
    }

    /**
     * Navigation is locked while work is pending: during generation neither
     * Previous nor Next can be pressed, during a launch neither Previous nor
     * the launch button; an enabled Next therefore never finds a generation
     * callback pending, and an enabled Previous always moves back a step.
     */
    lemma ButtonsLockedWhileBusy()
      requires Valid()
      ensures isGenerating ==> !PreviousEnabled() && !NextEnabled()
      ensures isLaunching ==> !PreviousEnabled() && !LaunchEnabled()
      ensures NextEnabled() ==> pending == NoTimer
      ensures PreviousEnabled() ==> currentStep > 1
    {
    }
  }

  /**
   * The ordered run of one generation, from step 1 through step 3 to the
   * review step 4, with the badges along the way.
   */
  method GenerationScenario()
  {
    var w := new Wizard();
    w.NextStep();
    w.NextStep();
    assert w.currentStep == 3;
    w.NextStep();
    assert w.isGenerating && w.completedSteps == [];
    BadgesDuringGeneration(1, 1);
    assert Badge(w.isGenerating, w.generationStep, w.completedSteps, 1) == Processing;
    w.CompletePhase1();
    w.CompletePhase2();
    w.CompletePhase3();
    assert w.currentStep == 4 && w.completedSteps == [1, 2, 3] && !w.isGenerating;
    w.PrevStep();
    w.PrevStep();
    w.PrevStep();
    w.PrevStep();
    assert w.currentStep == 1;
  }
}
