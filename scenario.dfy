// Torque scenarios over time: a list of steps, each active on the half-open
// window [start, start + duration) measured from the provider's start date.
// The three scenario providers (TorqueOverTimeScenarioProvider,
// AutomaticTorqueLaw, AutomaticManoeuvre) share the same first-match scan,
// which is defined and proved once here.

module TorqueScenario {
  import opened Wrappers
  import opened Vectors

  /** A step of the torque law: applied from `start` for `duration` seconds. */
  datatype Step = Step(start: real, duration: real, rotVector: Vec3)

  /** The step is operating at `offset` (window closed at start, open at the end). */
  predicate Active(s: Step, offset: real) {
    s.start <= offset && s.start + s.duration > offset
  }

  /** Index of the first step of the list that is operating at `offset`. */
  function FirstActive(steps: seq<Step>, offset: real): (r: Option<nat>)
    ensures r.Some? ==> r.value < |steps| && Active(steps[r.value], offset)
    ensures r.Some? ==> forall j :: 0 <= j < r.value ==> !Active(steps[j], offset)
    ensures r.None? <==> forall j :: 0 <= j < |steps| ==> !Active(steps[j], offset)
  {
    if |steps| == 0 then None
    else if Active(steps[0], offset) then Some(0)
    else match FirstActive(steps[1..], offset)
      case None => None
      case Some(k) => Some(k + 1)
  }

  /** The torque a scenario commands at `offset`: the rotation vector of the
    * first operating step times the provider's intensity, else zero. */
  function ScenarioTorque(steps: seq<Step>, offset: real, intensity: real): Vec3 {
    match FirstActive(steps, offset)
      case None => Zero
      case Some(i) => Scale(intensity, steps[i].rotVector)
  }

  /** The loop shared by every getTorque: scans the list in order and stops
    * (break) at the first operating step. */
  method ScanScenario(steps: seq<Step>, offset: real) returns (success: bool, step: Step)
    ensures success == FirstActive(steps, offset).Some?
    ensures success ==> step == steps[FirstActive(steps, offset).value]
  {
    success := false;
    step := Step(0.0, 0.0, Zero);
    var i := 0;
    while i < |steps|
      invariant 0 <= i <= |steps|
      invariant forall j :: 0 <= j < i ==> !Active(steps[j], offset)
    {
      if Active(steps[i], offset) {
        success := true;
        step := steps[i];
        break;
      }
      i := i + 1;
    }
    if success {
      assert FirstActive(steps, offset) == Some(i);
    }
  }

  /** The operating step at `offset` that comes first in list order decides the torque. */
  lemma FirstMatchWins(steps: seq<Step>, offset: real, intensity: real, i: nat)
    requires i < |steps| && Active(steps[i], offset)
    requires forall j :: 0 <= j < i ==> !Active(steps[j], offset)
    ensures ScenarioTorque(steps, offset, intensity) == Scale(intensity, steps[i].rotVector)
  {
    var r := FirstActive(steps, offset);
    assert r.Some?;
    assert r.value == i;
  }

  /** A step stops being active exactly at start + duration. */
  lemma WindowIsHalfOpen(s: Step)
    ensures !Active(s, s.start + s.duration)
    ensures s.duration > 0.0 ==> Active(s, s.start)
  {
  }

  /** With no operating step the commanded torque is zero. */
  lemma NoActiveStepGivesZero(steps: seq<Step>, offset: real, intensity: real)
    requires forall j :: 0 <= j < |steps| ==> !Active(steps[j], offset)
    ensures ScenarioTorque(steps, offset, intensity) == Zero
  {
  }

  /** Appending steps that already occur in the list never changes the torque:
    * if one of them is operating, its earlier copy is found first. */
  lemma {:induction false} AppendingKnownStepsKeepsTorque(base: seq<Step>, extra: seq<Step>, offset: real, intensity: real)
    requires forall s :: s in extra ==> s in base
    ensures ScenarioTorque(base + extra, offset, intensity) == ScenarioTorque(base, offset, intensity)
  {
    var all := base + extra;
    match FirstActive(base, offset)
    case Some(i) =>
      assert all[i] == base[i];
      assert forall j :: 0 <= j < i ==> all[j] == base[j];
      FirstMatchWins(all, offset, intensity, i);
    case None =>
      forall j | 0 <= j < |all|
        ensures !Active(all[j], offset)
      {
        if j >= |base| {
          assert all[j] in extra;
          var k :| 0 <= k < |base| && base[k] == all[j];
        }
      }
  }

  /** The list `block` repeated `n` times. */
  function Repeat(block: seq<Step>, n: nat): (r: seq<Step>)
    ensures |r| == n * |block|
  {
    if n == 0 then [] else Repeat(block, n - 1) + block
  }

  lemma {:induction false} RepeatElements(block: seq<Step>, n: nat)
    ensures forall s :: s in Repeat(block, n) ==> s in block
  {
    if n > 0 {
      RepeatElements(block, n - 1);
    }
  }

  /** A scenario repeated any positive number of times commands the same torque. */
  lemma {:induction false} RepeatKeepsTorque(block: seq<Step>, n: nat, offset: real, intensity: real)
    requires n >= 1
    ensures ScenarioTorque(Repeat(block, n), offset, intensity) == ScenarioTorque(block, offset, intensity)
  {
    if n > 1 {
      RepeatKeepsTorque(block, n - 1, offset, intensity);
      RepeatElements(block, n - 1);
      var prefix := Repeat(block, n - 1);
      forall s | s in block ensures s in prefix {
        RepeatHasBlockElements(block, n - 1, s);
      }
      AppendingKnownStepsKeepsTorque(prefix, block, offset, intensity);
    } else {
      assert Repeat(block, 0) == [];
      assert Repeat(block, 1) == [] + block == block;
    }
  }

  lemma {:induction false} RepeatHasBlockElements(block: seq<Step>, n: nat, s: Step)
    requires n >= 1 && s in block
    ensures s in Repeat(block, n)
  {
    if n > 1 {
      RepeatHasBlockElements(block, n - 1, s);
    }
  }

  /**
   * The list object behind a scenario (a Java ArrayList). Providers hold a
   * reference to it, so a list shared between providers, or with a static
   * default, is changed for all of them by one append.
   */
  class StepList {
    var steps: seq<Step>

    constructor (initial: seq<Step>)
      ensures steps == initial
    {
      steps := initial;
    }

    /** ArrayList.add: appends at the end and always reports true. */
    method Add(s: Step) returns (added: bool)
      modifies this
      ensures steps == old(steps) + [s]
      ensures added
    {
      steps := steps + [s];
      added := true;
    }
  }
}

module TorqueOverTime {
  import opened Vectors
  import opened TorqueScenario

  /** Default torque intensity of the scenario, in N.m. */
  const MaxTorqueIntensity: real := 0.1

  class TorqueOverTimeScenarioProvider {
    /** Absolute start date of the scenario, in seconds. */
    const startDate: real
    /** The scenario list, shared by reference. */
    const scenario: StepList

    /** The one-argument constructor: uses the static default list itself. */
    constructor WithDefaultScenario(startDate: real, torqueScenario: StepList)
      ensures this.startDate == startDate && this.scenario == torqueScenario
    {
      this.startDate := startDate;
      this.scenario := torqueScenario;
    }

    constructor (startDate: real, scenario: StepList)
      ensures this.startDate == startDate && this.scenario == scenario
    {
      this.startDate := startDate;
      this.scenario := scenario;
    }

    method AddStep(startOffset: real, duration: real, rotation: Vec3) returns (added: bool)
      modifies scenario
      ensures scenario.steps == old(scenario.steps) + [Step(startOffset, duration, rotation)]
      ensures added
    {
      added := scenario.Add(Step(startOffset, duration, rotation));
    }

    method GetTorque(currentDate: real) returns (torque: Vec3)
      ensures torque == ScenarioTorque(scenario.steps, currentDate - startDate, MaxTorqueIntensity)
    {
      var offset := currentDate - startDate;
      var success, step := ScanScenario(scenario.steps, offset);
      if success {
        torque := Scale(MaxTorqueIntensity, step.rotVector);
      } else {
        torque := Zero;
      }
    }
  }

  /** A provider built on the default list appends to that very list: a step
    * added through the provider is visible in the static scenario. */
  method DefaultScenarioIsShared(startDate: real, rotation: Vec3) returns (globalSteps: seq<Step>, torque: Vec3)
    ensures globalSteps == [Step(0.0, 10.0, rotation)]
    ensures torque == Scale(MaxTorqueIntensity, rotation)
  {
    var torqueScenario := new StepList([]);
    var provider := new TorqueOverTimeScenarioProvider.WithDefaultScenario(startDate, torqueScenario);
    var _ := provider.AddStep(0.0, 10.0, rotation);
    globalSteps := torqueScenario.steps;
    torque := provider.GetTorque(startDate + 5.0);
    FirstMatchWins(globalSteps, 5.0, MaxTorqueIntensity, 0);
  }
}

module TorqueLaw {
  import opened Vectors
  import opened TorqueScenario

  /** Torque intensity of the law, in N.m. */
  const MaxTorqueIntensity: real := 0.1

  class AutomaticTorqueLaw {
    const startDate: real
    const scenario: StepList

    constructor WithDefaultScenario(startDate: real, torqueScenario: StepList)
      ensures this.startDate == startDate && this.scenario == torqueScenario
    {
      this.startDate := startDate;
      this.scenario := torqueScenario;
    }

    constructor (startDate: real, scenario: StepList)
      ensures this.startDate == startDate && this.scenario == scenario
    {
      this.startDate := startDate;
      this.scenario := scenario;
    }

    method AddStep(startOffset: real, duration: real, rotation: Vec3) returns (added: bool)
      modifies scenario
      ensures scenario.steps == old(scenario.steps) + [Step(startOffset, duration, rotation)]
      ensures added
    {
      added := scenario.Add(Step(startOffset, duration, rotation));
    }

    method GetTorque(currentDate: real) returns (torque: Vec3)
      ensures torque == ScenarioTorque(scenario.steps, currentDate - startDate, MaxTorqueIntensity)
    {
      var offset := currentDate - startDate;
      var success, step := ScanScenario(scenario.steps, offset);
      if success {
        torque := Scale(MaxTorqueIntensity, step.rotVector);
      } else {
        torque := Zero;
      }
    }
  }
}

module Manoeuvre {
  import opened Vectors
  import opened TorqueScenario

  /** Torque intensity of the manoeuvre, in N.m. */
  const MaxTorqueIntensity: real := 0.0001

  /** The four steps every constructor appends to the default scenario.
    * `unitDiagonal` is (1,1,1) normalised; its opposite is (-1,-1,-1) normalised. */
  function DefaultSteps(unitDiagonal: Vec3): (r: seq<Step>)
    ensures |r| == 4
  {
    [Step(1.0, 20.0, PlusI), Step(25.0, 20.0, MinusI),
     Step(50.0, 10.0, unitDiagonal), Step(65.0, 10.0, Scale(-1.0, unitDiagonal))]
  }

  class AutomaticManoeuvre {
    const startDate: real
    const scenario: StepList

    /** The one-argument constructor: the instance works on the default list. */
    constructor WithDefaultScenario(startDate: real, defaultScenario: StepList, unitDiagonal: Vec3)
      modifies defaultScenario
      ensures defaultScenario.steps == old(defaultScenario.steps) + DefaultSteps(unitDiagonal)
      ensures this.startDate == startDate && this.scenario == defaultScenario
    {
      this.startDate := startDate;
      this.scenario := defaultScenario;
      new;
      AppendDefaults(defaultScenario, unitDiagonal);
    }

    /** Appends the four default steps to the default list even though the
      * instance then uses `scenario`, which is aliased, not copied. */
    constructor (startDate: real, scenario: StepList, defaultScenario: StepList, unitDiagonal: Vec3)
      modifies defaultScenario
      ensures defaultScenario.steps == old(defaultScenario.steps) + DefaultSteps(unitDiagonal)
      ensures scenario != defaultScenario ==> scenario.steps == old(scenario.steps)
      ensures this.startDate == startDate && this.scenario == scenario
    {
      this.startDate := startDate;
      this.scenario := scenario;
      new;
      AppendDefaults(defaultScenario, unitDiagonal);
    }

    method GetTorque(currentDate: real) returns (torque: Vec3)
      ensures torque == ScenarioTorque(scenario.steps, currentDate - startDate, MaxTorqueIntensity)
    {
      var offset := currentDate - startDate;
      var success, step := ScanScenario(scenario.steps, offset);
      if success {
        torque := Scale(MaxTorqueIntensity, step.rotVector);
      } else {
        torque := Zero;
      }
    }
  }

  method AppendDefaults(defaultScenario: StepList, unitDiagonal: Vec3)
    modifies defaultScenario
    ensures defaultScenario.steps == old(defaultScenario.steps) + DefaultSteps(unitDiagonal)
  {
    var _ := defaultScenario.Add(Step(1.0, 20.0, PlusI));
    var _ := defaultScenario.Add(Step(25.0, 20.0, MinusI));
    var _ := defaultScenario.Add(Step(50.0, 10.0, unitDiagonal));
    var _ := defaultScenario.Add(Step(65.0, 10.0, Scale(-1.0, unitDiagonal)));
  }

  /** Constructing `n` manoeuvres on the default list leaves 4n steps in it:
    * the default block repeated n times. */
  method ConstructMany(n: nat, startDate: real, unitDiagonal: Vec3) returns (defaultSteps: seq<Step>)
    ensures defaultSteps == Repeat(DefaultSteps(unitDiagonal), n)
    ensures |defaultSteps| == 4 * n
  {
    var defaultScenario := new StepList([]);
    var i := 0;
    while i < n
      invariant 0 <= i <= n
      invariant defaultScenario.steps == Repeat(DefaultSteps(unitDiagonal), i)
    {
      var m := new AutomaticManoeuvre.WithDefaultScenario(startDate, defaultScenario, unitDiagonal);
      i := i + 1;
    }
    defaultSteps := defaultScenario.steps;
  }

  /** The duplicated default steps never change what the manoeuvre commands. */
  lemma DuplicatesKeepTorque(unitDiagonal: Vec3, n: nat, offset: real)
    requires n >= 1
    ensures ScenarioTorque(Repeat(DefaultSteps(unitDiagonal), n), offset, MaxTorqueIntensity)
         == ScenarioTorque(DefaultSteps(unitDiagonal), offset, MaxTorqueIntensity)
  {
    RepeatKeepsTorque(DefaultSteps(unitDiagonal), n, offset, MaxTorqueIntensity);
  }

  /** The default windows are [1,21), [25,45), [50,60) and [65,75); between them
    * (and before 1 or from 75 on) the commanded torque is zero. */
  lemma DefaultWindows(unitDiagonal: Vec3, offset: real)
    ensures 1.0 <= offset < 21.0 ==>
      ScenarioTorque(DefaultSteps(unitDiagonal), offset, MaxTorqueIntensity) == Scale(MaxTorqueIntensity, PlusI)
    ensures 25.0 <= offset < 45.0 ==>
      ScenarioTorque(DefaultSteps(unitDiagonal), offset, MaxTorqueIntensity) == Scale(MaxTorqueIntensity, MinusI)
    ensures 50.0 <= offset < 60.0 ==>
      ScenarioTorque(DefaultSteps(unitDiagonal), offset, MaxTorqueIntensity) == Scale(MaxTorqueIntensity, unitDiagonal)
    ensures 65.0 <= offset < 75.0 ==>
      ScenarioTorque(DefaultSteps(unitDiagonal), offset, MaxTorqueIntensity)
        == Scale(MaxTorqueIntensity, Scale(-1.0, unitDiagonal))
    ensures (offset < 1.0 || 21.0 <= offset < 25.0 || 45.0 <= offset < 50.0 || 60.0 <= offset < 65.0 || 75.0 <= offset) ==>
      ScenarioTorque(DefaultSteps(unitDiagonal), offset, MaxTorqueIntensity) == Zero
  {
    var d := DefaultSteps(unitDiagonal);
    if 1.0 <= offset < 21.0 {
      FirstMatchWins(d, offset, MaxTorqueIntensity, 0);
    } else if 25.0 <= offset < 45.0 {
      FirstMatchWins(d, offset, MaxTorqueIntensity, 1);
    } else if 50.0 <= offset < 60.0 {
      FirstMatchWins(d, offset, MaxTorqueIntensity, 2);
    } else if 65.0 <= offset < 75.0 {
      FirstMatchWins(d, offset, MaxTorqueIntensity, 3);
    } else {
      NoActiveStepGivesZero(d, offset, MaxTorqueIntensity);
    }
  }
}
