// The main loop of the simulation: the task run once per integration step
// (offset, ephemeris counter and the ephemeris written every period-th
// step), the loop of the non-real-time processing and the initialisation,
// which checks the configuration before anything else.

module Simulation {
  import opened JavaArith
  import DashboardModel
  import Vectors
  import RigidBody

  /** Below this, a double is taken as zero. */
  const Epsilon: real := 1e-10

  /** The number of integration steps between two ephemeris steps: the ratio
    * of the time steps rounded to the nearest long, then cast to an int. */
  function EphemerisPeriod(ephemerisTimeStep: real, integrationTimeStep: real): (period: int)
    requires integrationTimeStep != 0.0
    ensures IntMinValue <= period <= IntMaxValue
    ensures var ratio := ephemerisTimeStep / integrationTimeStep;
      0.0 <= ratio + 0.5 < IntMaxValue as real ==> period as real <= ratio + 0.5 < period as real + 1.0
  {
    WrapInt(Round(ephemerisTimeStep / integrationTimeStep))
  }

  /** The renderEphemeris flag: floorMod of the counter by the period, below Epsilon. */
  predicate RenderEphemeris(counter: int, period: int)
    requires period != 0
  {
    (FloorMod(counter, period) as real) < Epsilon
  }

  /** For a positive period the flag is set exactly on the multiples of the period. */
  lemma RenderOnMultiples(counter: int, period: int)
    requires period > 0
    ensures RenderEphemeris(counter, period) <==> counter % period == 0
  {
  }

  /** A negative period sets the flag at every step. */
  lemma NegativePeriodRendersAlways(counter: int, period: int)
    requires period < 0
    ensures RenderEphemeris(counter, period)
  {
  }

  /** The offset after n steps, accumulated one step at a time as the task
    * does it. */
  function Offset(n: nat, step: real): real {
    if n == 0 then 0.0 else Offset(n - 1, step) + step
  }

  /** With exact arithmetic the accumulated offset is n times the step. */
  lemma {:induction false} OffsetIsMultiple(n: nat, step: real)
    ensures Offset(n, step) == n as real * step
  {
    if n > 0 {
      OffsetIsMultiple(n - 1, step);
      assert (n - 1) as real * step + step == n as real * step by {
        assert n as real == (n - 1) as real + 1.0;
      }
    }
  }

  /** The ephemeris offsets written by the first n steps of a task whose
    * counter starts at 1: step k (from 1) ends at Offset(k) with the
    * counter at k, wrapped to an int. */
  function EphemerisOffsets(n: nat, period: int, step: real): (r: seq<real>)
    requires n == 0 || period != 0
    ensures |r| <= n
  {
    if n == 0 then []
    else EphemerisOffsets(n - 1, period, step)
         + (if RenderEphemeris(WrapInt(n), period) then [Offset(n, step)] else [])
  }

  /** With a positive period and no wrap-around of the counter, n steps write
    * n / period ephemeris steps: one every period-th step. */
  lemma {:induction false} EphemerisCount(n: nat, period: int, step: real)
    requires period > 0 && n <= IntMaxValue
    ensures |EphemerisOffsets(n, period, step)| == n / period
  {
    if n > 0 {
      EphemerisCount(n - 1, period, step);
      RenderOnMultiples(n, period);
      DivStep(n, period);
    }
  }

  /** n / p grows by one exactly at the multiples of p. */
  lemma DivStep(n: int, p: int)
    requires n > 0 && p > 0
    ensures n / p == (n - 1) / p + (if n % p == 0 then 1 else 0)
  {
    var q := (n - 1) / p;
    var r := (n - 1) % p;
    assert n - 1 == q * p + r;
    if r == p - 1 {
      EuclideanUnique(n, p, q + 1, 0);
      assert n == (q + 1) * p;
    } else {
      EuclideanUnique(n, p, q, r + 1);
    }
    DivOfUnique(n, p);
  }

  /** The quotient that goes with the Euclidean remainder. */
  lemma DivOfUnique(n: int, p: int)
    requires p > 0
    ensures n == (n / p) * p + n % p
  {
  }

  /**
   * The task run at each integration step. The propagation of the state, the
   * ground station's mission, the payload's mission and the export to the
   * visualisation software are not part of it here; the ephemeris is the
   * list of the offsets at which a step was written.
   */
  class MainSimulationTask {
    const integrationTimeStep: real
    const simulationDuration: int
    const ephemerisPeriod: int
    var currentOffset: real
    var ephemerisStepCounter: int
    var ephemeris: seq<real>

    constructor (integrationTimeStep: real, ephemerisTimeStep: real, simulationDuration: int)
      requires integrationTimeStep != 0.0
      ensures this.integrationTimeStep == integrationTimeStep && this.simulationDuration == simulationDuration
      ensures ephemerisPeriod == EphemerisPeriod(ephemerisTimeStep, integrationTimeStep)
      ensures currentOffset == 0.0 && ephemerisStepCounter == 1 && ephemeris == []
    {
      this.integrationTimeStep := integrationTimeStep;
      this.simulationDuration := simulationDuration;
      ephemerisPeriod := EphemerisPeriod(ephemerisTimeStep, integrationTimeStep);
      currentOffset := 0.0;
      ephemerisStepCounter := 1;
      ephemeris := [];
    }

    /** isRunning: the offset, plus Epsilon, is still before the duration. */
    predicate IsRunning()
      reads this
    {
      currentOffset + Epsilon < simulationDuration as real
    }

    /**
     * run: while running, the offset advances by one step; the ephemeris step
     * is written when the flag is set, and the counter is incremented (an int,
     * which wraps). A zero period makes floorMod throw after the offset has
     * advanced (ok is false). Otherwise nothing changes.
     */
    method Run() returns (ok: bool)
      modifies this`currentOffset, this`ephemerisStepCounter, this`ephemeris
      ensures !old(IsRunning()) ==>
        ok && currentOffset == old(currentOffset) && ephemerisStepCounter == old(ephemerisStepCounter)
        && ephemeris == old(ephemeris)
      ensures old(IsRunning()) ==> currentOffset == old(currentOffset) + integrationTimeStep
      ensures old(IsRunning()) && ephemerisPeriod == 0 ==>
        !ok && ephemerisStepCounter == old(ephemerisStepCounter) && ephemeris == old(ephemeris)
      ensures old(IsRunning()) && ephemerisPeriod != 0 ==>
        ok && ephemerisStepCounter == WrapInt(old(ephemerisStepCounter) + 1)
        && ephemeris == old(ephemeris) +
             (if RenderEphemeris(old(ephemerisStepCounter), ephemerisPeriod) then [currentOffset] else [])
    {
      if IsRunning() {
        currentOffset := currentOffset + integrationTimeStep;
        if ephemerisPeriod == 0 {
          return false;
        }
        var renderEphemeris := (FloorMod(ephemerisStepCounter, ephemerisPeriod) as real) < Epsilon;
        if renderEphemeris {
          ephemeris := ephemeris + [currentOffset];
        }
        ephemerisStepCounter := WrapInt(ephemerisStepCounter + 1);
      }
      ok := true;
    }
  }

  lemma RealCancel(a: real, b: real, c: real)
    requires c != 0.0 && a * c == b * c
    ensures a == b
  {
    assert (a - b) * c == 0.0;
  }

  /** The number of steps left before the end, as the loop's measure. */
  function StepsLeft(offset: real, duration: int, step: real): int
    requires step > 0.0
  {
    ((duration as real - offset) / step).Floor
  }

  lemma StepsLeftDecreases(offset: real, duration: int, step: real)
    requires step > 0.0 && offset + Epsilon < duration as real
    ensures StepsLeft(offset, duration, step) >= 0
    ensures StepsLeft(offset + step, duration, step) == StepsLeft(offset, duration, step) - 1
  {
    var d := duration as real - offset;
    var x := d / step;
    assert x * step == d;
    assert (x - 1.0) * step == d - step;
    RealCancel((d - step) / step, x - 1.0, step);
    assert x > 0.0;
  }

  /**
   * The non-real-time processing: the task runs while it is running. The loop
   * stops exactly when the task stops running, after n steps that write the
   * ephemeris steps of EphemerisOffsets; a zero period stops it at its first
   * step (ok is false).
   */
  method ProcessWallClock(task: MainSimulationTask) returns (ok: bool, ghost n: nat)
    requires task.integrationTimeStep > 0.0
    requires task.currentOffset == 0.0 && task.ephemerisStepCounter == 1 && task.ephemeris == []
    modifies task
    ensures ok ==> !task.IsRunning()
    ensures ok ==> task.currentOffset == Offset(n, task.integrationTimeStep)
    ensures ok ==> (n == 0 || task.ephemerisPeriod != 0) &&
                   task.ephemeris == EphemerisOffsets(n, task.ephemerisPeriod, task.integrationTimeStep)
    ensures !ok ==> task.ephemerisPeriod == 0 && task.ephemeris == [] && n == 1
  {
    var step := task.integrationTimeStep;
    var period := task.ephemerisPeriod;
    n := 0;
    while task.IsRunning()
      invariant task.currentOffset == Offset(n, step)
      invariant period != 0 ==> task.ephemerisStepCounter == WrapInt(n + 1)
      invariant n == 0 || period != 0
      invariant task.ephemeris == EphemerisOffsets(n, period, step)
      decreases StepsLeft(task.currentOffset, task.simulationDuration, step)
    {
      StepsLeftDecreases(task.currentOffset, task.simulationDuration, step);
      ok := task.Run();
      if !ok {
        n := n + 1;
        return;
      }
      WrapIntSucc(n + 1);
      n := n + 1;
    }
    ok := true;
  }

  /** Incrementing a wrapped int is wrapping the increment. */
  lemma WrapIntSucc(x: int)
    ensures WrapInt(WrapInt(x) + 1) == WrapInt(x + 1)
  {
    var w := WrapInt(x);
    var k := (x - w) / TwoTo32;
    assert x - w == k * TwoTo32;
    EuclideanUnique(x + 1 - IntMinValue, TwoTo32, k + (w + 1 - IntMinValue) / TwoTo32, (w + 1 - IntMinValue) % TwoTo32);
  }

  /**
   * The simulator: its real-time flag, captured at construction, its
   * execution status and the ephemeris it writes.
   */
  class NumericalSimulator {
    const realTimeProcessing: bool
    var executionStatus: int
    var ephemeris: seq<real>

    constructor (config: DashboardModel.Configuration)
      ensures realTimeProcessing == config.realTimeUserFlag && executionStatus == 0 && ephemeris == []
    {
      realTimeProcessing := config.realTimeUserFlag;
      executionStatus := 0;
      ephemeris := [];
    }

    /**
     * initialize: the configuration is checked first, and a failed check
     * aborts with nothing done. Otherwise the execution status becomes 1 and
     * the initial state (offset 0) is written into the ephemeris before any
     * propagation.
     */
    method Initialize(config: DashboardModel.Configuration) returns (ok: bool)
      requires config.CheckNeedsInertia() ==> Vectors.NonZeroDiagonal(config.inertiaMatrix)
      modifies this`executionStatus, this`ephemeris
      ensures ok <==> config.ChecksPass()
      ensures ok ==> executionStatus == 1 && ephemeris == old(ephemeris) + [0.0]
      ensures !ok ==> executionStatus == old(executionStatus) && ephemeris == old(ephemeris)
    {
      var outcome := config.CheckConfiguration();
      if outcome != DashboardModel.Passed {
        return false;
      }
      executionStatus := 1;
      ephemeris := ephemeris + [0.0];
      ok := true;
    }

    /**
     * process: the main task is built from the configured time steps and
     * duration; without real-time processing it runs while it is running, and
     * the ephemeris steps it writes follow the initial one.
     */
    method Process(config: DashboardModel.Configuration) returns (ok: bool, ghost n: nat)
      requires !realTimeProcessing && config.integrationTimeStep > 0.0
      modifies this`ephemeris
      ensures ok ==> var period := EphemerisPeriod(config.ephemerisTimeStep, config.integrationTimeStep);
        (n == 0 || period != 0) && ephemeris == old(ephemeris) + EphemerisOffsets(n,
        EphemerisPeriod(config.ephemerisTimeStep, config.integrationTimeStep), config.integrationTimeStep)
      ensures ok ==> Offset(n, config.integrationTimeStep) + Epsilon >= config.simulationDuration as real
      ensures !ok ==> EphemerisPeriod(config.ephemerisTimeStep, config.integrationTimeStep) == 0
                      && ephemeris == old(ephemeris)
    {
      var task := new MainSimulationTask(config.integrationTimeStep, config.ephemerisTimeStep,
                                         config.simulationDuration);
      ok, n := ProcessWallClock(task);
      ephemeris := ephemeris + task.ephemeris;
    }
  }
}
