// The user configuration of the simulation: the settings the dashboard
// writes (static fields of several classes in the simulator, gathered here
// in one object), its guarded setters, the torque-scenario setter that keeps
// the initial rotational acceleration coherent, the default configuration
// and the four-clause configuration check.

module DashboardModel {
  import opened Wrappers
  import opened Vectors
  import opened JavaArith
  import opened TorqueProviders
  import opened TorqueScenario
  import RigidBody
  import TorqueOverTime
  import SatelliteStatesModel
  import GroundStationModel

  /** The initial values of the settings before any setter runs. */
  const InitialIntegrationTimeStep: real := 0.1
  const InitialEphemerisTimeStep: real := 1.0
  const InitialSimulationDuration: int := LongMaxValue
  const InitialSatelliteMass: real := 1.04
  const InitialInertiaMatrix: Matrix3 :=
    Matrix3(Vec3(0.0019002, 0.0, 0.0), Vec3(0.0, 0.0019156, 0.0), Vec3(0.0, 0.0, 0.0019496))
  const InitialMemcachedSocketAddress: string := "127.0.0.1:11211"
  const InitialTorqueCommandKey: string := "Simulation_Torque_"

  /** The unit inertia matrix of the default configuration. */
  const SimpleBalancedInertiaMatrix: Matrix3 := Identity

  /** Rotational acceleration at the start of a scenario: Euler's equations
    * for the first step's torque (its rotation vector times the scenario's
    * torque intensity). */
  function ScenarioStartAcceleration(first: Step, spin: Vec3, inertia: Matrix3): Vec3
    requires NonZeroDiagonal(inertia)
  {
    RigidBody.EulerEquations(Scale(TorqueOverTime.MaxTorqueIntensity, first.rotVector), spin, inertia)
  }

  /** Check 1 on its own: the duration in milliseconds (a long product, which
    * wraps) is a multiple of the step in milliseconds (cast to a long); no
    * verdict when that cast is 0, where floorMod throws. */
  function StepDividesDuration(duration: int, step: real): (r: Option<bool>)
    ensures r.None? <==> DoubleToLong(step * 1000.0) == 0
    ensures r.Some? ==> (r.value <==> WrapLong(duration * 1000) % DoubleToLong(step * 1000.0) == 0)
  {
    var divisor := DoubleToLong(step * 1000.0);
    if divisor == 0 then None else Some(FloorMod(WrapLong(duration * 1000), divisor) == 0)
  }

  /** Check 2: the ephemeris step is at most the duration. */
  predicate EphemerisWithinDuration(ephemerisTimeStep: real, duration: int) {
    ephemerisTimeStep <= duration as real
  }

  /** Check 3: the memcached provider needs the memcached connection. */
  predicate MemCachedProviderConnected(provider: TorqueProviderEnum, connectMemCached: bool) {
    provider != MemCached || connectMemCached
  }

  /** Where check 4 evaluates Euler's equations. */
  predicate ScenarioStartsAtZero(provider: TorqueProviderEnum, scenario: seq<Step>) {
    provider == Scenario && |scenario| > 0 && scenario[0].start == 0.0
  }

  /** Check 4: a scenario in use that is not empty starts at offset 0 with the
    * initial rotational acceleration its first step gives. */
  predicate ScenarioCoherent(provider: TorqueProviderEnum, scenario: seq<Step>, spin: Vec3, rotAcc: Vec3,
                             inertia: Matrix3)
    requires ScenarioStartsAtZero(provider, scenario) ==> NonZeroDiagonal(inertia)
  {
    provider != Scenario || |scenario| == 0 ||
    (scenario[0].start == 0.0 && ScenarioStartAcceleration(scenario[0], spin, inertia) == rotAcc)
  }

  /** A scenario in use that starts after offset 0 always fails check 4. */
  lemma LateScenarioIsIncoherent(scenario: seq<Step>, spin: Vec3, rotAcc: Vec3, inertia: Matrix3)
    requires |scenario| > 0 && scenario[0].start != 0.0
    ensures !ScenarioCoherent(Scenario, scenario, spin, rotAcc, inertia)
  {
  }

  /** The outcome of the configuration check. */
  datatype CheckOutcome = Passed | Failed | ArithmeticError

  /** The Long.MAX_VALUE duration in milliseconds wraps to -1000, which any
    * step of a whole number of milliseconds divides. */
  lemma InitialDurationWraps()
    ensures WrapLong(InitialSimulationDuration * 1000) == -1000
    ensures StepDividesDuration(InitialSimulationDuration, 0.1) == Some(true)
  {
    assert InitialSimulationDuration * 1000 == 500 * TwoTo64 - 1000;
    assert DoubleToLong(0.1 * 1000.0) == 100;
  }

  /** The first three checks on the default settings. */
  lemma DefaultChecksPass()
    ensures StepDividesDuration(10, 0.1) == Some(true)
    ensures EphemerisWithinDuration(1.0, 10)
    ensures MemCachedProviderConnected(Scenario, false)
  {
    assert DoubleToLong(0.1 * 1000.0) == 100;
    assert WrapLong(10 * 1000) == 10000;
  }

  class Configuration {
    var realTimeUserFlag: bool
    var integrationTimeStep: real
    var ephemerisTimeStep: real
    /** In seconds, a long. */
    var simulationDuration: int
    var periodicityOfWork: int
    var initialAttitude: Quaternion
    var initialSpin: Vec3
    var initialRotAcceleration: Vec3
    var satelliteMass: real
    var inertiaMatrix: Matrix3
    var commandTorqueProvider: TorqueProviderEnum
    /** The scenario list of the torque-over-time provider. */
    var torqueScenario: StepList
    var connectMemCached: bool
    var memcachedSocketAddress: string
    var torqueCommandKey: string
    var connectVts: bool

    /** The settings' initial values. */
    constructor ()
      ensures realTimeUserFlag == false && integrationTimeStep == InitialIntegrationTimeStep
      ensures ephemerisTimeStep == InitialEphemerisTimeStep && simulationDuration == InitialSimulationDuration
      ensures periodicityOfWork == GroundStationModel.DefaultPeriodicityOfWork
      ensures initialAttitude == SatelliteStatesModel.DefaultInitialAttitude
      ensures initialSpin == SatelliteStatesModel.DefaultInitialSpin
      ensures initialRotAcceleration == SatelliteStatesModel.DefaultInitialRotAcceleration
      ensures satelliteMass == InitialSatelliteMass && inertiaMatrix == InitialInertiaMatrix
      ensures commandTorqueProvider == Scenario && fresh(torqueScenario) && torqueScenario.steps == []
      ensures connectMemCached == false && memcachedSocketAddress == InitialMemcachedSocketAddress
      ensures torqueCommandKey == InitialTorqueCommandKey && connectVts == false
      ensures Valid()
    {
      realTimeUserFlag := false;
      integrationTimeStep := InitialIntegrationTimeStep;
      ephemerisTimeStep := InitialEphemerisTimeStep;
      simulationDuration := InitialSimulationDuration;
      periodicityOfWork := GroundStationModel.DefaultPeriodicityOfWork;
      initialAttitude := SatelliteStatesModel.DefaultInitialAttitude;
      initialSpin := SatelliteStatesModel.DefaultInitialSpin;
      initialRotAcceleration := SatelliteStatesModel.DefaultInitialRotAcceleration;
      satelliteMass := InitialSatelliteMass;
      inertiaMatrix := InitialInertiaMatrix;
      commandTorqueProvider := Scenario;
      torqueScenario := new StepList([]);
      connectMemCached := false;
      memcachedSocketAddress := InitialMemcachedSocketAddress;
      torqueCommandKey := InitialTorqueCommandKey;
      connectVts := false;
    }

    /** Both time steps are positive: the initial values are and the setters
      * refuse any other. */
    predicate Valid()
      reads this
    {
      integrationTimeStep > 0.0 && ephemerisTimeStep > 0.0
    }

    method SetRealTimeProcessing(status: bool)
      modifies this`realTimeUserFlag
      ensures realTimeUserFlag == status
    {
      realTimeUserFlag := status;
    }

    /** setIntegrationTimeStep: stored only when strictly positive. */
    method SetIntegrationTimeStep(step: real)
      requires Valid()
      modifies this`integrationTimeStep
      ensures integrationTimeStep == if step > 0.0 then step else old(integrationTimeStep)
      ensures Valid()
    {
      if step > 0.0 {
        integrationTimeStep := step;
      }
    }

    /** setEphemerisTimeStep: stored only when strictly positive. */
    method SetEphemerisTimeStep(step: real)
      requires Valid()
      modifies this`ephemerisTimeStep
      ensures ephemerisTimeStep == if step > 0.0 then step else old(ephemerisTimeStep)
      ensures Valid()
    {
      if step > 0.0 {
        ephemerisTimeStep := step;
      }
    }

    method SetSimulationDuration(duration: int)
      requires LongMinValue <= duration <= LongMaxValue
      modifies this`simulationDuration
      ensures simulationDuration == duration
    {
      simulationDuration := duration;
    }

    method SetGroundStationWorkPeriod(workPeriodicity: int)
      modifies this`periodicityOfWork
      ensures periodicityOfWork == workPeriodicity
    {
      periodicityOfWork := workPeriodicity;
    }

    /**
     * setInitialAttitudeQuaternion: the quaternion divided by its norm (the
     * square root is a parameter); a zero norm makes the normalisation throw
     * and nothing is stored.
     */
    method SetInitialAttitudeQuaternion(q: Quaternion, sqrt: real -> real) returns (ok: bool)
      modifies this`initialAttitude
      ensures var norm := sqrt(QNormSq(q));
        ok <==> norm != 0.0
      ensures ok ==> var norm := sqrt(QNormSq(q));
        initialAttitude == Quaternion(q.q0 / norm, q.q1 / norm, q.q2 / norm, q.q3 / norm)
      ensures !ok ==> initialAttitude == old(initialAttitude)
    {
      var norm := sqrt(QNormSq(q));
      if norm == 0.0 {
        return false;
      }
      initialAttitude := Quaternion(q.q0 / norm, q.q1 / norm, q.q2 / norm, q.q3 / norm);
      ok := true;
    }

    method SetInitialSpin(spin: Vec3)
      modifies this`initialSpin
      ensures initialSpin == spin
    {
      initialSpin := spin;
    }

    method SetInitialRotAcceleration(accRot: Vec3)
      modifies this`initialRotAcceleration
      ensures initialRotAcceleration == accRot
    {
      initialRotAcceleration := accRot;
    }

    method SetSatelliteMass(mass: real)
      modifies this`satelliteMass
      ensures satelliteMass == mass
    {
      satelliteMass := mass;
    }

    method SetSatelliteInertiaMatrix(iMatrix: Matrix3)
      modifies this`inertiaMatrix
      ensures inertiaMatrix == iMatrix
    {
      inertiaMatrix := iMatrix;
    }

    method SetTorqueProvider(torqueProviderInUse: TorqueProviderEnum)
      modifies this`commandTorqueProvider
      ensures commandTorqueProvider == torqueProviderInUse
    {
      commandTorqueProvider := torqueProviderInUse;
    }

    /**
     * setTorqueScenario: the scenario list becomes a new list holding a copy
     * of `scenario`; when it starts at offset 0, the initial rotational
     * acceleration becomes the one its first step gives.
     */
    method SetTorqueScenario(scenario: seq<Step>)
      requires |scenario| > 0 && scenario[0].start == 0.0 ==> NonZeroDiagonal(inertiaMatrix)
      modifies this`torqueScenario, this`initialRotAcceleration
      ensures fresh(torqueScenario) && torqueScenario.steps == scenario
      ensures |scenario| > 0 && scenario[0].start == 0.0 ==>
        initialRotAcceleration == ScenarioStartAcceleration(scenario[0], initialSpin, inertiaMatrix)
      ensures !(|scenario| > 0 && scenario[0].start == 0.0) ==> initialRotAcceleration == old(initialRotAcceleration)
      ensures ScenarioCoherent(Scenario, torqueScenario.steps, initialSpin, initialRotAcceleration, inertiaMatrix)
              || (|scenario| > 0 && scenario[0].start != 0.0)
    {
      torqueScenario := new StepList(scenario);
      if |torqueScenario.steps| > 0 && torqueScenario.steps[0].start == 0.0 {
        SetInitialRotAcceleration(ScenarioStartAcceleration(torqueScenario.steps[0], initialSpin, inertiaMatrix));
      }
    }

    method SetMemCachedConnection(active: bool, host: string)
      modifies this`connectMemCached, this`memcachedSocketAddress
      ensures connectMemCached == active && memcachedSocketAddress == host
    {
      connectMemCached := active;
      memcachedSocketAddress := host;
    }

    method SetTorqueCommandKey(key: string)
      modifies this`torqueCommandKey
      ensures torqueCommandKey == key
    {
      torqueCommandKey := key;
    }

    method SetVtsConnection(active: bool)
      modifies this`connectVts
      ensures connectVts == active
    {
      connectVts := active;
    }

    /** Where Euler's equations would divide by zero in check 4. */
    predicate CheckNeedsInertia()
      reads this, torqueScenario
    {
      ScenarioStartsAtZero(commandTorqueProvider, torqueScenario.steps)
    }

    /** The four checks all hold (the first one without throwing). */
    predicate ChecksPass()
      requires CheckNeedsInertia() ==> NonZeroDiagonal(inertiaMatrix)
      reads this, torqueScenario
    {
      StepDividesDuration(simulationDuration, integrationTimeStep) == Some(true)
      && EphemerisWithinDuration(ephemerisTimeStep, simulationDuration)
      && MemCachedProviderConnected(commandTorqueProvider, connectMemCached)
      && ScenarioCoherent(commandTorqueProvider, torqueScenario.steps, initialSpin, initialRotAcceleration,
                          inertiaMatrix)
    }

    /**
     * checkConfiguration: the four checks are all evaluated and their
     * conjunction accumulated; the check fails when any fails. A step under
     * one millisecond makes the first check's floorMod throw before any
     * other check is evaluated.
     */
    method CheckConfiguration() returns (outcome: CheckOutcome)
      requires CheckNeedsInertia() ==> NonZeroDiagonal(inertiaMatrix)
      ensures outcome == ArithmeticError <==> DoubleToLong(integrationTimeStep * 1000.0) == 0
      ensures outcome == Passed <==> ChecksPass()
    {
      var mainStatus := true;
      var divisor := DoubleToLong(integrationTimeStep * 1000.0);
      if divisor == 0 {
        return ArithmeticError;
      }
      var status := FloorMod(WrapLong(simulationDuration * 1000), divisor) == 0;
      mainStatus := mainStatus && status;

      status := ephemerisTimeStep <= simulationDuration as real;
      mainStatus := mainStatus && status;

      status := commandTorqueProvider != MemCached || connectMemCached;
      mainStatus := mainStatus && status;

      var scenario := torqueScenario.steps;
      status := commandTorqueProvider != Scenario || |scenario| == 0 ||
        (scenario[0].start == 0.0 && ScenarioStartAcceleration(scenario[0], initialSpin, inertiaMatrix) == initialRotAcceleration);
      mainStatus := mainStatus && status;

      outcome := if mainStatus then Passed else Failed;
    }

    /** The simulation settings of the default configuration. */
    method SetDefaultSimulation()
      requires Valid()
      modifies this`realTimeUserFlag, this`integrationTimeStep, this`ephemerisTimeStep, this`periodicityOfWork,
               this`simulationDuration
      ensures Valid()
      ensures realTimeUserFlag == false && integrationTimeStep == 0.1 && ephemerisTimeStep == 1.0
      ensures periodicityOfWork == 10 && simulationDuration == 10
    {
      SetRealTimeProcessing(false);
      SetIntegrationTimeStep(0.1);
      SetEphemerisTimeStep(1.0);
      SetGroundStationWorkPeriod(10);
      SetSimulationDuration(10);
    }

    /** The attitude and torque settings of the default configuration. */
    method SetDefaultDynamics(sqrt: real -> real)
      requires sqrt(1.0) == 1.0
      modifies this`initialAttitude, this`initialSpin, this`initialRotAcceleration, this`commandTorqueProvider,
               this`torqueScenario
      ensures initialAttitude == QuaternionIdentity && initialSpin == Zero && initialRotAcceleration == Zero
      ensures commandTorqueProvider == Scenario && fresh(torqueScenario) && torqueScenario.steps == []
    {
      assert QNormSq(Quaternion(1.0, 0.0, 0.0, 0.0)) == 1.0;
      var normalised := SetInitialAttitudeQuaternion(Quaternion(1.0, 0.0, 0.0, 0.0), sqrt);
      SetInitialSpin(Zero);
      SetInitialRotAcceleration(Zero);
      SetTorqueProvider(Scenario);
      SetTorqueScenario([]);
    }

    /** The structure and connection settings of the default configuration. */
    method SetDefaultStructureAndIO()
      modifies this`satelliteMass, this`inertiaMatrix, this`connectMemCached, this`memcachedSocketAddress,
               this`torqueCommandKey, this`connectVts
      ensures satelliteMass == 1.0 && inertiaMatrix == SimpleBalancedInertiaMatrix
      ensures connectMemCached == false && memcachedSocketAddress == InitialMemcachedSocketAddress
      ensures torqueCommandKey == InitialTorqueCommandKey && connectVts == false
    {
      SetSatelliteMass(1.0);
      SetSatelliteInertiaMatrix(SimpleBalancedInertiaMatrix);
      SetMemCachedConnection(false, InitialMemcachedSocketAddress);
      SetTorqueCommandKey(InitialTorqueCommandKey);
      SetVtsConnection(false);
    }

    /**
     * setDefaultConfiguration: a 0.1 s step, a 1.0 s ephemeris step, a 10 s
     * ground-station period and duration, the identity attitude, zero spin
     * and acceleration, the scenario provider with an empty scenario, a mass
     * of 1.0 and the unit inertia matrix, no memcached nor VTS connection;
     * then the configuration is checked, and it passes.
     */
    method SetDefaultConfiguration(sqrt: real -> real) returns (outcome: CheckOutcome)
      requires Valid()
      requires sqrt(1.0) == 1.0
      modifies this
      ensures Valid() && outcome == Passed
      ensures realTimeUserFlag == false && integrationTimeStep == 0.1 && ephemerisTimeStep == 1.0
      ensures periodicityOfWork == 10 && simulationDuration == 10
      ensures initialAttitude == QuaternionIdentity && initialSpin == Zero && initialRotAcceleration == Zero
      ensures commandTorqueProvider == Scenario && torqueScenario.steps == []
      ensures satelliteMass == 1.0 && inertiaMatrix == SimpleBalancedInertiaMatrix
      ensures connectMemCached == false && memcachedSocketAddress == InitialMemcachedSocketAddress
      ensures torqueCommandKey == InitialTorqueCommandKey && connectVts == false
    {
      SetDefaultSimulation();
      SetDefaultDynamics(sqrt);
      SetDefaultStructureAndIO();
      DefaultChecksPass();
      outcome := CheckConfiguration();
    }
  }
}
