// The torque command providers: the provider enumeration, the memcached
// provider with its once-per-step acquisition buffer, and the Torques
// registry that installs the configured command provider.

module TorqueProviders {
  /** The torque providers known to the simulator: three command providers
    * sharing index 0, then the disturbances. */
  datatype TorqueProviderEnum =
    | MemCached | Scenario | Controller
    | Gravity | Atmospheric | Magnetic | SolarPressure

  /** The slot of the provider in the torque provider list. */
  function Index(p: TorqueProviderEnum): (r: nat)
    ensures r <= 4
    ensures r == 0 <==> p.MemCached? || p.Scenario? || p.Controller?
  {
    match p
      case MemCached => 0
      case Scenario => 0
      case Controller => 0
      case Gravity => 1
      case Atmospheric => 2
      case Magnetic => 3
      case SolarPressure => 4
  }

  /** The disturbances each have their own slot; the command providers share one. */
  lemma IndicesOfDisturbancesAreDistinct(p: TorqueProviderEnum, q: TorqueProviderEnum)
    requires Index(p) > 0 && p != q
    ensures Index(p) != Index(q)
  {
  }
}

module MemCachedTorque {
  import opened Vectors

  /** The largest dipole of each magnetorquer (A.m^2), scaled by the PWM duty cycle. */
  const MagnetorquerMaxDipole: Vec3 := Vec3(0.2, 0.2, 0.05)

  /** Scale factor from the magnetometer's nT to tesla. */
  const NanoTesla: real := 0.000000001

  /**
   * What the three memcached reads of a PWM command produce: a missing key
   * (the read yields no bytes and wrapping them fails), a command whose
   * torque is NaN or infinite, or a finite command.
   */
  datatype PwmReading = Missing | NonFinite | Finite(pwm: Vec3)

  /** Torque of the magnetorquers commanded by `pwm` in the field `bField`:
    * the dipole (pwm scaled per axis) crossed with the field. */
  function Pwm2Torque(pwm: Vec3, bField: Vec3): (torque: Vec3)
    ensures Dot(torque, bField) == 0.0
    ensures Dot(torque, Mul(pwm, MagnetorquerMaxDipole)) == 0.0
    ensures pwm == Zero ==> torque == Zero
  {
    Cross(Mul(pwm, MagnetorquerMaxDipole), bField)
  }

  /** A magnetorquer torque scales with the command. */
  lemma Pwm2TorqueIsLinear(k: real, pwm: Vec3, bField: Vec3)
    ensures Pwm2Torque(Scale(k, pwm), bField) == Scale(k, Pwm2Torque(pwm, bField))
  {
    ScaleMul(k, pwm, MagnetorquerMaxDipole);
    ScaleCross(k, Mul(pwm, MagnetorquerMaxDipole), bField);
  }

  lemma ScaleMul(k: real, a: Vec3, m: Vec3)
    ensures Mul(Scale(k, a), m) == Scale(k, Mul(a, m))
  {
    assert Mul(Scale(k, a), m) == Vec3((k * a.x) * m.x, (k * a.y) * m.y, (k * a.z) * m.z);
    assert Scale(k, Mul(a, m)) == Vec3(k * (a.x * m.x), k * (a.y * m.y), k * (a.z * m.z));
    MulAssoc(k, a.x, m.x);
    MulAssoc(k, a.y, m.y);
    MulAssoc(k, a.z, m.z);
  }

  lemma MulAssoc(k: real, u: real, v: real)
    ensures (k * u) * v == k * (u * v)
  {
  }

  lemma ScaleCross(k: real, d: Vec3, b: Vec3)
    ensures Cross(Scale(k, d), b) == Scale(k, Cross(d, b))
  {
    var c := Cross(d, b);
    var kd := Scale(k, d);
    ScaledMinor(k, d.y, b.z, d.z, b.y, c.x, kd.y, kd.z);
    ScaledMinor(k, d.z, b.x, d.x, b.z, c.y, kd.z, kd.x);
    ScaledMinor(k, d.x, b.y, d.y, b.x, c.z, kd.x, kd.y);
    assert Cross(kd, b) == Vec3(k * c.x, k * c.y, k * c.z);
  }

  lemma ScaledMinor(k: real, p: real, q: real, r: real, s: real, t: real, kp: real, kr: real)
    requires t == p * q - r * s && kp == k * p && kr == k * r
    ensures kp * q - kr * s == k * t
  {
  }

  /** A new command is read only at the start of a step: the query date is both
    * the expected acquisition date and the date of the current state. */
  predicate Acquires(date: real, nextAcquisitionDate: real, stepStart: real) {
    date == nextAcquisitionDate && date == stepStart
  }

  class MemCachedTorqueProvider {
    /** Date of the current state, i.e. the beginning of the running step. */
    var stepStart: real
    var nextAcquisitionDate: real
    /** The torque buffered for the running step. */
    var stepTorque: Vec3
    var bField: Vec3
    /** The integration time step, copied when the class is loaded. */
    const stepSize: real

    /** Built only when the memcached connection is enabled. */
    constructor (currentStateDate: real, initialStateDate: real, perfectField: Vec3, stepSize: real)
      ensures stepStart == currentStateDate && nextAcquisitionDate == initialStateDate
      ensures stepTorque == Zero && bField == perfectField && this.stepSize == stepSize
    {
      this.stepStart := currentStateDate;
      this.nextAcquisitionDate := initialStateDate;
      this.stepTorque := Zero;
      this.bField := perfectField;
      this.stepSize := stepSize;
    }

    /**
     * The torque at `date`. The field is refreshed and the step start is
     * taken from the current state on every call; the command is read and
     * buffered only on acquisition, and a failed read keeps the buffer.
     */
    method GetTorque(date: real, currentStateDate: real, perfectField: Vec3, reading: PwmReading)
      returns (torque: Vec3)
      modifies this
      ensures bField == Scale(NanoTesla, perfectField) && stepStart == currentStateDate
      ensures Acquires(date, old(nextAcquisitionDate), currentStateDate) && reading.Finite? ==>
        nextAcquisitionDate == currentStateDate + stepSize && stepTorque == Pwm2Torque(reading.pwm, bField)
      ensures !(Acquires(date, old(nextAcquisitionDate), currentStateDate) && reading.Finite?) ==>
        nextAcquisitionDate == old(nextAcquisitionDate) && stepTorque == old(stepTorque)
      ensures torque == stepTorque
    {
      bField := Scale(NanoTesla, perfectField);
      stepStart := currentStateDate;
      var acquisition := date == nextAcquisitionDate && date == stepStart;
      if acquisition {
        match reading
        case Finite(pwm) =>
          var command := Pwm2Torque(pwm, bField);
          nextAcquisitionDate := stepStart + stepSize;
          stepTorque := command;
        case _ =>
      }
      torque := stepTorque;
    }
  }

  /** Within a step the torque is constant: after an acquisition, a later call
    * of the same step (the date now differs from the next acquisition date)
    * returns the buffered command without reading. */
  method SameStepKeepsTorque(start: real, step: real, pwm: Vec3, field: Vec3, later: real, other: PwmReading)
    returns (first: Vec3, second: Vec3)
    requires step > 0.0 && start < later < start + step
    ensures first == Pwm2Torque(pwm, Scale(NanoTesla, field))
    ensures second == first
  {
    var p := new MemCachedTorqueProvider(start, start, field, step);
    first := p.GetTorque(start, start, field, Finite(pwm));
    second := p.GetTorque(later, start, field, other);
  }
}

module TorqueRegistry {
  import opened Vectors
  import opened TorqueProviders
  import opened TorqueScenario
  import opened TorqueOverTime
  import opened MemCachedTorque

  /** The command provider used unless the user configures another one. */
  const DefaultCommandTorqueProvider: TorqueProviderEnum := Scenario

  /** A registered torque provider object. */
  datatype TorqueSource =
    | MemCachedSource(memcached: MemCachedTorqueProvider)
    | ScenarioSource(scenario: TorqueOverTimeScenarioProvider)

  class Torques {
    var torqueProviders: seq<TorqueSource>

    /** Registers the configured command provider at its index (0) in an
      * empty list; CONTROLLER and the disturbances register nothing. */
    constructor (commandTorqueProvider: TorqueProviderEnum, initialStateDate: real, currentStateDate: real,
                 perfectField: Vec3, integrationTimeStep: real, torqueScenario: StepList)
      ensures commandTorqueProvider.MemCached? ==>
        |torqueProviders| == 1 && torqueProviders[0].MemCachedSource? && fresh(torqueProviders[0].memcached)
        && torqueProviders[0].memcached.nextAcquisitionDate == initialStateDate
        && torqueProviders[0].memcached.stepTorque == Zero
      ensures commandTorqueProvider.Scenario? ==>
        |torqueProviders| == 1 && torqueProviders[0].ScenarioSource? && fresh(torqueProviders[0].scenario)
        && torqueProviders[0].scenario.startDate == initialStateDate
        && torqueProviders[0].scenario.scenario == torqueScenario
      ensures !(commandTorqueProvider.MemCached? || commandTorqueProvider.Scenario?) ==> torqueProviders == []
    {
      torqueProviders := [];
      new;
      if commandTorqueProvider.MemCached? {
        var m := new MemCachedTorqueProvider(currentStateDate, initialStateDate, perfectField, integrationTimeStep);
        torqueProviders := Insert(torqueProviders, Index(MemCached), MemCachedSource(m));
      } else if commandTorqueProvider.Scenario? {
        var s := new TorqueOverTimeScenarioProvider.WithDefaultScenario(initialStateDate, torqueScenario);
        torqueProviders := Insert(torqueProviders, Index(Scenario), ScenarioSource(s));
      }
    }
  }

  /** ArrayList.add(index, element): insertion before position `index`. */
  function Insert<T>(s: seq<T>, index: nat, x: T): (r: seq<T>)
    requires index <= |s|
    ensures |r| == |s| + 1 && r[index] == x
    ensures forall i :: 0 <= i < index ==> r[i] == s[i]
    ensures forall i :: index < i < |r| ==> r[i] == s[i - 1]
  {
    s[..index] + [x] + s[index..]
  }
}
