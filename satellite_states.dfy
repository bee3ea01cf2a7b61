// The satellite states (initial and current spacecraft state with their
// additional states) and the assembly of body and states.

module SatelliteStatesModel {
  import opened Wrappers
  import opened Vectors
  import opened SecondaryStates
  import opened AdditionalEquations
  import RigidBody

  /** Default initial attitude, spin and rotational acceleration. */
  const DefaultInitialAttitude: Quaternion := QuaternionIdentity
  const DefaultInitialSpin: Vec3 := Zero
  const DefaultInitialRotAcceleration: Vec3 := Zero

  /** The body of the satellite as the states see it: its mass and inertia. */
  datatype SatelliteBody = SatelliteBody(satMass: real, inertiaMatrix: Matrix3)

  /**
   * A spacecraft state: date, attitude (rotation, spin, rotational
   * acceleration), mass and the additional states by name. The orbit is not
   * part of this model.
   */
  datatype SpacecraftState = SpacecraftState(
    date: real, attitude: Quaternion, spin: Vec3, rotAcc: Vec3, mass: real,
    additional: AdditionalStates)

  /** Two states carry the same additional states with the same dimensions. */
  predicate Compatible(a: SpacecraftState, b: SpacecraftState) {
    a.additional.Keys == b.additional.Keys &&
    forall k :: k in a.additional ==> |a.additional[k]| == |b.additional[k]|
  }

  /**
   * updateState: rebuilds the main state of `newState` and copies its
   * additional states one entry at a time, then checks that the copy is
   * compatible with `newState`; an incompatible copy yields no state (null).
   * The copy is always complete, so the check always passes.
   */
  method UpdateState(newState: SpacecraftState) returns (r: Option<SpacecraftState>)
    ensures r == Some(newState)
  {
    var state := SpacecraftState(newState.date, newState.attitude, newState.spin, newState.rotAcc,
                                 newState.mass, map[]);
    var remaining := newState.additional.Keys;
    while remaining != {}
      invariant remaining <= newState.additional.Keys
      invariant state.additional == map k | k in newState.additional.Keys - remaining :: newState.additional[k]
      invariant state.(additional := newState.additional) == newState
      decreases remaining
    {
      var name :| name in remaining;
      state := state.(additional := state.additional[name := newState.additional[name]]);
      remaining := remaining - {name};
    }
    assert state.additional == newState.additional;
    if Compatible(state, newState) {
      r := Some(state);
    } else {
      r := None;
    }
  }

  class SatelliteStates {
    var initialState: SpacecraftState
    var currentState: SpacecraftState

    /**
     * Builds the initial state at `orbitDate` from the configured attitude,
     * spin and rotational acceleration, adds the "RotAcc" state and the
     * secondary array (SPIN slice := spin, THETA slice := rotation angle
     * vector `initialTheta`), and starts the current state there.
     */
    constructor (orbitDate: real, body: SatelliteBody, initialAttitude: Quaternion, initialSpin: Vec3,
                 initialRotAcceleration: Vec3, initialTheta: Vec3)
      ensures initialState.date == orbitDate && initialState.mass == body.satMass
      ensures initialState.attitude == initialAttitude && initialState.spin == initialSpin
      ensures initialState.rotAcc == initialRotAcceleration
      ensures initialState.additional ==
        map[RigidBody.RotAccName := ToSeq(initialRotAcceleration), Key := ToSeq(initialSpin) + ToSeq(initialTheta)]
      ensures |initialState.additional[Key]| == SumSizes(Values)
      ensures currentState == initialState
    {
      var state := SpacecraftState(orbitDate, initialAttitude, initialSpin, initialRotAcceleration, body.satMass, map[]);
      state := state.(additional := state.additional[RigidBody.RotAccName := ToSeq(initialRotAcceleration)]);
      var fullArraySize := GetFullArraySize();
      LayoutIsContiguous();
      var secondaryArray := new real[fullArraySize];
      var spinCopied := ArrayCopy(ToSeq(initialSpin), 0, secondaryArray, Index(Spin), Size(Spin));
      var thetaCopied := ArrayCopy(ToSeq(initialTheta), 0, secondaryArray, Index(Theta), Size(Theta));
      assert secondaryArray[..] == ToSeq(initialSpin) + ToSeq(initialTheta);
      state := state.(additional := state.additional[Key := secondaryArray[..]]);
      initialState := state;
      currentState := state;
    }

    method SetInitialState(newInitialState: SpacecraftState)
      modifies this`initialState
      ensures initialState == newInitialState
    {
      var r := UpdateState(newInitialState);
      initialState := r.value;
    }

    method SetCurrentState(newCurrentState: SpacecraftState)
      modifies this`currentState
      ensures currentState == newCurrentState
    {
      var r := UpdateState(newCurrentState);
      currentState := r.value;
    }
  }
}

module AssemblyModel {
  import opened Vectors
  import opened SatelliteStatesModel
  import RigidBody

  /** The satellite as a body and its states; the body is built first and the
    * states are built from it. */
  class Assembly {
    const satelliteBody: SatelliteBody
    const satelliteStates: SatelliteStates

    constructor (orbitDate: real, satMass: real, inertiaMatrix: Matrix3, initialAttitude: Quaternion,
                 initialSpin: Vec3, initialRotAcceleration: Vec3, initialTheta: Vec3)
      ensures satelliteBody == SatelliteBody(satMass, inertiaMatrix) && fresh(satelliteStates)
      ensures satelliteStates.initialState.mass == satelliteBody.satMass
      ensures satelliteStates.currentState == satelliteStates.initialState
      ensures satelliteStates.initialState.spin == initialSpin
    {
      var body := SatelliteBody(satMass, inertiaMatrix);
      satelliteBody := body;
      satelliteStates := new SatelliteStates(orbitDate, body, initialAttitude, initialSpin,
                                             initialRotAcceleration, initialTheta);
    }

    /** The angular momentum of the current state: the full inertia matrix
      * applied to the current spin. */
    method GetAngularMomentum() returns (h: Vec3)
      ensures h == RigidBody.AngularMomentum(satelliteBody.inertiaMatrix, satelliteStates.currentState.spin)
      ensures satelliteStates.currentState.spin == Zero ==> h == Zero
    {
      var rotationRate := satelliteStates.currentState.spin;
      var inertia := satelliteBody.inertiaMatrix;
      h := Vec3(Dot(inertia.row0, rotationRate), Dot(inertia.row1, rotationRate), Dot(inertia.row2, rotationRate));
    }
  }
}
