/**
 * The position tracker: a wrapper around a 6-state, 2-measurement
 * constant-acceleration Kalman filter. The state is position, velocity and
 * acceleration in x and y; the measurement is a position. The wrapper sets
 * the model up, runs the library's predict and correct steps, and reads
 * positions, velocities and accelerations back out of the filter's state.
 */
module KalmanWrapper {
  import opened Linear
  import opened CvTypes

  // `Kalman::PosStates`: the layout of the state vector
  const STATE_X: nat := 0
  const STATE_Y: nat := 1
  const STATE_X_VEL: nat := 2
  const STATE_Y_VEL: nat := 3
  const STATE_X_ACCEL: nat := 4
  const STATE_Y_ACCEL: nat := 5
  const NUM_POS_STATES: nat := 6

  /** The measurement is a position (x, y). */
  const NUM_MEASUREMENTS: nat := 2

  /** One step of the model is one frame, so velocities are in pixels per frame. */
  const DT: real := 1.0
  /** The acceleration term of the position update, half of dt squared. */
  const DT2: real := 0.5 * DT * DT

  /** The default arguments of `init`. */
  const DEFAULT_PROCESS_NOISE: real := 0.00001
  const DEFAULT_MEASUREMENT_NOISE: real := 0.001
  /** The process noise of the two accelerations is this many times the rest. */
  const ACCEL_NOISE_FACTOR: real := 100.0
  /** The a-posteriori error covariance set for the first iteration. */
  const INITIAL_ERROR_COV: real := 0.1

  /**
   * The fields of the library's Kalman filter the wrapper touches: the
   * predicted (a-priori) and corrected (a-posteriori) state, the model
   * matrices, the noise covariances, the error covariances and the gain.
   */
  datatype FilterState = FilterState(
    statePre: Vector,
    statePost: Vector,
    transitionMatrix: Matrix,
    measurementMatrix: Matrix,
    processNoiseCov: Matrix,
    measurementNoiseCov: Matrix,
    errorCovPre: Matrix,
    errorCovPost: Matrix,
    gain: Matrix)

  /** A default-constructed filter: every matrix is empty. */
  const EMPTY_FILTER := FilterState([], [], [], [], [], [], [], [], [])

  /** Every field has the size a 6-state, 2-measurement filter gives it. */
  predicate WellFormed(f: FilterState) {
    && |f.statePre| == NUM_POS_STATES
    && |f.statePost| == NUM_POS_STATES
    && IsMatrix(f.transitionMatrix, NUM_POS_STATES, NUM_POS_STATES)
    && IsMatrix(f.measurementMatrix, NUM_MEASUREMENTS, NUM_POS_STATES)
    && IsMatrix(f.processNoiseCov, NUM_POS_STATES, NUM_POS_STATES)
    && IsMatrix(f.measurementNoiseCov, NUM_MEASUREMENTS, NUM_MEASUREMENTS)
    && IsMatrix(f.errorCovPre, NUM_POS_STATES, NUM_POS_STATES)
    && IsMatrix(f.errorCovPost, NUM_POS_STATES, NUM_POS_STATES)
    && IsMatrix(f.gain, NUM_POS_STATES, NUM_MEASUREMENTS)
  }

  /**
   * The library's `init(dp, mp, 0)`: zero states, identity transition and
   * noise covariances, a zero measurement matrix, zero error covariances
   * and a zero gain.
   */
  function LibraryInit(dp: nat, mp: nat): (f: FilterState)
    ensures |f.statePre| == dp && |f.statePost| == dp
    ensures IsMatrix(f.transitionMatrix, dp, dp) && IsMatrix(f.measurementMatrix, mp, dp)
    ensures IsMatrix(f.processNoiseCov, dp, dp) && IsMatrix(f.measurementNoiseCov, mp, mp)
    ensures IsMatrix(f.errorCovPre, dp, dp) && IsMatrix(f.errorCovPost, dp, dp)
    ensures IsMatrix(f.gain, dp, mp)
  {
    FilterState(ZeroVector(dp), ZeroVector(dp), ScaledIdentity(dp, 1.0), Zeros(mp, dp),
                ScaledIdentity(dp, 1.0), ScaledIdentity(mp, 1.0), Zeros(dp, dp), Zeros(dp, dp),
                Zeros(dp, mp))
  }

  /** The constant-acceleration model for a step of `dt`. */
  function DynamicModel(dt: real): (m: Matrix)
    ensures IsMatrix(m, NUM_POS_STATES, NUM_POS_STATES)
  {
    var dt2 := 0.5 * dt * dt;
    [ [1.0, 0.0, dt,  0.0, dt2, 0.0],
      [0.0, 1.0, 0.0, dt,  0.0, dt2],
      [0.0, 0.0, 1.0, 0.0, dt,  0.0],
      [0.0, 0.0, 0.0, 1.0, 0.0, dt ],
      [0.0, 0.0, 0.0, 0.0, 1.0, 0.0],
      [0.0, 0.0, 0.0, 0.0, 0.0, 1.0] ]
  }

  /** The measurement model: the observation is the position part of the state. */
  function MeasurementModel(): (m: Matrix)
    ensures IsMatrix(m, NUM_MEASUREMENTS, NUM_POS_STATES)
  {
    [ [1.0, 0.0, 0.0, 0.0, 0.0, 0.0],
      [0.0, 1.0, 0.0, 0.0, 0.0, 0.0] ]
  }

  /**
   * One step of the dynamic model is the kinematics of constant
   * acceleration: position gains dt times velocity plus dt²/2 times
   * acceleration, velocity gains dt times acceleration, acceleration stays.
   */
  lemma DynamicModelKinematics(dt: real, s: Vector)
    requires |s| == NUM_POS_STATES
    ensures MatVec(DynamicModel(dt), s) ==
        [ s[STATE_X] + dt * s[STATE_X_VEL] + 0.5 * dt * dt * s[STATE_X_ACCEL],
          s[STATE_Y] + dt * s[STATE_Y_VEL] + 0.5 * dt * dt * s[STATE_Y_ACCEL],
          s[STATE_X_VEL] + dt * s[STATE_X_ACCEL],
          s[STATE_Y_VEL] + dt * s[STATE_Y_ACCEL],
          s[STATE_X_ACCEL],
          s[STATE_Y_ACCEL] ]
  {
    var m := DynamicModel(dt);
    var r := MatVec(m, s);
    Dot6(m[0], s);
    Dot6(m[1], s);
    Dot6(m[2], s);
    Dot6(m[3], s);
    Dot6(m[4], s);
    Dot6(m[5], s);
    assert r[0] == Dot(m[0], s) && r[1] == Dot(m[1], s) && r[2] == Dot(m[2], s);
    assert r[3] == Dot(m[3], s) && r[4] == Dot(m[4], s) && r[5] == Dot(m[5], s);
    assert r[0] == s[STATE_X] + dt * s[STATE_X_VEL] + 0.5 * dt * dt * s[STATE_X_ACCEL];
    assert r[1] == s[STATE_Y] + dt * s[STATE_Y_VEL] + 0.5 * dt * dt * s[STATE_Y_ACCEL];
    assert r[2] == s[STATE_X_VEL] + dt * s[STATE_X_ACCEL];
    assert r[3] == s[STATE_Y_VEL] + dt * s[STATE_Y_ACCEL];
    assert r[4] == s[STATE_X_ACCEL];
    assert r[5] == s[STATE_Y_ACCEL];
  }

  /** A target at rest (no velocity, no acceleration) is predicted to stay where it is. */
  lemma RestIsFixedPoint(dt: real, s: Vector)
    requires |s| == NUM_POS_STATES
    requires s[STATE_X_VEL] == 0.0 && s[STATE_Y_VEL] == 0.0
    requires s[STATE_X_ACCEL] == 0.0 && s[STATE_Y_ACCEL] == 0.0
    ensures MatVec(DynamicModel(dt), s) == s
  {
    DynamicModelKinematics(dt, s);
  }

  /** The measurement model picks out exactly the (x, y) position of a state. */
  lemma MeasurementSelectsPosition(s: Vector)
    requires |s| == NUM_POS_STATES
    ensures MatVec(MeasurementModel(), s) == [s[STATE_X], s[STATE_Y]]
  {
    var m := MeasurementModel();
    Dot6(m[0], s);
    Dot6(m[1], s);
  }

  /**
   * The process noise `init` sets: `q` on the diagonal, `100 q` for the two
   * accelerations (constant acceleration is only a rough model), and 0 off
   * the diagonal.
   */
  function ProcessNoise(q: real): (m: Matrix)
    ensures IsMatrix(m, NUM_POS_STATES, NUM_POS_STATES)
  {
    seq(NUM_POS_STATES, i =>
      seq(NUM_POS_STATES, j =>
        if i != j then 0.0
        else if i == STATE_X_ACCEL || i == STATE_Y_ACCEL then ACCEL_NOISE_FACTOR * q
        else q))
  }

  /** The state `init` starts from: at the measured point, at rest. */
  function InitialState(initial: Point): (s: Vector)
    ensures |s| == NUM_POS_STATES
  {
    [initial.x as real, initial.y as real, 0.0, 0.0, 0.0, 0.0]
  }

  /**
   * The whole filter `init` leaves behind. It depends on the arguments
   * alone, so `init` is a hard reset: nothing of the filter before it
   * survives.
   */
  function InitialFilter(initial: Point, q: real, r: real): (f: FilterState)
    ensures WellFormed(f)
  {
    FilterState(
      statePre := ZeroVector(NUM_POS_STATES),
      statePost := InitialState(initial),
      transitionMatrix := DynamicModel(DT),
      measurementMatrix := MeasurementModel(),
      processNoiseCov := ProcessNoise(q),
      measurementNoiseCov := ScaledIdentity(NUM_MEASUREMENTS, r),
      errorCovPre := Zeros(NUM_POS_STATES, NUM_POS_STATES),
      errorCovPost := ScaledIdentity(NUM_POS_STATES, INITIAL_ERROR_COV),
      gain := Zeros(NUM_POS_STATES, NUM_MEASUREMENTS))
  }

  /**
   * The first prediction after `init` is the initial point itself: the
   * initial state is at rest, so the model keeps it, and truncating the
   * integer coordinates gives them back.
   */
  lemma FirstPredictionIsInitialPoint(initial: Point)
    ensures TruncPoint(PositionOf(MatVec(DynamicModel(DT), InitialState(initial)))) == initial
  {
    RestIsFixedPoint(DT, InitialState(initial));
  }

  /**
   * The position a prediction reports: the corrected position moved on by
   * one frame of the corrected velocity and half a frame squared of the
   * corrected acceleration.
   */
  lemma PredictedPositionExtrapolates(s: Vector)
    requires |s| == NUM_POS_STATES
    ensures PositionOf(MatVec(DynamicModel(DT), s)) ==
      Point2f(s[STATE_X] + DT * s[STATE_X_VEL] + DT2 * s[STATE_X_ACCEL],
              s[STATE_Y] + DT * s[STATE_Y_VEL] + DT2 * s[STATE_Y_ACCEL])
  {
    DynamicModelKinematics(DT, s);
  }

  function PositionOf(s: Vector): Point2f
    requires |s| == NUM_POS_STATES
  {
    Point2f(s[STATE_X], s[STATE_Y])
  }

  function VelocityOf(s: Vector): Point2f
    requires |s| == NUM_POS_STATES
  {
    Point2f(s[STATE_X_VEL], s[STATE_Y_VEL])
  }

  function AccelerationOf(s: Vector): Point2f
    requires |s| == NUM_POS_STATES
  {
    Point2f(s[STATE_X_ACCEL], s[STATE_Y_ACCEL])
  }

  /**
   * The library's state correction: the predicted state plus the gain times
   * the innovation, the difference between the measurement and the
   * measurement the predicted state implies.
   */
  function CorrectedEstimate(pre: Vector, gain: Matrix, h: Matrix, z: Vector): (post: Vector)
    requires |pre| == NUM_POS_STATES && |z| == NUM_MEASUREMENTS
    requires IsMatrix(gain, NUM_POS_STATES, NUM_MEASUREMENTS) && IsMatrix(h, NUM_MEASUREMENTS, NUM_POS_STATES)
    ensures |post| == NUM_POS_STATES
  {
    Add(pre, MatVec(gain, Sub(z, MatVec(h, pre))))
  }

  /**
   * An observation exactly where the filter predicted the target leaves the
   * prediction unchanged, whatever the gain.
   */
  lemma ObservationAtPredictionKeepsIt(pre: Vector, gain: Matrix)
    requires |pre| == NUM_POS_STATES && IsMatrix(gain, NUM_POS_STATES, NUM_MEASUREMENTS)
    ensures CorrectedEstimate(pre, gain, MeasurementModel(), [pre[STATE_X], pre[STATE_Y]]) == pre
  {
    var z := [pre[STATE_X], pre[STATE_Y]];
    MeasurementSelectsPosition(pre);
    assert Sub(z, MatVec(MeasurementModel(), pre)) == ZeroVector(NUM_MEASUREMENTS);
    MatVecZero(gain, NUM_MEASUREMENTS);
    assert MatVec(gain, ZeroVector(NUM_MEASUREMENTS)) == ZeroVector(NUM_POS_STATES);
  }

  /**
   * What the wrapper relies on from the library's `predict`: the predicted
   * state is the transition matrix times the corrected state, the
   * transition and measurement matrices are left alone, and every field
   * keeps its size.
   */
  ghost predicate PredictContract(predict: FilterState -> FilterState) {
    forall f {:trigger predict(f)} :: WellFormed(f) ==>
      && WellFormed(predict(f))
      && predict(f).statePre == MatVec(f.transitionMatrix, f.statePost)
      && predict(f).transitionMatrix == f.transitionMatrix
      && predict(f).measurementMatrix == f.measurementMatrix
  }

  /**
   * What the wrapper relies on from the library's `correct`: the corrected
   * state is the predicted state moved by the new gain times the
   * innovation, the model matrices are left alone, and every field keeps
   * its size.
   */
  ghost predicate CorrectContract(correct: (FilterState, Vector) -> FilterState) {
    forall f, z {:trigger correct(f, z)} :: WellFormed(f) && |z| == NUM_MEASUREMENTS ==>
      && WellFormed(correct(f, z))
      && correct(f, z).statePost == CorrectedEstimate(f.statePre, correct(f, z).gain, f.measurementMatrix, z)
      && correct(f, z).transitionMatrix == f.transitionMatrix
      && correct(f, z).measurementMatrix == f.measurementMatrix
  }

  /**
   * The six accessors read the slots of `PosStates` in order: the predicted
   * ones from the predicted state, the corrected ones from the corrected
   * state, so together they give back both states whole.
   */
  lemma AccessorsFollowPosStates(k: Kalman)
    requires k.Valid() && k.initialized
    ensures var pre := k.filter.statePre;
      [ k.PredictedPosition().x, k.PredictedPosition().y, k.PredictedVelocity().x,
        k.PredictedVelocity().y, k.PredictedAcceleration().x, k.PredictedAcceleration().y ] == pre
    ensures var post := k.filter.statePost;
      [ k.CorrectedPosition().x, k.CorrectedPosition().y, k.CorrectedVelocity().x,
        k.CorrectedVelocity().y, k.CorrectedAcceleration().x, k.CorrectedAcceleration().y ] == post
  {
  }

  /**
   * `Kalman`: the position filter and whether `init` has run. The library's
   * predict and correct steps are given to the constructor; the model
   * states only what the wrapper relies on from them.
   */
  class Kalman {
    var filter: FilterState
    var initialized: bool
    const predictStep: FilterState -> FilterState
    const correctStep: (FilterState, Vector) -> FilterState

    /**
     * The library steps keep their contracts, and once initialized the
     * filter is well formed and still holds the model `init` set.
     */
    ghost predicate Valid()
      reads this
    {
      && PredictContract(predictStep)
      && CorrectContract(correctStep)
      && (initialized ==>
            && WellFormed(filter)
            && filter.transitionMatrix == DynamicModel(DT)
            && filter.measurementMatrix == MeasurementModel())
    }

    /** A default-constructed filter, not yet initialized. */
    constructor (predictStep: FilterState -> FilterState, correctStep: (FilterState, Vector) -> FilterState)
      requires PredictContract(predictStep) && CorrectContract(correctStep)
      ensures Valid()
      ensures filter == EMPTY_FILTER && !initialized
      ensures this.predictStep == predictStep && this.correctStep == correctStep
    {
      this.predictStep := predictStep;
      this.correctStep := correctStep;
      filter := EMPTY_FILTER;
      initialized := false;
    }

    /** `initialized()`: once it reports true, the filter holds the model `init` installed. */
    function Initialized(): (r: bool)
      reads this
      ensures r && Valid() ==>
        && WellFormed(filter)
        && filter.transitionMatrix == DynamicModel(DT)
        && filter.measurementMatrix == MeasurementModel()
    {
      initialized
    }

    /** `predicted_position()`: position part of the predicted state. */
    function PredictedPosition(): Point2f
      requires Valid() && initialized
      reads this
    {
      PositionOf(filter.statePre)
    }

    /** `corrected_position()`: position part of the corrected state. */
    function CorrectedPosition(): Point2f
      requires Valid() && initialized
      reads this
    {
      PositionOf(filter.statePost)
    }

    /** `predicted_velocity()` */
    function PredictedVelocity(): Point2f
      requires Valid() && initialized
      reads this
    {
      VelocityOf(filter.statePre)
    }

    /** `corrected_velocity()` */
    function CorrectedVelocity(): Point2f
      requires Valid() && initialized
      reads this
    {
      VelocityOf(filter.statePost)
    }

    /** `predicted_acceleration()` */
    function PredictedAcceleration(): Point2f
      requires Valid() && initialized
      reads this
    {
      AccelerationOf(filter.statePre)
    }

    /** `corrected_acceleration()` */
    function CorrectedAcceleration(): Point2f
      requires Valid() && initialized
      reads this
    {
      AccelerationOf(filter.statePost)
    }

    /** `corrected_state()`, as a value. */
    function CorrectedState(): Vector
      reads this
    {
      filter.statePost
    }

    /**
     * `init(initial, processNoise, measurementNoise)`: resets the filter to
     * the library defaults, installs the constant-acceleration and
     * measurement models, the noise covariances and the first error
     * covariance, and starts at `initial`, at rest. Nothing of the old
     * filter survives.
     */
    method Init(initial: Point, processNoise: real := DEFAULT_PROCESS_NOISE,
                measurementNoise: real := DEFAULT_MEASUREMENT_NOISE)
      requires Valid()
      modifies this`filter, this`initialized
      ensures Valid() && initialized
      ensures filter == InitialFilter(initial, processNoise, measurementNoise)
      ensures CorrectedPosition() == Point2f(initial.x as real, initial.y as real)
      ensures CorrectedVelocity() == Point2f(0.0, 0.0) && CorrectedAcceleration() == Point2f(0.0, 0.0)
    {
      filter := LibraryInit(NUM_POS_STATES, NUM_MEASUREMENTS);
      filter := filter.(transitionMatrix := DynamicModel(DT));
      filter := filter.(measurementMatrix := MeasurementModel());

      var q := ScaledIdentity(NUM_POS_STATES, processNoise);
      q := q[STATE_X_ACCEL := q[STATE_X_ACCEL][STATE_X_ACCEL := q[STATE_X_ACCEL][STATE_X_ACCEL] * ACCEL_NOISE_FACTOR]];
      q := q[STATE_Y_ACCEL := q[STATE_Y_ACCEL][STATE_Y_ACCEL := q[STATE_Y_ACCEL][STATE_Y_ACCEL] * ACCEL_NOISE_FACTOR]];
      assert q == ProcessNoise(processNoise) by {
        var expected := ProcessNoise(processNoise);
        forall i | 0 <= i < NUM_POS_STATES
          ensures q[i] == expected[i]
        {
          assert |q[i]| == |expected[i]|;
          forall j | 0 <= j < NUM_POS_STATES
            ensures q[i][j] == expected[i][j]
          {
          }
        }
      }
      filter := filter.(processNoiseCov := q);

      filter := filter.(measurementNoiseCov := ScaledIdentity(NUM_MEASUREMENTS, measurementNoise));
      filter := filter.(errorCovPost := ScaledIdentity(NUM_POS_STATES, INITIAL_ERROR_COV));

      var s := filter.statePost;
      s := s[STATE_X := initial.x as real];
      s := s[STATE_Y := initial.y as real];
      s := s[STATE_X_VEL := 0.0];
      s := s[STATE_Y_VEL := 0.0];
      s := s[STATE_X_ACCEL := 0.0];
      s := s[STATE_Y_ACCEL := 0.0];
      filter := filter.(statePost := s);

      initialized := true;
    }

    /**
     * `predict()`: runs the library's prediction and returns the predicted
     * position, truncated to whole pixels: the constant-acceleration
     * extrapolation of the corrected state.
     */
    method Predict() returns (p: Point)
      requires Valid() && initialized
      modifies this`filter
      ensures Valid()
      ensures filter == predictStep(old(filter))
      ensures p == TruncPoint(PredictedPosition())
      ensures p == TruncPoint(PositionOf(MatVec(DynamicModel(DT), old(filter.statePost))))
    {
      filter := predictStep(filter);
      var predicted := filter.statePre;
      p := Point(Trunc(predicted[STATE_X]), Trunc(predicted[STATE_Y]));
    }

    /**
     * `correct(observed)`: feeds the observed position to the library's
     * correction and returns the corrected position, truncated to whole
     * pixels. An observation exactly at the predicted position keeps it.
     */
    method Correct(observed: Point) returns (p: Point)
      requires Valid() && initialized
      modifies this`filter
      ensures Valid()
      ensures filter == correctStep(old(filter), [observed.x as real, observed.y as real])
      ensures p == TruncPoint(CorrectedPosition())
      ensures filter.statePost == CorrectedEstimate(old(filter.statePre), filter.gain, MeasurementModel(),
                                                    [observed.x as real, observed.y as real])
      ensures PositionOf(old(filter.statePre)) == Point2f(observed.x as real, observed.y as real) ==>
        filter.statePost == old(filter.statePre)
    {
      var measured := ZeroVector(NUM_MEASUREMENTS);
      measured := measured[0 := observed.x as real];
      measured := measured[1 := observed.y as real];
      assert measured == [observed.x as real, observed.y as real];
      ghost var pre := filter.statePre;
      filter := correctStep(filter, measured);
      if PositionOf(pre) == Point2f(observed.x as real, observed.y as real) {
        ObservationAtPredictionKeepsIt(pre, filter.gain);
      }
      var corrected := filter.statePost;
      p := Point(Trunc(corrected[STATE_X]), Trunc(corrected[STATE_Y]));
    }

    /**
     * `propagate()`: with no measurement, the prediction becomes the
     * corrected state.
     */
    method Propagate()
      requires Valid()
      modifies this`filter
      ensures Valid()
      ensures filter == old(filter).(statePost := old(filter.statePre))
      ensures CorrectedState() == old(filter.statePre)
      ensures initialized ==>
        && CorrectedPosition() == PredictedPosition()
        && CorrectedVelocity() == PredictedVelocity()
        && CorrectedAcceleration() == PredictedAcceleration()
    {
      filter := filter.(statePost := filter.statePre);
    }
  }
}
