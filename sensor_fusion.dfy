/** The orientation update run on every sensor event (onSensorChanged): an
    accelerometer event replaces the latest gravity vector, a magnetic-field
    event replaces the latest geomagnetic vector, and once both vectors are
    present the orientation (azimuth, pitch, roll) is recomputed from them,
    unless the rotation-matrix computation reports failure. */
module SensorFusion {

  datatype Option<T> = None | Some(value: T)

  /** The values array of a sensor event. */
  type Reading = seq<real>

  /** The type of the sensor an event comes from. */
  datatype SensorType = Accelerometer | MagneticField | OtherSensor

  datatype SensorEvent = SensorEvent(sensor: SensorType, values: Reading)

  datatype Orientation = Orientation(azimuth: real, pitch: real, roll: real)

  /** The platform's numeric routines, which this model leaves uninterpreted:
      rotationMatrix(gravity, geomagnetic) is SensorManager.getRotationMatrix,
      its success flag and the rotation matrix it fills in; orientationOf(R) is
      SensorManager.getOrientation, the (azimuth, pitch, roll) it fills in. */
  datatype Fusion = Fusion(
    rotationMatrix: (Reading, Reading) -> (bool, seq<real>),
    orientationOf: seq<real> -> Orientation)

  /** The activity's sensor fields: a vector is None until its first event. */
  datatype SensorState = SensorState(
    gravity: Option<Reading>,
    geomagnetic: Option<Reading>,
    orientation: Orientation)

  /** The fields as the activity declares them: no vectors, orientation zero. */
  const InitialState: SensorState := SensorState(None, None, Orientation(0.0, 0.0, 0.0))

  /** True when the latest two vectors exist and the rotation matrix built from
      them can be computed: the condition for an orientation update. */
  predicate CanFuse(f: Fusion, gravity: Option<Reading>, geomagnetic: Option<Reading>) {
    gravity.Some? && geomagnetic.Some? && f.rotationMatrix(gravity.value, geomagnetic.value).0
  }

  /** The effect of one onSensorChanged call on the sensor fields. */
  function Step(f: Fusion, s: SensorState, e: SensorEvent): (t: SensorState)
    ensures s.gravity.Some? ==> t.gravity.Some?
    ensures s.geomagnetic.Some? ==> t.geomagnetic.Some?
    ensures t.orientation != s.orientation ==> CanFuse(f, t.gravity, t.geomagnetic)
  {
    var gravity := if e.sensor == Accelerometer then Some(e.values) else s.gravity;
    var geomagnetic := if e.sensor == MagneticField then Some(e.values) else s.geomagnetic;
    if gravity.Some? && geomagnetic.Some? then
      var (success, r) := f.rotationMatrix(gravity.value, geomagnetic.value);
      SensorState(gravity, geomagnetic, if success then f.orientationOf(r) else s.orientation)
    else
      SensorState(gravity, geomagnetic, s.orientation)
  }

  /** An accelerometer event replaces only the gravity vector and a magnetic
      event only the geomagnetic vector; any other event keeps both. */
  lemma StepReplacesOneVector(f: Fusion, s: SensorState, e: SensorEvent)
    ensures e.sensor == Accelerometer ==>
      Step(f, s, e).gravity == Some(e.values) && Step(f, s, e).geomagnetic == s.geomagnetic
    ensures e.sensor == MagneticField ==>
      Step(f, s, e).geomagnetic == Some(e.values) && Step(f, s, e).gravity == s.gravity
    ensures e.sensor == OtherSensor ==>
      Step(f, s, e).gravity == s.gravity && Step(f, s, e).geomagnetic == s.geomagnetic
  {
  }

  /** The orientation is rewritten exactly when both (updated) vectors are
      present and the rotation matrix succeeds, and then it is the orientation
      of that matrix; otherwise azimuth, pitch and roll all stay as they were. */
  lemma StepOrientationGated(f: Fusion, s: SensorState, e: SensorEvent)
    ensures var t := Step(f, s, e);
      if CanFuse(f, t.gravity, t.geomagnetic)
      then t.orientation == f.orientationOf(f.rotationMatrix(t.gravity.value, t.geomagnetic.value).1)
      else t.orientation == s.orientation
  {
  }

  /** Delivering the same event twice has the effect of delivering it once:
      the vectors are overwritten with the same values and the orientation is
      recomputed from the same pair. */
  lemma StepIdempotent(f: Fusion, s: SensorState, e: SensorEvent)
    ensures Step(f, Step(f, s, e), e) == Step(f, s, e)
  {
  }

  /** An event from any other sensor still reaches the orientation update, but
      after any earlier update it recomputes the same orientation from the same
      pair of vectors, so it changes nothing. */
  lemma OtherSensorAfterStepIsNoOp(f: Fusion, s: SensorState, e: SensorEvent, other: SensorEvent)
    requires other.sensor == OtherSensor
    ensures Step(f, Step(f, s, e), other) == Step(f, s, e)
  {
  }

  /** The state after a sequence of events, delivered in order. */
  function Run(f: Fusion, s: SensorState, events: seq<SensorEvent>): (t: SensorState)
    decreases |events|
  {
    if events == [] then s
    else Step(f, Run(f, s, events[..|events| - 1]), events[|events| - 1])
  }

  /** The values of the last event of the given sensor type, or prior when
      there is none. */
  function LatestReading(events: seq<SensorEvent>, sensor: SensorType, prior: Option<Reading>): (latest: Option<Reading>)
    decreases |events|
  {
    if events == [] then prior
    else if events[|events| - 1].sensor == sensor then Some(events[|events| - 1].values)
    else LatestReading(events[..|events| - 1], sensor, prior)
  }

  /** Last writer wins: after any sequence of events each vector is the one of
      the latest event of its kind, with no buffering or history. */
  lemma {:induction false} RunKeepsLatestVectors(f: Fusion, s: SensorState, events: seq<SensorEvent>)
    ensures Run(f, s, events).gravity == LatestReading(events, Accelerometer, s.gravity)
    ensures Run(f, s, events).geomagnetic == LatestReading(events, MagneticField, s.geomagnetic)
    decreases |events|
  {
    if events != [] {
      RunKeepsLatestVectors(f, s, events[..|events| - 1]);
    }
  }

  /** Once both vectors have been seen they stay present. */
  lemma {:induction false} BothVectorsStayPresent(f: Fusion, s: SensorState, events: seq<SensorEvent>)
    requires s.gravity.Some? && s.geomagnetic.Some?
    ensures Run(f, s, events).gravity.Some? && Run(f, s, events).geomagnetic.Some?
    decreases |events|
  {
    if events != [] {
      BothVectorsStayPresent(f, s, events[..|events| - 1]);
    }
  }

  /** Until both vectors have been seen the orientation keeps its value: from
      the initial fields, azimuth, pitch and roll stay zero for as long as one
      of the two vector kinds has never arrived. */
  lemma {:induction false} NoOrientationBeforeBothVectors(f: Fusion, s: SensorState, events: seq<SensorEvent>)
    requires Run(f, s, events).gravity.None? || Run(f, s, events).geomagnetic.None?
    ensures Run(f, s, events).orientation == s.orientation
    decreases |events|
  {
    if events != [] {
      var before := events[..|events| - 1];
      NoOrientationBeforeBothVectors(f, s, before);
    }
  }

  /** The sensor fields of the activity, updated in place by each sensor callback. */
  class MyActivity {
    const fusion: Fusion
    var gravity: Option<Reading>
    var geomagnetic: Option<Reading>
    var azimuth: real
    var pitch: real
    var roll: real

    /** The fields as one value. */
    function State(): (state: SensorState)
      reads this
    {
      SensorState(gravity, geomagnetic, Orientation(azimuth, pitch, roll))
    }

    constructor (fusion: Fusion)
      ensures this.fusion == fusion && State() == InitialState
    {
      this.fusion := fusion;
      gravity := None;
      geomagnetic := None;
      azimuth, pitch, roll := 0.0, 0.0, 0.0;
    }

    /** onSensorChanged: record the event's vector, then recompute the
        orientation when both vectors are present and fusion succeeds. */
    method OnSensorChanged(event: SensorEvent)
      modifies this
      ensures State() == Step(fusion, old(State()), event)
      ensures gravity == if event.sensor == Accelerometer then Some(event.values) else old(gravity)
      ensures geomagnetic == if event.sensor == MagneticField then Some(event.values) else old(geomagnetic)
      ensures !CanFuse(fusion, gravity, geomagnetic) ==>
        azimuth == old(azimuth) && pitch == old(pitch) && roll == old(roll)
    {
      if event.sensor == Accelerometer {
        gravity := Some(event.values);
      }
      if event.sensor == MagneticField {
        geomagnetic := Some(event.values);
      }
      if gravity.Some? && geomagnetic.Some? {
        var (success, r) := fusion.rotationMatrix(gravity.value, geomagnetic.value);
        if success {
          var orientation := fusion.orientationOf(r);
          azimuth := orientation.azimuth;
          pitch := orientation.pitch;
          roll := orientation.roll;
        }
      }
    }
  }
}
