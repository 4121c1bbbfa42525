# Positional audio cue selection and orientation update

A Dafny model of two pieces of `MyActivity`, the Android activity of the
positional-audio prototype that is meant to tell a user where a tracked
object is by playing one of 144 pre-recorded binaural clips (as written, the
activity always plays one fixed clip; see `currentFile` under "Left out"):

- **Cue selection** (`getSoundFile`): the object's height and horizontal angle
  are bucketed into a height band (`height < 1`, `< 2`, …, `< 7`, else) and an
  angle band (the first of the thresholds −80, −70, …, 80 with `angle <= t`,
  else the top band), which together name one clip
  `R.raw.height{h}angle{c}` with `h` in 0..7 and `c` the band centre −85 … 85
  (a negative centre written `_85`).
- **Orientation update** (`onSensorChanged`): the latest accelerometer and
  magnetic-field vectors are kept, and azimuth, pitch and roll are recomputed
  from them whenever both are present and the platform's rotation-matrix
  routine succeeds.

Files:

- `cue_selection.dfy` (module `CueSelection`): bands, the compact
  first-threshold rule (`HeightScan`, `AngleScan`, `SelectCue`), closed-form
  reference definitions (clamped floor and ceiling), the resource identifiers
  and their rendering as `R.raw` names, and the lemmas about them.
- `sound_file_ladder.dfy` (module `SoundFileLadder`): `GetSoundFile`, the
  144-leaf ladder leaf for leaf, proved equal to the compact rule, and the
  properties of the selection stated on the ladder itself.
- `sensor_fusion.dfy` (module `SensorFusion`): `Step`, the effect of one
  sensor event on the activity's sensor fields; `Run` over event sequences;
  lemmas; and the class `MyActivity` with those fields, whose
  `OnSensorChanged` updates them in place and is proved to follow `Step`.

Modelling decisions:

- `height` and `angle` are Java `double`s compared only against integer
  constants; they are `real` here. `getSoundFile` reads the two fields and
  writes none, so it is a function of those two values.
- A resource `R.raw.height{h}angle{c}` is the value `Resource(h, c)`;
  `ResourceName` renders it as the identifier string and is proved injective
  on the 144 existing resources.
- `SensorManager.getRotationMatrix` and `SensorManager.getOrientation` are
  platform numerics with no source here. They are the two function-valued
  fields of a `Fusion` value, fixed when the activity is built, so nothing is
  assumed about them beyond being deterministic.
- A `float[]` field that is `null` until its first event is `Option<Reading>`.
- The model follows the code: the orientation fields start at 0 rather than being "absent" until
  both vectors arrive; heights below 0 and angles outside [−90, 90] are not
  excluded but fall into the open-ended bottom and top bands; and the
  selection is a ladder of comparisons, not a table lookup.

## Model

| member | source | states |
|---|---|---|
| `CueSelection.HeightScan` | PositionalAudioCVTesting/app/src/main/java/com/eyehelper/positionalaudiocvtesting/MyActivity.java:227-501 | the outer ladder entered at test k (all earlier tests `height < j+1` failed) selects a band at least k that contains the height |
| `CueSelection.AngleScan` | PositionalAudioCVTesting/app/src/main/java/com/eyehelper/positionalaudiocvtesting/MyActivity.java:228-264 | the inner ladder entered at test k (angle above all earlier thresholds) selects a band at least k that contains the angle |
| `CueSelection.HeightBandOf` | PositionalAudioCVTesting/app/src/main/java/com/eyehelper/positionalaudiocvtesting/MyActivity.java:227-501 | the band the outer ladder selects contains the height: [b, b+1), band 0 open below, band 7 open above |
| `CueSelection.AngleBandOf` | PositionalAudioCVTesting/app/src/main/java/com/eyehelper/positionalaudiocvtesting/MyActivity.java:228-264 | the band the inner ladder selects contains the angle: (t(b−1), t(b)], band 0 open below, band 17 open above |
| `CueSelection.SelectCue` | PositionalAudioCVTesting/app/src/main/java/com/eyehelper/positionalaudiocvtesting/MyActivity.java:222-543 | the selected cue's height band contains the height and its angle band contains the angle |
| `CueSelection.HeightBandExact` | PositionalAudioCVTesting/app/src/main/java/com/eyehelper/positionalaudiocvtesting/MyActivity.java:227-501 | a height lies in band b if and only if the ladder selects b, so the bands do not overlap |
| `CueSelection.AngleBandExact` | PositionalAudioCVTesting/app/src/main/java/com/eyehelper/positionalaudiocvtesting/MyActivity.java:228-264 | an angle lies in band b if and only if the ladder selects b, so the bands do not overlap |
| `CueSelection.HeightBandIsClampedFloor` | PositionalAudioCVTesting/app/src/main/java/com/eyehelper/positionalaudiocvtesting/MyActivity.java:227-501 | the height band equals floor(height) clamped to 0..7 |
| `CueSelection.AngleBandIsClampedCeiling` | PositionalAudioCVTesting/app/src/main/java/com/eyehelper/positionalaudiocvtesting/MyActivity.java:228-264 | the angle band equals ceiling((angle + 80) / 10) clamped to 0..17 |
| `CueSelection.HeightBandMonotone` | PositionalAudioCVTesting/app/src/main/java/com/eyehelper/positionalaudiocvtesting/MyActivity.java:227-501 | a greater height never selects a lower height band |
| `CueSelection.AngleBandMonotone` | PositionalAudioCVTesting/app/src/main/java/com/eyehelper/positionalaudiocvtesting/MyActivity.java:228-264 | a greater angle never selects a lower angle band |
| `CueSelection.AngleBandNoSkip` | PositionalAudioCVTesting/app/src/main/java/com/eyehelper/positionalaudiocvtesting/MyActivity.java:228-264 | between two angles every intermediate band is selected by some intermediate angle |
| `CueSelection.AngleCentreSelectsItsBand` | PositionalAudioCVTesting/app/src/main/java/com/eyehelper/positionalaudiocvtesting/MyActivity.java:225-264 | each band's named centre lies in [−90, 90] and selects that band, the centres ascending with the band |
| `CueSelection.CueResource` | PositionalAudioCVTesting/app/src/main/java/com/eyehelper/positionalaudiocvtesting/MyActivity.java:229-537 | every cue plays one of the existing resources: height 0..7, angle centre −85..85 in steps of 10 |
| `CueSelection.CueResourceBijective` | PositionalAudioCVTesting/app/src/main/java/com/eyehelper/positionalaudiocvtesting/MyActivity.java:229-537 | a resource exists if and only if some cue plays it, and distinct cues play distinct resources |
| `CueSelection.ResourceName` | PositionalAudioCVTesting/app/src/main/java/com/eyehelper/positionalaudiocvtesting/MyActivity.java:229-537 | renders a resource as its R.raw identifier: "height", the height digit, "angle", then the angle text, from which the height and the angle read back |
| `CueSelection.ResourceNameParts` | PositionalAudioCVTesting/app/src/main/java/com/eyehelper/positionalaudiocvtesting/MyActivity.java:229-537 | an identifier is "height{h}angle" followed by the angle text, the prefix fixed by the height alone |
| `CueSelection.ResourceNameInjective` | PositionalAudioCVTesting/app/src/main/java/com/eyehelper/positionalaudiocvtesting/MyActivity.java:229-537 | two existing resources with the same identifier are the same resource, so the 144 identifiers are distinct |
| `SoundFileLadder.GetSoundFile` | PositionalAudioCVTesting/app/src/main/java/com/eyehelper/positionalaudiocvtesting/MyActivity.java:222-543 | the 144-leaf ladder copied leaf for leaf; every leaf is a resource of height 0..7 whose angle is one of the 18 centres −85, −75, …, 85 |
| `SoundFileLadder.LadderBranch0` | PositionalAudioCVTesting/app/src/main/java/com/eyehelper/positionalaudiocvtesting/MyActivity.java:227-264 | in the branch taken under `height < 1` (height band 0), every leaf of the inner angle ladder is the resource of height 0 whose angle is the centre of the angle's first-threshold band |
| `SoundFileLadder.LadderBranch1` | PositionalAudioCVTesting/app/src/main/java/com/eyehelper/positionalaudiocvtesting/MyActivity.java:266-303 | in the branch taken under `height < 2` (height band 1), every leaf of the inner angle ladder is the resource of height 1 whose angle is the centre of the angle's first-threshold band |
| `SoundFileLadder.LadderBranch2` | PositionalAudioCVTesting/app/src/main/java/com/eyehelper/positionalaudiocvtesting/MyActivity.java:305-342 | in the branch taken under `height < 3` (height band 2), every leaf of the inner angle ladder is the resource of height 2 whose angle is the centre of the angle's first-threshold band |
| `SoundFileLadder.LadderBranch3` | PositionalAudioCVTesting/app/src/main/java/com/eyehelper/positionalaudiocvtesting/MyActivity.java:344-381 | in the branch taken under `height < 4` (height band 3), every leaf of the inner angle ladder is the resource of height 3 whose angle is the centre of the angle's first-threshold band |
| `SoundFileLadder.LadderBranch4` | PositionalAudioCVTesting/app/src/main/java/com/eyehelper/positionalaudiocvtesting/MyActivity.java:383-420 | in the branch taken under `height < 5` (height band 4), every leaf of the inner angle ladder is the resource of height 4 whose angle is the centre of the angle's first-threshold band |
| `SoundFileLadder.LadderBranch5` | PositionalAudioCVTesting/app/src/main/java/com/eyehelper/positionalaudiocvtesting/MyActivity.java:423-460 | in the branch taken under `height < 6` (height band 5), every leaf of the inner angle ladder is the resource of height 5 whose angle is the centre of the angle's first-threshold band |
| `SoundFileLadder.LadderBranch6` | PositionalAudioCVTesting/app/src/main/java/com/eyehelper/positionalaudiocvtesting/MyActivity.java:462-499 | in the branch taken under `height < 7` (height band 6), every leaf of the inner angle ladder is the resource of height 6 whose angle is the centre of the angle's first-threshold band |
| `SoundFileLadder.LadderBranch7` | PositionalAudioCVTesting/app/src/main/java/com/eyehelper/positionalaudiocvtesting/MyActivity.java:501-538 | in the branch taken under the final `else` (height band 7), every leaf of the inner angle ladder is the resource of height 7 whose angle is the centre of the angle's first-threshold band |
| `SoundFileLadder.GetSoundFileIsFirstThresholdRule` | PositionalAudioCVTesting/app/src/main/java/com/eyehelper/positionalaudiocvtesting/MyActivity.java:222-543 | the literal 144-leaf ladder and the compact first-threshold rule select the same resource for every height and angle |
| `SoundFileLadder.GetSoundFileTotal` | PositionalAudioCVTesting/app/src/main/java/com/eyehelper/positionalaudiocvtesting/MyActivity.java:222-542 | every height and angle selects one of the 8 × 18 resources, whose height band contains the height and whose angle band contains the angle |
| `SoundFileLadder.GetSoundFileSeparates` | PositionalAudioCVTesting/app/src/main/java/com/eyehelper/positionalaudiocvtesting/MyActivity.java:228-538 | the eight inner ladders agree: the angle part depends on the angle only, the height part on the height only |
| `SoundFileLadder.GetSoundFileMonotone` | PositionalAudioCVTesting/app/src/main/java/com/eyehelper/positionalaudiocvtesting/MyActivity.java:227-539 | raising the angle never lowers the selected angle, raising the height never lowers the selected height |
| `SoundFileLadder.GetSoundFileSweep` | PositionalAudioCVTesting/app/src/main/java/com/eyehelper/positionalaudiocvtesting/MyActivity.java:228-264 | an upward angle sweep at a fixed height meets every centre between the first and the last resource chosen |
| `SoundFileLadder.GetSoundFileSweepEnds` | PositionalAudioCVTesting/app/src/main/java/com/eyehelper/positionalaudiocvtesting/MyActivity.java:228-264 | at every height an angle of −90 selects angle_85 and an angle of 90 selects angle85 |
| `SoundFileLadder.AngleFiveCoversZeroToTen` | PositionalAudioCVTesting/app/src/main/java/com/eyehelper/positionalaudiocvtesting/MyActivity.java:225-247 | every angle in (0, 10] selects angle5, while angle 0 selects angle_5 |
| `SoundFileLadder.BoundaryCases` | PositionalAudioCVTesting/app/src/main/java/com/eyehelper/positionalaudiocvtesting/MyActivity.java:227-264 | heights −3, 0.999, 1, 6.999, 7, 1e9 and angles −80, −79.999, 80, 80.001, 0, 10 select the resources the ladder's boundaries dictate |
| `SoundFileLadder.ResourceNamesAsWritten` | PositionalAudioCVTesting/app/src/main/java/com/eyehelper/positionalaudiocvtesting/MyActivity.java:229-537 | selected resources render as the identifiers written in the ladder, e.g. height0angle_85 and height0angle5 |
| `SensorFusion.Step` | PositionalAudioCVTesting/app/src/main/java/com/eyehelper/positionalaudiocvtesting/MyActivity.java:572-589 | one sensor event on the fields: a present vector stays present, and the orientation changes only when both vectors are present and the rotation matrix succeeds |
| `SensorFusion.StepReplacesOneVector` | PositionalAudioCVTesting/app/src/main/java/com/eyehelper/positionalaudiocvtesting/MyActivity.java:573-576 | an accelerometer event replaces only gravity, a magnetic event only geomagnetic, any other event neither |
| `SensorFusion.StepOrientationGated` | PositionalAudioCVTesting/app/src/main/java/com/eyehelper/positionalaudiocvtesting/MyActivity.java:577-587 | the orientation becomes that of the rotation matrix when both vectors are present and the matrix succeeds, and is otherwise unchanged |
| `SensorFusion.StepIdempotent` | PositionalAudioCVTesting/app/src/main/java/com/eyehelper/positionalaudiocvtesting/MyActivity.java:572-589 | delivering the same event twice has the effect of delivering it once |
| `SensorFusion.OtherSensorAfterStepIsNoOp` | PositionalAudioCVTesting/app/src/main/java/com/eyehelper/positionalaudiocvtesting/MyActivity.java:572-589 | an event from another sensor after any update changes nothing |
| `SensorFusion.RunKeepsLatestVectors` | PositionalAudioCVTesting/app/src/main/java/com/eyehelper/positionalaudiocvtesting/MyActivity.java:573-576 | after any event sequence each vector is the values of the latest event of its kind, or its earlier value if none |
| `SensorFusion.BothVectorsStayPresent` | PositionalAudioCVTesting/app/src/main/java/com/eyehelper/positionalaudiocvtesting/MyActivity.java:573-577 | once both vectors are present they stay present |
| `SensorFusion.NoOrientationBeforeBothVectors` | PositionalAudioCVTesting/app/src/main/java/com/eyehelper/positionalaudiocvtesting/MyActivity.java:577-587 | while one vector kind has never arrived, azimuth, pitch and roll keep their earlier values |
| `SensorFusion.MyActivity.constructor` | PositionalAudioCVTesting/app/src/main/java/com/eyehelper/positionalaudiocvtesting/MyActivity.java:62-66 | the activity starts with no vectors and azimuth, pitch and roll zero |
| `SensorFusion.MyActivity.OnSensorChanged` | PositionalAudioCVTesting/app/src/main/java/com/eyehelper/positionalaudiocvtesting/MyActivity.java:572-589 | the fields after the callback are `Step` of the fields before; the event's vector replaces its own kind only; without a successful fusion azimuth, pitch and roll are unchanged |

## Left out

- `playSound` and the sound thread (`startSoundThread`): a concurrent loop
  driving the platform's `MediaPlayer`, with a release that can run twice;
  a foreign resource API, not sequential logic.
- `currentFile`: it starts as `R.raw.height0angle_85` (`Resource(0, -85)`),
  is never reassigned, and `getSoundFile` is never called; the model has no
  link from selection to playback because the code has none.
- Position estimation: `distance`, `angle` and `height` are never written in
  this file and keep their initial values 100, 0 and 0; `objectTracker` is
  never assigned, so the tracker never runs. Position estimation belongs to
  `ObjectTracker`, which is not part of this model; the camera constants are
  unused in this file.
- Internals of `SensorManager.getRotationMatrix` and `getOrientation`
  (uninterpreted, see above), including the inclination matrix `I` that the
  code computes and discards.
- OpenCV camera callbacks, `updateText`, tap and key handling, the loader
  callback, `onAccuracyChanged` (empty) and the lifecycle methods
  `onCreate`, `onPause`, `onResume` (sensor registration): host plumbing.
- Floating point: NaN and rounding of `double`/`float` values are not
  modelled; heights and angles are mathematical reals.
- `SensorFusion.MyActivity.OnSensorChanged`: the Java code stores the event's
  `values` array by reference, so a later in-place change to that array by
  the platform would show through; the model stores the values.
