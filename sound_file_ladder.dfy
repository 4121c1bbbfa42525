/** getSoundFile exactly as written: an outer if / else-if ladder on the height
    and, in each of its eight branches, the same inner if / else-if ladder on the
    angle; each of the 144 leaves names one audio resource. The method reads the
    activity's two fields height and angle and changes nothing, so it is a
    function of those two values here. */
module SoundFileLadder {
  import opened CueSelection

  /** The angles that appear in resource names: -85, -75, ..., 85. */
  const AngleCentres: set<int> :=
    {-85, -75, -65, -55, -45, -35, -25, -15, -5, 5, 15, 25, 35, 45, 55, 65, 75, 85}

  /** The 144-leaf decision ladder, leaf for leaf; Resource(h, c) stands for
      R.raw.height{h}angle{c}. */
  function GetSoundFile(height: real, angle: real): (r: Resource)
    ensures 0 <= r.height < 8 && r.angle in AngleCentres
  {
    if height < 1.0 then (
      if angle <= -80.0 then Resource(0, -85)
      else if angle <= -70.0 then Resource(0, -75)
      else if angle <= -60.0 then Resource(0, -65)
      else if angle <= -50.0 then Resource(0, -55)
      else if angle <= -40.0 then Resource(0, -45)
      else if angle <= -30.0 then Resource(0, -35)
      else if angle <= -20.0 then Resource(0, -25)
      else if angle <= -10.0 then Resource(0, -15)
      else if angle <= 0.0 then Resource(0, -5)
      else if angle <= 10.0 then Resource(0, 5)
      else if angle <= 20.0 then Resource(0, 15)
      else if angle <= 30.0 then Resource(0, 25)
      else if angle <= 40.0 then Resource(0, 35)
      else if angle <= 50.0 then Resource(0, 45)
      else if angle <= 60.0 then Resource(0, 55)
      else if angle <= 70.0 then Resource(0, 65)
      else if angle <= 80.0 then Resource(0, 75)
      else Resource(0, 85)
    ) else if height < 2.0 then (
      if angle <= -80.0 then Resource(1, -85)
      else if angle <= -70.0 then Resource(1, -75)
      else if angle <= -60.0 then Resource(1, -65)
      else if angle <= -50.0 then Resource(1, -55)
      else if angle <= -40.0 then Resource(1, -45)
      else if angle <= -30.0 then Resource(1, -35)
      else if angle <= -20.0 then Resource(1, -25)
      else if angle <= -10.0 then Resource(1, -15)
      else if angle <= 0.0 then Resource(1, -5)
      else if angle <= 10.0 then Resource(1, 5)
      else if angle <= 20.0 then Resource(1, 15)
      else if angle <= 30.0 then Resource(1, 25)
      else if angle <= 40.0 then Resource(1, 35)
      else if angle <= 50.0 then Resource(1, 45)
      else if angle <= 60.0 then Resource(1, 55)
      else if angle <= 70.0 then Resource(1, 65)
      else if angle <= 80.0 then Resource(1, 75)
      else Resource(1, 85)
    ) else if height < 3.0 then (
      if angle <= -80.0 then Resource(2, -85)
      else if angle <= -70.0 then Resource(2, -75)
      else if angle <= -60.0 then Resource(2, -65)
      else if angle <= -50.0 then Resource(2, -55)
      else if angle <= -40.0 then Resource(2, -45)
      else if angle <= -30.0 then Resource(2, -35)
      else if angle <= -20.0 then Resource(2, -25)
      else if angle <= -10.0 then Resource(2, -15)
      else if angle <= 0.0 then Resource(2, -5)
      else if angle <= 10.0 then Resource(2, 5)
      else if angle <= 20.0 then Resource(2, 15)
      else if angle <= 30.0 then Resource(2, 25)
      else if angle <= 40.0 then Resource(2, 35)
      else if angle <= 50.0 then Resource(2, 45)
      else if angle <= 60.0 then Resource(2, 55)
      else if angle <= 70.0 then Resource(2, 65)
      else if angle <= 80.0 then Resource(2, 75)
      else Resource(2, 85)
    ) else if height < 4.0 then (
      if angle <= -80.0 then Resource(3, -85)
      else if angle <= -70.0 then Resource(3, -75)
      else if angle <= -60.0 then Resource(3, -65)
      else if angle <= -50.0 then Resource(3, -55)
      else if angle <= -40.0 then Resource(3, -45)
      else if angle <= -30.0 then Resource(3, -35)
      else if angle <= -20.0 then Resource(3, -25)
      else if angle <= -10.0 then Resource(3, -15)
      else if angle <= 0.0 then Resource(3, -5)
      else if angle <= 10.0 then Resource(3, 5)
      else if angle <= 20.0 then Resource(3, 15)
      else if angle <= 30.0 then Resource(3, 25)
      else if angle <= 40.0 then Resource(3, 35)
      else if angle <= 50.0 then Resource(3, 45)
      else if angle <= 60.0 then Resource(3, 55)
      else if angle <= 70.0 then Resource(3, 65)
      else if angle <= 80.0 then Resource(3, 75)
      else Resource(3, 85)
    ) else if height < 5.0 then (
      if angle <= -80.0 then Resource(4, -85)
      else if angle <= -70.0 then Resource(4, -75)
      else if angle <= -60.0 then Resource(4, -65)
      else if angle <= -50.0 then Resource(4, -55)
      else if angle <= -40.0 then Resource(4, -45)
      else if angle <= -30.0 then Resource(4, -35)
      else if angle <= -20.0 then Resource(4, -25)
      else if angle <= -10.0 then Resource(4, -15)
      else if angle <= 0.0 then Resource(4, -5)
      else if angle <= 10.0 then Resource(4, 5)
      else if angle <= 20.0 then Resource(4, 15)
      else if angle <= 30.0 then Resource(4, 25)
      else if angle <= 40.0 then Resource(4, 35)
      else if angle <= 50.0 then Resource(4, 45)
      else if angle <= 60.0 then Resource(4, 55)
      else if angle <= 70.0 then Resource(4, 65)
      else if angle <= 80.0 then Resource(4, 75)
      else Resource(4, 85)
    ) else if height < 6.0 then (
      if angle <= -80.0 then Resource(5, -85)
      else if angle <= -70.0 then Resource(5, -75)
      else if angle <= -60.0 then Resource(5, -65)
      else if angle <= -50.0 then Resource(5, -55)
      else if angle <= -40.0 then Resource(5, -45)
      else if angle <= -30.0 then Resource(5, -35)
      else if angle <= -20.0 then Resource(5, -25)
      else if angle <= -10.0 then Resource(5, -15)
      else if angle <= 0.0 then Resource(5, -5)
      else if angle <= 10.0 then Resource(5, 5)
      else if angle <= 20.0 then Resource(5, 15)
      else if angle <= 30.0 then Resource(5, 25)
      else if angle <= 40.0 then Resource(5, 35)
      else if angle <= 50.0 then Resource(5, 45)
      else if angle <= 60.0 then Resource(5, 55)
      else if angle <= 70.0 then Resource(5, 65)
      else if angle <= 80.0 then Resource(5, 75)
      else Resource(5, 85)
    ) else if height < 7.0 then (
      if angle <= -80.0 then Resource(6, -85)
      else if angle <= -70.0 then Resource(6, -75)
      else if angle <= -60.0 then Resource(6, -65)
      else if angle <= -50.0 then Resource(6, -55)
      else if angle <= -40.0 then Resource(6, -45)
      else if angle <= -30.0 then Resource(6, -35)
      else if angle <= -20.0 then Resource(6, -25)
      else if angle <= -10.0 then Resource(6, -15)
      else if angle <= 0.0 then Resource(6, -5)
      else if angle <= 10.0 then Resource(6, 5)
      else if angle <= 20.0 then Resource(6, 15)
      else if angle <= 30.0 then Resource(6, 25)
      else if angle <= 40.0 then Resource(6, 35)
      else if angle <= 50.0 then Resource(6, 45)
      else if angle <= 60.0 then Resource(6, 55)
      else if angle <= 70.0 then Resource(6, 65)
      else if angle <= 80.0 then Resource(6, 75)
      else Resource(6, 85)
    ) else (
      if angle <= -80.0 then Resource(7, -85)
      else if angle <= -70.0 then Resource(7, -75)
      else if angle <= -60.0 then Resource(7, -65)
      else if angle <= -50.0 then Resource(7, -55)
      else if angle <= -40.0 then Resource(7, -45)
      else if angle <= -30.0 then Resource(7, -35)
      else if angle <= -20.0 then Resource(7, -25)
      else if angle <= -10.0 then Resource(7, -15)
      else if angle <= 0.0 then Resource(7, -5)
      else if angle <= 10.0 then Resource(7, 5)
      else if angle <= 20.0 then Resource(7, 15)
      else if angle <= 30.0 then Resource(7, 25)
      else if angle <= 40.0 then Resource(7, 35)
      else if angle <= 50.0 then Resource(7, 45)
      else if angle <= 60.0 then Resource(7, 55)
      else if angle <= 70.0 then Resource(7, 65)
      else if angle <= 80.0 then Resource(7, 75)
      else Resource(7, 85)
    )
  }

  /** The outer branch for height band 0 (`height < 1`) follows the
      first-threshold rule on the angle; LadderBranch1 .. LadderBranch7 say
      the same of the other seven branches. */
  lemma LadderBranch0(height: real, angle: real)
    requires InHeightBand(height, 0)
    ensures GetSoundFile(height, angle) == Resource(0, AngleCentre(AngleBandOf(angle)))
  {
  }

  lemma LadderBranch1(height: real, angle: real)
    requires InHeightBand(height, 1)
    ensures GetSoundFile(height, angle) == Resource(1, AngleCentre(AngleBandOf(angle)))
  {
  }

  lemma LadderBranch2(height: real, angle: real)
    requires InHeightBand(height, 2)
    ensures GetSoundFile(height, angle) == Resource(2, AngleCentre(AngleBandOf(angle)))
  {
  }

  lemma LadderBranch3(height: real, angle: real)
    requires InHeightBand(height, 3)
    ensures GetSoundFile(height, angle) == Resource(3, AngleCentre(AngleBandOf(angle)))
  {
  }

  lemma LadderBranch4(height: real, angle: real)
    requires InHeightBand(height, 4)
    ensures GetSoundFile(height, angle) == Resource(4, AngleCentre(AngleBandOf(angle)))
  {
  }

  lemma LadderBranch5(height: real, angle: real)
    requires InHeightBand(height, 5)
    ensures GetSoundFile(height, angle) == Resource(5, AngleCentre(AngleBandOf(angle)))
  {
  }

  lemma LadderBranch6(height: real, angle: real)
    requires InHeightBand(height, 6)
    ensures GetSoundFile(height, angle) == Resource(6, AngleCentre(AngleBandOf(angle)))
  {
  }

  lemma LadderBranch7(height: real, angle: real)
    requires InHeightBand(height, 7)
    ensures GetSoundFile(height, angle) == Resource(7, AngleCentre(AngleBandOf(angle)))
  {
  }

  /** The literal ladder and the compact first-threshold rule pick the same
      resource for every height and angle. */
  lemma GetSoundFileIsFirstThresholdRule(height: real, angle: real)
    ensures GetSoundFile(height, angle) == CueResource(SelectCue(height, angle))
  {
    match HeightBandOf(height)
    case 0 => LadderBranch0(height, angle);
    case 1 => LadderBranch1(height, angle);
    case 2 => LadderBranch2(height, angle);
    case 3 => LadderBranch3(height, angle);
    case 4 => LadderBranch4(height, angle);
    case 5 => LadderBranch5(height, angle);
    case 6 => LadderBranch6(height, angle);
    case 7 => LadderBranch7(height, angle);
  }

  /** The ladder is total: every height and angle, negative or far out of range,
      selects one of the 8 x 18 existing resources, and that resource is the one
      whose height is the height band and whose angle is the angle band's centre. */
  lemma GetSoundFileTotal(height: real, angle: real)
    ensures IsCueResource(GetSoundFile(height, angle))
    ensures InHeightBand(height, GetSoundFile(height, angle).height)
    ensures InAngleBand(angle, (GetSoundFile(height, angle).angle + 85) / 10)
  {
    GetSoundFileIsFirstThresholdRule(height, angle);
    var c := SelectCue(height, angle);
    assert (AngleCentre(c.aBand) + 85) / 10 == c.aBand;
  }

  /** All eight inner ladders are the same: the angle part of the chosen resource
      depends on the angle only, and the height part on the height only. */
  lemma GetSoundFileSeparates(h1: real, h2: real, a1: real, a2: real)
    ensures GetSoundFile(h1, a1).angle == GetSoundFile(h2, a1).angle
    ensures GetSoundFile(h1, a1).height == GetSoundFile(h1, a2).height
  {
    GetSoundFileIsFirstThresholdRule(h1, a1);
    GetSoundFileIsFirstThresholdRule(h2, a1);
    GetSoundFileIsFirstThresholdRule(h1, a2);
  }

  /** Raising the angle at a fixed height never lowers the chosen angle, and
      raising the height at a fixed angle never lowers the chosen height. */
  lemma GetSoundFileMonotone(h1: real, h2: real, a1: real, a2: real)
    requires h1 <= h2 && a1 <= a2
    ensures GetSoundFile(h1, a1).angle <= GetSoundFile(h1, a2).angle
    ensures GetSoundFile(h1, a1).height <= GetSoundFile(h2, a1).height
  {
    GetSoundFileIsFirstThresholdRule(h1, a1);
    GetSoundFileIsFirstThresholdRule(h1, a2);
    GetSoundFileIsFirstThresholdRule(h2, a1);
    AngleBandMonotone(a1, a2);
    HeightBandMonotone(h1, h2);
  }

  /** Sweeping the angle upward at any height meets every angle resource
      between the first and the last one chosen, without skipping one. */
  lemma GetSoundFileSweep(height: real, a1: real, a2: real, c: int)
    requires a1 <= a2
    requires GetSoundFile(height, a1).angle <= c <= GetSoundFile(height, a2).angle
    requires (c + 85) % 10 == 0
    ensures exists a: real :: a1 <= a <= a2 && GetSoundFile(height, a).angle == c
  {
    GetSoundFileIsFirstThresholdRule(height, a1);
    GetSoundFileIsFirstThresholdRule(height, a2);
    var a := AngleCentreNoSkip(a1, a2, c);
    GetSoundFileIsFirstThresholdRule(height, a);
  }

  /** At any height the sweep from -90 to 90 starts at angle_85 and ends at
      angle85, so with GetSoundFileSweep it meets all 18 angle resources. */
  lemma GetSoundFileSweepEnds(height: real)
    ensures GetSoundFile(height, -90.0).angle == -85 && GetSoundFile(height, 90.0).angle == 85
  {
    GetSoundFileIsFirstThresholdRule(height, -90.0);
    GetSoundFileIsFirstThresholdRule(height, 90.0);
    AngleBandExact(-90.0, 0);
    AngleBandExact(90.0, 17);
  }

  /** Each angle threshold belongs to the band below it: the comment "angles
      1-10 -> angle5" means every angle in (0, 10], while 0 itself is angle_5. */
  lemma AngleFiveCoversZeroToTen(height: real, angle: real)
    requires 0.0 < angle <= 10.0
    ensures GetSoundFile(height, angle).angle == 5
    ensures GetSoundFile(height, 0.0).angle == -5
  {
    GetSoundFileIsFirstThresholdRule(height, angle);
    GetSoundFileIsFirstThresholdRule(height, 0.0);
    AngleBandExact(angle, 9);
    AngleBandExact(0.0, 8);
  }

  /** The boundary cases at the edges of the bands. */
  lemma BoundaryCases()
    ensures GetSoundFile(-3.0, 0.0) == Resource(0, -5)
    ensures GetSoundFile(0.999, 0.0) == Resource(0, -5) && GetSoundFile(1.0, 0.0) == Resource(1, -5)
    ensures GetSoundFile(6.999, 0.0) == Resource(6, -5) && GetSoundFile(7.0, 0.0) == Resource(7, -5)
    ensures GetSoundFile(1000000000.0, 0.0) == Resource(7, -5)
    ensures GetSoundFile(0.0, -80.0) == Resource(0, -85) && GetSoundFile(0.0, -79.999) == Resource(0, -75)
    ensures GetSoundFile(0.0, 80.0) == Resource(0, 75) && GetSoundFile(0.0, 80.001) == Resource(0, 85)
    ensures GetSoundFile(0.0, 0.0) != GetSoundFile(0.0, 10.0)
  {
  }

  /** Resource values render as the R.raw identifiers of the leaves. */
  lemma ResourceNamesAsWritten()
    ensures ResourceName(GetSoundFile(0.0, -80.0)) == "height0angle_85"
    ensures ResourceName(GetSoundFile(3.5, -25.0)) == "height3angle_25"
    ensures ResourceName(GetSoundFile(0.0, 0.0)) == "height0angle_5"
    ensures ResourceName(GetSoundFile(0.0, 10.0)) == "height0angle5"
    ensures ResourceName(GetSoundFile(7.0, 81.0)) == "height7angle85"
  {
    ResourceNameExamples();
    assert GetSoundFile(0.0, -80.0) == Resource(0, -85);
    assert GetSoundFile(3.5, -25.0) == Resource(3, -25);
    assert GetSoundFile(0.0, 0.0) == Resource(0, -5);
    assert GetSoundFile(0.0, 10.0) == Resource(0, 5);
    assert GetSoundFile(7.0, 81.0) == Resource(7, 85);
  }
}
