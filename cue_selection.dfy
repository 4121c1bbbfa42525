/** The cue-selection rule: a tracked object's continuous (height, angle)
    is discretised into one of 8 x 18 pre-recorded positional audio cues.

    Height bands are [.., 1), [1, 2), ..., [6, 7), [7, ..): band k is chosen by
    the first test `height < k + 1` that holds, the last band is open-ended.
    Angle bands are (.., -80], (-80, -70], ..., (70, 80], (80, ..): band k is
    chosen by the first test `angle <= 10 * k - 80` that holds, the last band
    is open-ended. Each band is named after its centre (-85, -75, ..., 85). */
module CueSelection {

  /** A height band, 0 .. 7. */
  type HeightBand = b: nat | b < 8

  /** An angle band, 0 .. 17. */
  type AngleBand = b: nat | b < 18

  /** One of the 144 audio cues, identified by its two bands. */
  datatype Cue = Cue(hBand: HeightBand, aBand: AngleBand)

  /** The exclusive upper limit of height band k < 7, tested as `height < k + 1`. */
  function HeightLimit(k: nat): (limit: int)
    requires k < 7
  {
    k + 1
  }

  /** The k-th of the 17 ascending angle thresholds -80, -70, ..., 80, tested as
      `angle <= threshold`; it is the inclusive upper end of angle band k. */
  function AngleThreshold(k: nat): (t: int)
    requires k < 17
  {
    10 * k - 80
  }

  /** Height band b covers [b, b + 1), with band 0 unbounded below and band 7
      unbounded above. */
  predicate InHeightBand(height: real, b: HeightBand) {
    && (b == 0 || b as real <= height)
    && (b == 7 || height < HeightLimit(b) as real)
  }

  /** Angle band b covers (threshold b - 1, threshold b], with band 0 unbounded
      below and band 17 unbounded above. */
  predicate InAngleBand(angle: real, b: AngleBand) {
    && (b == 0 || AngleThreshold(b - 1) as real < angle)
    && (b == 17 || angle <= AngleThreshold(b) as real)
  }

  /** The outer if / else-if ladder, entered at test k: every earlier test
      `height < j + 1` (j < k) has failed. The first test that holds picks its
      band; when all fail, the final `else` picks band 7. */
  function HeightScan(height: real, k: HeightBand): (b: HeightBand)
    requires k == 0 || k as real <= height
    ensures k <= b
    ensures InHeightBand(height, b)
    decreases 7 - k
  {
    if k == 7 then 7
    else if height < HeightLimit(k) as real then k
    else HeightScan(height, k + 1)
  }

  /** The inner if / else-if ladder, entered at test k: every earlier test
      `angle <= threshold j` (j < k) has failed. The first threshold the angle
      does not exceed picks its band; above all of them, the final `else` picks
      band 17. */
  function AngleScan(angle: real, k: AngleBand): (b: AngleBand)
    requires k == 0 || AngleThreshold(k - 1) as real < angle
    ensures k <= b
    ensures InAngleBand(angle, b)
    decreases 17 - k
  {
    if k == 17 then 17
    else if angle <= AngleThreshold(k) as real then k
    else AngleScan(angle, k + 1)
  }

  /** The height band the outer ladder selects. */
  function HeightBandOf(height: real): (b: HeightBand)
    ensures InHeightBand(height, b)
  {
    HeightScan(height, 0)
  }

  /** The angle band the inner ladder selects (the same ladder in every height branch). */
  function AngleBandOf(angle: real): (b: AngleBand)
    ensures InAngleBand(angle, b)
  {
    AngleScan(angle, 0)
  }

  /** The compact first-threshold rule for the whole selection: the height band
      depends on the height only and the angle band on the angle only. */
  function SelectCue(height: real, angle: real): (c: Cue)
    ensures InHeightBand(height, c.hBand) && InAngleBand(angle, c.aBand)
  {
    Cue(HeightBandOf(height), AngleBandOf(angle))
  }

  /** Every height lies in exactly one band, and the ladder picks that one. */
  lemma HeightBandExact(height: real, b: HeightBand)
    ensures InHeightBand(height, b) <==> b == HeightBandOf(height)
  {
  }

  /** Every angle lies in exactly one band, and the ladder picks that one. */
  lemma AngleBandExact(angle: real, b: AngleBand)
    ensures InAngleBand(angle, b) <==> b == AngleBandOf(angle)
  {
  }

  /** Independent reference for the height band: floor of the height clamped
      to [0, 7]. */
  function HeightBandByFloor(height: real): (b: HeightBand) {
    if height < 1.0 then 0
    else if height >= 7.0 then 7
    else height.Floor
  }

  /** Smallest integer not below x. */
  function Ceiling(x: real): (n: int) {
    -((-x).Floor)
  }

  /** Independent reference for the angle band: ceiling of (angle + 80) / 10
      clamped to [0, 17]. */
  function AngleBandByCeiling(angle: real): (b: AngleBand) {
    if angle <= -80.0 then 0
    else if angle > 80.0 then 17
    else Ceiling((angle + 80.0) / 10.0)
  }

  /** The outer ladder computes floor(clamp(height, 0, 7)). */
  lemma HeightBandIsClampedFloor(height: real)
    ensures HeightBandOf(height) == HeightBandByFloor(height)
  {
    HeightBandExact(height, HeightBandByFloor(height));
  }

  /** The inner ladder computes ceiling((angle + 80) / 10) clamped to [0, 17]. */
  lemma AngleBandIsClampedCeiling(angle: real)
    ensures AngleBandOf(angle) == AngleBandByCeiling(angle)
  {
    AngleBandExact(angle, AngleBandByCeiling(angle));
  }

  /** With the angle fixed, a greater height never selects a lower height band. */
  lemma HeightBandMonotone(h1: real, h2: real)
    requires h1 <= h2
    ensures HeightBandOf(h1) <= HeightBandOf(h2)
  {
  }

  /** With the height fixed, a greater angle never selects a lower angle band. */
  lemma AngleBandMonotone(a1: real, a2: real)
    requires a1 <= a2
    ensures AngleBandOf(a1) <= AngleBandOf(a2)
  {
  }

  /** Sweeping the angle upward from a1 to a2 passes through every band between
      the first and the last one: no band is skipped. */
  lemma AngleBandNoSkip(a1: real, a2: real, b: AngleBand)
    requires a1 <= a2
    requires AngleBandOf(a1) <= b <= AngleBandOf(a2)
    ensures exists a: real :: a1 <= a <= a2 && AngleBandOf(a) == b
  {
    if b == AngleBandOf(a1) {
    } else if b == AngleBandOf(a2) {
    } else {
      var t := AngleThreshold(b) as real;
      AngleBandExact(t, b);
      assert a1 <= t <= a2 && AngleBandOf(t) == b;
    }
  }

  /** The degree value a cue's name carries for angle band b: the middle of its
      10-degree range, -85, -75, ..., 85. */
  function AngleCentre(b: AngleBand): (c: int) {
    10 * b - 85
  }

  /** Each band's centre lies in that band, so a sweep of the angle from -90 to
      90 meets every one of the 18 bands, in ascending order of centre. */
  lemma AngleCentreSelectsItsBand(b: AngleBand)
    ensures -90 <= AngleCentre(b) <= 90
    ensures AngleBandOf(AngleCentre(b) as real) == b
    ensures b < 17 ==> AngleCentre(b) < AngleCentre(b + 1)
  {
    AngleBandExact(AngleCentre(b) as real, b);
  }

  /** The centre form of AngleBandNoSkip: every centre between those of the
      first and the last band of an upward sweep is the centre of some angle
      the sweep passes, here returned as a. */
  lemma AngleCentreNoSkip(a1: real, a2: real, c: int) returns (a: real)
    requires a1 <= a2
    requires AngleCentre(AngleBandOf(a1)) <= c <= AngleCentre(AngleBandOf(a2))
    requires (c + 85) % 10 == 0
    ensures a1 <= a <= a2 && AngleCentre(AngleBandOf(a)) == c
  {
    var b := (c + 85) / 10;
    a := if b == AngleBandOf(a1) then a1
      else if b == AngleBandOf(a2) then a2
      else AngleThreshold(b) as real;
    AngleBandExact(a, b);
  }

  // ---- Resource names: R.raw.height{h}angle{c}, a negative centre written as _{|c|}

  function DigitChar(d: nat): (ch: char)
    requires d < 10
  {
    ('0' as int + d) as char
  }

  function DigitValue(ch: char): (d: int) {
    ch as int - '0' as int
  }

  /** Decimal numeral of n < 100, without leading zero. */
  function NumeralText(n: nat): (s: string)
    requires n < 100
  {
    if n < 10 then [DigitChar(n)] else [DigitChar(n / 10), DigitChar(n % 10)]
  }

  function NumeralValue(s: string): (n: int) {
    if |s| == 1 then DigitValue(s[0])
    else if |s| == 2 then 10 * DigitValue(s[0]) + DigitValue(s[1])
    else -1
  }

  /** A centre as written in a resource name: "_85" for -85, "5" for 5. */
  function CentreText(c: int): (s: string)
    requires -100 < c < 100
  {
    if c < 0 then "_" + NumeralText(-c) else NumeralText(c)
  }

  function CentreValue(s: string): (c: int) {
    if |s| > 0 && s[0] == '_' then -NumeralValue(s[1..]) else NumeralValue(s)
  }

  lemma NumeralRoundTrip(n: nat)
    requires n < 100
    ensures 1 <= |NumeralText(n)| <= 2 && NumeralText(n)[0] != '_'
    ensures NumeralValue(NumeralText(n)) == n
  {
  }

  lemma CentreRoundTrip(c: int)
    requires -100 < c < 100
    ensures CentreValue(CentreText(c)) == c
  {
    if c < 0 {
      NumeralRoundTrip(-c);
      assert CentreText(c)[1..] == NumeralText(-c);
    } else {
      NumeralRoundTrip(c);
    }
  }

  /** An audio resource R.raw.height{height}angle{angle}; a negative angle is
      written with a leading '_' (R.raw.height0angle_85 is Resource(0, -85)). */
  datatype Resource = Resource(height: int, angle: int)

  /** The resources that exist: heights 0 .. 7 and angle centres -85, -75, ..., 85. */
  predicate IsCueResource(r: Resource) {
    0 <= r.height < 8 && -85 <= r.angle <= 85 && (r.angle + 85) % 10 == 0
  }

  /** The resource that plays cue c. */
  function CueResource(c: Cue): (r: Resource)
    ensures IsCueResource(r)
  {
    Resource(c.hBand, AngleCentre(c.aBand))
  }

  /** Cues and resources correspond one to one: each existing resource plays
      exactly one cue, and distinct cues play distinct resources. */
  lemma CueResourceBijective(r: Resource)
    ensures IsCueResource(r) <==> exists c: Cue :: CueResource(c) == r
    ensures forall c1: Cue, c2: Cue :: CueResource(c1) == CueResource(c2) ==> c1 == c2
  {
    if IsCueResource(r) {
      var b := (r.angle + 85) / 10;
      assert CueResource(Cue(r.height, b)) == r;
    }
  }

  /** The identifier of a resource as it appears in R.raw, e.g. "height3angle_25":
      "height", the height's digit, "angle", then the angle's text, from which
      the height and the angle are read back. */
  function ResourceName(r: Resource): (name: string)
    requires 0 <= r.height < 10 && -100 < r.angle < 100
    ensures |name| > 12 && name[..6] == "height" && name[7..12] == "angle"
    ensures DigitValue(name[6]) == r.height
    ensures CentreValue(name[12..]) == r.angle
  {
    var name := "height" + NumeralText(r.height) + "angle" + CentreText(r.angle);
    CentreRoundTrip(r.angle);
    assert name[12..] == CentreText(r.angle);
    name
  }

  /** A literal spelled as "height", the height's numeral, "angle" and the
      angle's text is the resource's name. */
  lemma ResourceNameSpelled(r: Resource, s: string)
    requires 0 <= r.height < 10 && -100 < r.angle < 100
    requires s == "height" + NumeralText(r.height) + "angle" + CentreText(r.angle)
    ensures ResourceName(r) == s
  {
  }

  /** Sample identifiers: a negative angle is written with '_', a positive one
      without a sign. */
  lemma ResourceNameExamples()
    ensures ResourceName(Resource(0, -85)) == "height0angle_85"
    ensures ResourceName(Resource(3, -25)) == "height3angle_25"
    ensures ResourceName(Resource(0, -5)) == "height0angle_5"
    ensures ResourceName(Resource(0, 5)) == "height0angle5"
    ensures ResourceName(Resource(7, 85)) == "height7angle85"
  {
    ResourceNameSpelled(Resource(0, -85), "height0angle_85");
    ResourceNameSpelled(Resource(3, -25), "height3angle_25");
    ResourceNameSpelled(Resource(0, -5), "height0angle_5");
    ResourceNameSpelled(Resource(0, 5), "height0angle5");
    ResourceNameSpelled(Resource(7, 85), "height7angle85");
  }

  /** Length of the common prefix "height{h}angle" of every cue resource name. */
  const NamePrefixLength: nat := 12

  /** A resource name splits into a prefix fixed by the height and a suffix
      fixed by the angle. */
  lemma ResourceNameParts(r: Resource)
    requires 0 <= r.height < 10 && -100 < r.angle < 100
    ensures |ResourceName(r)| > NamePrefixLength
    ensures ResourceName(r)[..NamePrefixLength] == "height" + [DigitChar(r.height)] + "angle"
    ensures ResourceName(r)[NamePrefixLength..] == CentreText(r.angle)
  {
  }

  /** Distinct resources have distinct names, so the 144 cue resources are 144
      different R.raw identifiers. */
  lemma ResourceNameInjective(r1: Resource, r2: Resource)
    requires IsCueResource(r1) && IsCueResource(r2)
    requires ResourceName(r1) == ResourceName(r2)
    ensures r1 == r2
  {
    ResourceNameParts(r1);
    ResourceNameParts(r2);
    var name := ResourceName(r1);
    assert name[6] == DigitChar(r1.height) == DigitChar(r2.height);
    assert DigitValue(DigitChar(r1.height)) == r1.height;
    CentreRoundTrip(r1.angle);
    CentreRoundTrip(r2.angle);
  }
}
