/**
 * Read-only views the page derives from the production state: whether an operation is in flight,
 * the status banner text, and which scene the narration playback is in.
 */
module AppView {
  import opened Types

  /** The statuses during which a global operation is running. */
  predicate IsBusyStatus(s: GenerationStatus) {
    s in {ScriptGenerating, ImagesGenerating, AudioGenerating, VideoGenerating, Zipping}
  }

  /**
   * `isProcessing`: a global operation is running or a per-scene image or video call is in flight.
   * The draft, sync-assets and per-image buttons are disabled while it holds; the video, package
   * and download buttons are not gated by it.
   */
  function IsProcessing(status: GenerationStatus, imageGeneratingIndex: Option<nat>, videoGeneratingIndex: Option<nat>): bool {
    IsBusyStatus(status) || videoGeneratingIndex.Some? || imageGeneratingIndex.Some?
  }

  /** Nothing is in flight exactly in the four resting statuses with no busy scene index. */
  lemma IdleExactlyAtRest(status: GenerationStatus, imageGeneratingIndex: Option<nat>, videoGeneratingIndex: Option<nat>)
    ensures !IsProcessing(status, imageGeneratingIndex, videoGeneratingIndex)
            <==> status in {Idle, ScriptReview, Completed, Error}
                 && imageGeneratingIndex == None && videoGeneratingIndex == None
  {
    match status
    case Idle =>
    case ScriptReview =>
    case Completed =>
    case Error =>
    case _ => assert IsBusyStatus(status);
  }

  /** `getStatusLabel`: the banner text for a status. */
  function StatusLabel(s: GenerationStatus): string {
    match s
    case ScriptGenerating => "DRAFTING SCRIPT..."
    case ScriptReview => "SCRIPT REVIEW"
    case ImagesGenerating => "RENDERING VISUALS..."
    case AudioGenerating => "SYNTHESIZING VOICE..."
    case VideoGenerating => "GENERATING MOTION (VEO)..."
    case Zipping => "PACKAGING ASSETS..."
    case Completed => "PRODUCTION READY"
    case Error => "SYSTEM HALTED"
    case Idle => "SYSTEM READY"
  }

  predicate EndsWithEllipsis(s: string) {
    |s| >= 3 && s[|s| - 3] == '.' && s[|s| - 2] == '.' && s[|s| - 1] == '.'
  }

  /** A label ends in "..." exactly for the statuses during which a global operation runs. */
  lemma BusyLabelsTrailOff(s: GenerationStatus)
    ensures IsBusyStatus(s) <==> EndsWithEllipsis(StatusLabel(s))
  {
    match s
    case ScriptReview => assert StatusLabel(s)[12] == 'W';
    case Completed => assert StatusLabel(s)[15] == 'Y';
    case Error => assert StatusLabel(s)[12] == 'D';
    case Idle => assert StatusLabel(s)[11] == 'Y';
    case _ =>
  }

  /** Every status has its own label, so the banner identifies the status. */
  lemma StatusLabelInjective(a: GenerationStatus, b: GenerationStatus)
    requires StatusLabel(a) == StatusLabel(b)
    ensures a == b
  {
    var la, lb := StatusLabel(a), StatusLabel(b);
    assert |la| == |lb| && la[0] == lb[0] && la[|la| - 1] == lb[|lb| - 1];
  }

  /** The media element's `duration`: a number of seconds, or NaN while the length is not known. */
  datatype MediaDuration = NotANumber | Seconds(value: real)

  /** `duration || 1`: NaN and zero are both replaced by one second. */
  function EffectiveDuration(d: MediaDuration): (r: real)
    requires d.Seconds? ==> d.value >= 0.0
    ensures r > 0.0
    ensures d.Seconds? && d.value > 0.0 ==> r == d.value
    ensures d.NotANumber? || d.value == 0.0 ==> r == 1.0
  {
    if d.NotANumber? || d.value == 0.0 then 1.0 else d.value
  }

  /**
   * `getActiveSceneIndex`: the narration is split into equal slices, one per scene, and the
   * playback position picks the slice, clamped to the last scene. 0 without an audio element,
   * without a script or without scenes.
   */
  function ActiveSceneIndex(hasAudioElement: bool, script: Option<ShortsScript>, currentTime: real, duration: MediaDuration): (r: int)
    requires currentTime >= 0.0
    requires duration.Seconds? ==> duration.value >= 0.0
    ensures 0 <= r
    ensures hasAudioElement && script.Some? && |script.value.scenes| > 0 ==> r < |script.value.scenes|
    ensures !hasAudioElement || script.None? || |script.value.scenes| == 0 ==> r == 0
  {
    if !hasAudioElement || script.None? || |script.value.scenes| == 0 then 0
    else
      var n := |script.value.scenes|;
      var sceneDuration := EffectiveDuration(duration) / n as real;
      var slice := (currentTime / sceneDuration).Floor;
      if slice < n - 1 then slice else n - 1
  }

  /**
   * Within the narration the index is the slice that holds the playback position:
   * index * duration <= time * n < (index + 1) * duration; from the end on it is the last scene.
   */
  lemma ActiveSceneIsEqualSlice(script: ShortsScript, currentTime: real, duration: MediaDuration)
    requires currentTime >= 0.0
    requires duration.Seconds? ==> duration.value >= 0.0
    requires |script.scenes| > 0
    ensures var k, n, d := ActiveSceneIndex(true, Some(script), currentTime, duration), |script.scenes|, EffectiveDuration(duration);
      && (currentTime < d ==> k as real * d <= currentTime * n as real < (k + 1) as real * d)
      && (currentTime >= d ==> k == n - 1)
  {
    var n := |script.scenes|;
    var d := EffectiveDuration(duration);
    var sd := d / n as real;
    var q := currentTime / sd;
    var slice := q.Floor;
    QuotientScales(currentTime, d, n as real);
    assert slice as real <= q < slice as real + 1.0;
    BeforeEndIffBeforeLastSlice(currentTime, d, n as real, q);
    if currentTime < d {
      SliceHoldsTime(currentTime, d, n as real, q, slice);
    }
  }

  /** With q = t / (d / n): q * d == t * n. */
  lemma QuotientScales(t: real, d: real, n: real)
    requires d > 0.0 && n > 0.0
    ensures (t / (d / n)) * d == t * n
  {
    var sd := d / n;
    var q := t / sd;
    assert sd * n == d;
    assert q * sd == t;
    calc {
      q * d;
      == q * (sd * n);
      == (q * sd) * n;
      == t * n;
    }
  }

  /** The position is before the end exactly when its slice number is below the scene count. */
  lemma BeforeEndIffBeforeLastSlice(t: real, d: real, n: real, q: real)
    requires d > 0.0 && n > 0.0 && q * d == t * n
    ensures t < d <==> q < n
  {
    ScaleMonotone(t, d, n);
    ScaleMonotone(q, n, d);
    assert d * n == n * d;
  }

  /** The floor of the slice number brackets the position between two slice boundaries. */
  lemma SliceHoldsTime(t: real, d: real, n: real, q: real, f: int)
    requires d > 0.0 && q * d == t * n
    requires f as real <= q < f as real + 1.0
    ensures f as real * d <= t * n < (f + 1) as real * d
  {
    var lo, hi := f as real, (f + 1) as real;
    assert hi == lo + 1.0;
    ScaleMonotone(lo, q, d);
    ScaleMonotone(q, hi, d);
    assert lo * d <= q * d < hi * d;
    assert t * n < hi * d;
    assert t * n < (f + 1) as real * d;
  }

  /** Scaling by a positive factor keeps the order. */
  lemma ScaleMonotone(a: real, b: real, c: real)
    requires c > 0.0
    ensures a <= b <==> a * c <= b * c
    ensures a < b <==> a * c < b * c
  {
  }

  /** Four scenes over 8.0 s of narration: 5.9 s is in scene index 2, and 8.0 s is clamped to index 3. */
  lemma ActiveSceneExample(script: ShortsScript)
    requires |script.scenes| == 4
    ensures ActiveSceneIndex(true, Some(script), 5.9, Seconds(8.0)) == 2
    ensures ActiveSceneIndex(true, Some(script), 8.0, Seconds(8.0)) == 3
    ensures ActiveSceneIndex(true, Some(script), 3.0, NotANumber) == 3
  {
    assert (5.9 / (8.0 / 4 as real)).Floor == 2;
    assert (8.0 / (8.0 / 4 as real)).Floor == 4;
    assert (3.0 / (1.0 / 4 as real)).Floor == 12;
  }

  /** `getActiveSubtitle`: the narration line of the active scene, or "" when there is none. */
  function ActiveSubtitle(hasAudioElement: bool, script: Option<ShortsScript>, currentTime: real, duration: MediaDuration): (r: string)
    requires currentTime >= 0.0
    requires duration.Seconds? ==> duration.value >= 0.0
    ensures hasAudioElement && script.Some? && |script.value.scenes| > 0 ==>
              r == script.value.scenes[ActiveSceneIndex(hasAudioElement, script, currentTime, duration)].text
    ensures !hasAudioElement || script.None? || |script.value.scenes| == 0 ==> r == ""
  {
    if script.None? || !hasAudioElement || |script.value.scenes| == 0 then ""
    else script.value.scenes[ActiveSceneIndex(hasAudioElement, script, currentTime, duration)].text
  }
}
