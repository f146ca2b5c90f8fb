/**
 * The sensor state of input_manager.py: the breath envelope that each audio
 * callback updates, and the motion score that each camera frame updates.
 * The RMS of an audio block and the contour areas OpenCV finds in a frame
 * difference are inputs; the acquisition threads are not modelled.
 */
module Input {
  import opened Maybe

  const NoiseThreshold: real := 0.05
  const HistorySize: nat := 8
  const ActivationLevel: real := 0.1
  const SustainDecay: real := 0.8
  const ReleaseDecay: real := 0.7
  const ClearLevel: real := 0.001
  /** The value `_listen_mic` stores when the microphone cannot be opened. */
  const MicErrorSentinel: real := -1.0
  const DefaultBreathMultiplier: real := 50.0
  const DefaultMotionThreshold: real := 30.0
  const ContourNoiseArea: real := 500.0
  const MotionScale: real := 10000.0
  const MaxMotionIntensity: real := 100.0

  /** Python's `max(0, x)`. */
  function Max0(x: real): real { if x > 0.0 then x else 0.0 }

  function Sum(s: seq<real>): real
  {
    if s == [] then 0.0 else Sum(s[..|s| - 1]) + s[|s| - 1]
  }

  /** `np.mean` of a non-empty list. */
  function Mean(s: seq<real>): real
    requires s != []
  {
    Sum(s) / (|s| as real)
  }

  /** `append` followed by `pop(0)` when the list has grown past HistorySize. */
  function Pushed(history: seq<real>, rms: real): seq<real>
  {
    var h := history + [rms];
    if |h| > HistorySize then h[1..] else h
  }

  /** The last HistorySize elements of `s` (all of `s` when it is shorter). */
  function Window(s: seq<real>): seq<real>
  {
    if |s| <= HistorySize then s else s[|s| - HistorySize..]
  }

  /** A history that only holds samples that passed the noise gate, at most HistorySize of them. */
  predicate Gated(h: seq<real>)
  {
    |h| <= HistorySize && forall i | 0 <= i < |h| :: h[i] > NoiseThreshold
  }

  /** The state one audio callback reads and writes. */
  datatype Envelope = Envelope(intensity: real, history: seq<real>)

  /** What `_audio_callback` does to `breath_intensity` for a block whose RMS is `rms`. */
  function StepIntensity(e: Envelope, rms: real): (r: real)
    ensures r >= 0.0
    ensures e.intensity >= 0.0 && r > e.intensity ==>
      rms > NoiseThreshold && r == Mean(Pushed(e.history, rms))
    ensures rms > NoiseThreshold && Mean(Pushed(e.history, rms)) > ActivationLevel ==>
      r == Mean(Pushed(e.history, rms))
    ensures rms > NoiseThreshold && Mean(Pushed(e.history, rms)) <= ActivationLevel ==>
      r == Max0(e.intensity * SustainDecay)
    ensures rms <= NoiseThreshold ==> r == Max0(e.intensity * ReleaseDecay)
  {
    if rms > NoiseThreshold then
      var h := Pushed(e.history, rms);
      if Mean(h) > ActivationLevel then Mean(h) else Max0(e.intensity * SustainDecay)
    else
      Max0(e.intensity * ReleaseDecay)
  }

  /** What `_audio_callback` does to `breath_history` for a block whose RMS is `rms`. */
  function StepHistory(e: Envelope, rms: real): (r: seq<real>)
    ensures |e.history| <= HistorySize ==> |r| <= HistorySize
    ensures rms > NoiseThreshold ==> |r| > 0 && r[|r| - 1] == rms
    ensures rms <= NoiseThreshold ==> r == (if StepIntensity(e, rms) < ClearLevel then [] else e.history)
  {
    if rms > NoiseThreshold then Pushed(e.history, rms)
    else if Max0(e.intensity * ReleaseDecay) < ClearLevel then []
    else e.history
  }

  /** What `_audio_callback` does to the envelope. */
  function AudioStep(e: Envelope, rms: real): (r: Envelope)
    ensures r.intensity >= 0.0
    ensures e.intensity >= 0.0 && r.intensity > e.intensity ==>
      r.history != [] && r.history[|r.history| - 1] == rms && r.intensity == Mean(r.history)
  {
    Envelope(StepIntensity(e, rms), StepHistory(e, rms))
  }

  /** The envelope after a run of callbacks, oldest block first. */
  function Run(e: Envelope, blocks: seq<real>): Envelope
  {
    if blocks == [] then e else AudioStep(Run(e, blocks[..|blocks| - 1]), blocks[|blocks| - 1])
  }

  function Pow(b: real, n: nat): real
  {
    if n == 0 then 1.0 else b * Pow(b, n - 1)
  }

  function Repeat(x: real, n: nat): seq<real>
  {
    seq(n, _ => x)
  }

  lemma {:induction false} SumAtLeast(s: seq<real>, lo: real)
    requires s != []
    requires forall i | 0 <= i < |s| :: s[i] > lo
    ensures Sum(s) > (|s| as real) * lo
  {
    if |s| > 1 {
      SumAtLeast(s[..|s| - 1], lo);
    }
  }

  lemma {:induction false} SumAtMost(s: seq<real>, hi: real)
    requires forall i | 0 <= i < |s| :: s[i] <= hi
    ensures Sum(s) <= (|s| as real) * hi
  {
    if s != [] {
      SumAtMost(s[..|s| - 1], hi);
    }
  }

  lemma {:induction false} SumRepeat(x: real, n: nat)
    ensures Sum(Repeat(x, n)) == (n as real) * x
  {
    if n > 0 {
      assert Repeat(x, n)[..n - 1] == Repeat(x, n - 1);
      SumRepeat(x, n - 1);
    }
  }

  /** A gated window, averaged, is itself above the noise gate. */
  lemma GatedMeanAboveGate(h: seq<real>)
    requires h != [] && Gated(h)
    ensures Mean(h) > NoiseThreshold
  {
    SumAtLeast(h, NoiseThreshold);
  }

  /**
   * One callback keeps the envelope's invariant: the intensity is never
   * negative afterwards, whatever it was before (the -1 sentinel included),
   * and the history stays gated and bounded.
   */
  lemma AudioStepKeepsInvariant(e: Envelope, rms: real)
    requires Gated(e.history)
    ensures AudioStep(e, rms).intensity >= 0.0
    ensures Gated(AudioStep(e, rms).history)
  {
  }

  /**
   * The history is a FIFO window: after any run of blocks that all pass the
   * gate, it holds exactly the last HistorySize samples, oldest first.
   */
  lemma {:induction false} HistoryIsWindow(e: Envelope, blocks: seq<real>)
    requires Gated(e.history)
    requires forall i | 0 <= i < |blocks| :: blocks[i] > NoiseThreshold
    ensures Run(e, blocks).history == Window(e.history + blocks)
  {
    if blocks != [] {
      var n := |blocks|;
      var prefix := blocks[..n - 1];
      HistoryIsWindow(e, prefix);
      WindowAppend(e.history + prefix, blocks[n - 1]);
      assert e.history + prefix + [blocks[n - 1]] == e.history + blocks;
    }
  }

  lemma WindowAppend(s: seq<real>, x: real)
    ensures Pushed(Window(s), x) == Window(s + [x])
  {
    if |s| > HistorySize {
      assert (Window(s) + [x])[1..] == (s + [x])[|s + [x]| - HistorySize..];
    }
  }

  /**
   * A constant breath above the activation level, held for at least
   * HistorySize blocks, fills the window with that value and the intensity
   * settles at exactly that value.
   */
  lemma ConstantBreathSettles(e: Envelope, x: real, n: nat)
    requires Gated(e.history)
    requires x > ActivationLevel && n >= HistorySize
    ensures Run(e, Repeat(x, n)) == Envelope(x, Repeat(x, HistorySize))
  {
    var blocks := Repeat(x, n);
    var prev := Run(e, blocks[..n - 1]);
    HistoryIsWindow(e, blocks);
    WindowOfRepeat(e.history, x, n);
    assert Pushed(prev.history, x) == Repeat(x, HistorySize);
    MeanRepeat(x, HistorySize);
  }

  lemma WindowOfRepeat(h: seq<real>, x: real, n: nat)
    requires n >= HistorySize
    ensures Window(h + Repeat(x, n)) == Repeat(x, HistorySize)
  {
    var s := h + Repeat(x, n);
    assert forall i | |s| - HistorySize <= i < |s| :: s[i] == x;
  }

  lemma MeanRepeat(x: real, n: nat)
    requires n > 0
    ensures Mean(Repeat(x, n)) == x
  {
    SumRepeat(x, n);
    QuotientOfProduct(x, n as real);
  }

  lemma QuotientOfProduct(x: real, k: real)
    requires k > 0.0
    ensures (k * x) / k == x
  {
  }

  lemma QuotientAtMost(a: real, k: real, m: real)
    requires k > 0.0 && a <= k * m
    ensures a / k <= m
  {
  }

  lemma MeanAtMost(h: seq<real>, m: real)
    requires h != []
    requires forall i | 0 <= i < |h| :: h[i] <= m
    ensures Mean(h) <= m
  {
    SumAtMost(h, m);
    QuotientAtMost(Sum(h), |h| as real, m);
  }

  /**
   * During silence (every block at or below the gate) the intensity decays
   * by the release factor on every block: after n blocks it is 0.7^n times
   * what it was.
   */
  lemma {:induction false} SilenceDecays(e: Envelope, blocks: seq<real>)
    requires e.intensity >= 0.0
    requires forall i | 0 <= i < |blocks| :: blocks[i] <= NoiseThreshold
    ensures Run(e, blocks).intensity == Pow(ReleaseDecay, |blocks|) * e.intensity
  {
    if blocks != [] {
      var n := |blocks|;
      var init := blocks[..n - 1];
      SilenceDecays(e, init);
      var p := Pow(ReleaseDecay, n - 1);
      var x := Run(e, init).intensity;
      PowNonNegative(ReleaseDecay, n - 1);
      ProductNonNegative(p, e.intensity);
      SilentBlockDecays(Run(e, init), blocks[n - 1]);
      assert Run(e, blocks).intensity == x * ReleaseDecay;
      assert (p * e.intensity) * ReleaseDecay == (ReleaseDecay * p) * e.intensity;
    }
  }

  lemma ProductNonNegative(a: real, b: real)
    requires a >= 0.0 && b >= 0.0
    ensures a * b >= 0.0
  {
  }

  /** One block at or below the gate scales a non-negative intensity by the release factor. */
  lemma SilentBlockDecays(e: Envelope, rms: real)
    requires e.intensity >= 0.0 && rms <= NoiseThreshold
    ensures AudioStep(e, rms).intensity == e.intensity * ReleaseDecay
  {
  }

  /**
   * During silence the moving-average window survives as long as the
   * intensity stays at or above 0.001, and is cleared once it drops below.
   */
  lemma {:induction false} SilenceClearsHistory(e: Envelope, blocks: seq<real>)
    requires e.intensity >= 0.0
    requires blocks != []
    requires forall i | 0 <= i < |blocks| :: blocks[i] <= NoiseThreshold
    ensures Run(e, blocks).history == if Run(e, blocks).intensity < ClearLevel then [] else e.history
  {
    var n := |blocks|;
    var init := blocks[..n - 1];
    SilenceDecays(e, init);
    PowNonNegative(ReleaseDecay, n - 1);
    if init != [] {
      SilenceClearsHistory(e, init);
    }
  }

  lemma {:induction false} PowNonNegative(b: real, n: nat)
    requires b >= 0.0
    ensures Pow(b, n) >= 0.0
  {
    if n > 0 {
      PowNonNegative(b, n - 1);
    }
  }

  /**
   * A weak breath (above the gate but, like the whole window, at most the
   * activation level) never sets the intensity: it only decays by the
   * sustain factor.
   */
  lemma WeakBreathDecays(e: Envelope, rms: real)
    requires Gated(e.history)
    requires NoiseThreshold < rms <= ActivationLevel
    requires forall i | 0 <= i < |e.history| :: e.history[i] <= ActivationLevel
    ensures AudioStep(e, rms).intensity == Max0(e.intensity * SustainDecay)
    ensures AudioStep(e, rms).history == Pushed(e.history, rms)
  {
    var h := Pushed(e.history, rms);
    assert forall i | 0 <= i < |h| :: h[i] <= ActivationLevel;
    MeanAtMost(h, ActivationLevel);
  }

  /**
   * The envelope never overshoots its input: if the intensity and every
   * block so far are at most m, the intensity stays at most m.
   */
  lemma {:induction false} EnvelopeBounded(e: Envelope, blocks: seq<real>, m: real)
    requires Gated(e.history) && m >= 0.0 && e.intensity <= m
    requires forall i | 0 <= i < |e.history| :: e.history[i] <= m
    requires forall i | 0 <= i < |blocks| :: blocks[i] <= m
    ensures Gated(Run(e, blocks).history)
    ensures Run(e, blocks).intensity <= m
    ensures forall i | 0 <= i < |Run(e, blocks).history| :: Run(e, blocks).history[i] <= m
  {
    if blocks != [] {
      var n := |blocks|;
      EnvelopeBounded(e, blocks[..n - 1], m);
      var prev := Run(e, blocks[..n - 1]);
      AudioStepKeepsInvariant(prev, blocks[n - 1]);
      if blocks[n - 1] > NoiseThreshold {
        var h := Pushed(prev.history, blocks[n - 1]);
        assert forall i | 0 <= i < |h| :: h[i] <= m;
        MeanAtMost(h, m);
      }
    }
  }

  /** The summed area of the contours larger than ContourNoiseArea. */
  function ContourArea(areas: seq<real>): (total: real)
    ensures total >= 0.0
    ensures total == 0.0 <==> forall i | 0 <= i < |areas| :: areas[i] <= ContourNoiseArea
  {
    if areas == [] then 0.0
    else
      var rest := areas[..|areas| - 1];
      var last := areas[|areas| - 1];
      assert forall i | 0 <= i < |rest| :: rest[i] == areas[i];
      ContourArea(rest) + (if last > ContourNoiseArea then last else 0.0)
  }

  /** The `motion_area` loop of `_detect_motion`. */
  method SumContourArea(areas: seq<real>) returns (total: real)
    ensures total == ContourArea(areas)
  {
    total := 0.0;
    var i := 0;
    while i < |areas|
      invariant 0 <= i <= |areas|
      invariant total == ContourArea(areas[..i])
    {
      assert areas[..i + 1][..i] == areas[..i];
      if areas[i] > ContourNoiseArea {
        total := total + areas[i];
      }
      i := i + 1;
    }
    assert areas[..|areas|] == areas;
  }

  /** `min(100.0, motion_area / frame_area * 10000)`. */
  function MotionScore(area: real, height: nat, width: nat): (score: real)
    requires height > 0 && width > 0 && area >= 0.0
    ensures 0.0 <= score <= MaxMotionIntensity
    ensures score == 0.0 <==> area == 0.0
    ensures score < MaxMotionIntensity ==> score * ((height * width) as real) == area * MotionScale
    ensures score == MaxMotionIntensity ==> area * MotionScale >= MaxMotionIntensity * ((height * width) as real)
  {
    var frameArea := (height * width) as real;
    var raw := area / frameArea * MotionScale;
    if raw < MaxMotionIntensity then raw else MaxMotionIntensity
  }

  /** A grayscale, blurred camera frame; only its size enters the motion score. */
  datatype Image = Image(height: nat, width: nat, pixels: seq<int>)

  class InputManager {
    var breathIntensity: real
    var breathMultiplier: real
    var breathHistory: seq<real>
    var motionDetected: bool
    var motionIntensity: real
    var prevFrame: Option<Image>
    var motionThreshold: real

    ghost predicate Valid()
      reads this
    {
      && (breathIntensity >= 0.0 || breathIntensity == MicErrorSentinel)
      && Gated(breathHistory)
      && 0.0 <= motionIntensity <= MaxMotionIntensity
    }

    constructor ()
      ensures Valid()
      ensures breathIntensity == 0.0 && breathMultiplier == DefaultBreathMultiplier && breathHistory == []
      ensures !motionDetected && motionIntensity == 0.0 && prevFrame == None
      ensures motionThreshold == DefaultMotionThreshold
    {
      breathIntensity := 0.0;
      breathMultiplier := DefaultBreathMultiplier;
      breathHistory := [];
      motionDetected := false;
      motionIntensity := 0.0;
      prevFrame := None;
      motionThreshold := DefaultMotionThreshold;
    }

    method SetBreathMultiplier(multiplier: real)
      modifies this`breathMultiplier
      ensures breathMultiplier == multiplier
    {
      breathMultiplier := multiplier;
    }

    /** Takes effect on the next frame: `motionDetected` is not recomputed. */
    method SetMotionThreshold(threshold: real)
      modifies this`motionThreshold
      ensures motionThreshold == threshold
    {
      motionThreshold := threshold;
    }

    /** `_audio_callback` for a block whose RMS is `rms`. */
    method AudioCallback(rms: real)
      requires Valid()
      modifies this`breathIntensity, this`breathHistory
      ensures Valid()
      ensures Envelope(breathIntensity, breathHistory)
           == AudioStep(Envelope(old(breathIntensity), old(breathHistory)), rms)
      ensures breathIntensity >= 0.0
    {
      ghost var before := Envelope(breathIntensity, breathHistory);
      if rms > NoiseThreshold {
        breathHistory := breathHistory + [rms];
        if |breathHistory| > HistorySize {
          breathHistory := breathHistory[1..];
        }
        var filtered := Mean(breathHistory);
        if filtered > ActivationLevel {
          breathIntensity := filtered;
        } else {
          breathIntensity := Max0(breathIntensity * SustainDecay);
        }
      } else {
        breathIntensity := Max0(breathIntensity * ReleaseDecay);
        if breathIntensity < ClearLevel {
          breathHistory := [];
        }
      }
      AudioStepKeepsInvariant(before, rms);
    }

    /** The `except` branch of `_listen_mic`: the stream could not be opened. */
    method MicUnavailable()
      requires Valid()
      modifies this`breathIntensity
      ensures Valid()
      ensures breathIntensity == MicErrorSentinel
      ensures GetBreathIntensity() == -breathMultiplier
    {
      breathIntensity := MicErrorSentinel;
    }

    /**
     * `_detect_motion` after the OpenCV calls: `gray` is the blurred grayscale
     * frame and `contourAreas` the areas of the external contours of its
     * thresholded, dilated difference from the previous frame.
     */
    method DetectMotion(gray: Image, contourAreas: seq<real>)
      requires Valid()
      requires gray.height > 0 && gray.width > 0
      modifies this`prevFrame, this`motionIntensity, this`motionDetected
      ensures Valid()
      ensures prevFrame == Some(gray)
      ensures old(prevFrame) == None ==>
        motionIntensity == old(motionIntensity) && motionDetected == old(motionDetected)
      ensures old(prevFrame) != None ==>
        && motionIntensity == MotionScore(ContourArea(contourAreas), gray.height, gray.width)
        && motionDetected == (motionIntensity > motionThreshold)
    {
      if prevFrame == None {
        prevFrame := Some(gray);
        return;
      }
      var area := SumContourArea(contourAreas);
      motionIntensity := MotionScore(area, gray.height, gray.width);
      motionDetected := motionIntensity > motionThreshold;
      prevFrame := Some(gray);
    }

    /** The breath reading scenes see: the envelope scaled by the multiplier at read time. */
    function GetBreathIntensity(): (r: real)
      reads this
      ensures breathIntensity == MicErrorSentinel ==> r == -breathMultiplier
      ensures breathIntensity >= 0.0 && breathMultiplier >= 0.0 ==> r >= 0.0
      ensures breathIntensity == 0.0 ==> r == 0.0
    {
      breathIntensity * breathMultiplier
    }

    function GetMotionDetected(): bool
      reads this
    {
      motionDetected
    }

    function GetMotionIntensity(): (r: real)
      reads this
      requires Valid()
      ensures 0.0 <= r <= MaxMotionIntensity
    {
      motionIntensity
    }
  }
}
