/**
 * The two-stage suit calibration puzzle: audio sync (frequency, amplitude),
 * then lens calibration (focus, chromatic shift), then complete.
 *
 * Each stage's match score is a pure formula of its two sliders. The two
 * effects of the component recompute a stage's score while that stage is
 * active and lock the stage once its score passes the threshold; the
 * 1500 ms timeout that the lock schedules is the `Advance` event. The
 * weights 1.5 and 1.2 are exact, so scores are `real`.
 */
module SuitCalibration {

  function Abs(x: int): nat {
    if x < 0 then -x else x
  }

  function Max0(x: real): real {
    if x < 0.0 then 0.0 else x
  }

  const TargetFrequency := 75
  const TargetAmplitude := 30
  const TargetFocus := 85
  const TargetChromatic := 20

  /** Sum of the two slider deviations from the audio target. */
  function AudioDeviation(frequency: int, amplitude: int): nat {
    Abs(frequency - TargetFrequency) + Abs(amplitude - TargetAmplitude)
  }

  /** Sum of the two slider deviations from the optics target. */
  function OpticsDeviation(focus: int, chromatic: int): nat {
    Abs(focus - TargetFocus) + Abs(chromatic - TargetChromatic)
  }

  /** `max(0, 100 - (freqDiff + ampDiff) * 1.5)`: a percentage, full only on target. */
  function AudioMatch(frequency: int, amplitude: int): (r: real)
    ensures 0.0 <= r <= 100.0
    ensures r == 100.0 <==> frequency == TargetFrequency && amplitude == TargetAmplitude
  {
    Max0(100.0 - (AudioDeviation(frequency, amplitude) as real) * 1.5)
  }

  /** `max(0, 100 - (focusDiff + chromDiff) * 1.2)`: a percentage, full only on target. */
  function OpticsMatch(focus: int, chromatic: int): (r: real)
    ensures 0.0 <= r <= 100.0
    ensures r == 100.0 <==> focus == TargetFocus && chromatic == TargetChromatic
  {
    Max0(100.0 - (OpticsDeviation(focus, chromatic) as real) * 1.2)
  }

  const AudioThreshold: real := 95.0
  const OpticsThreshold: real := 96.0

  /** On integer sliders the audio lock (`match > 95`) means a total deviation of at most 3. */
  lemma AudioLockCondition(frequency: int, amplitude: int)
    ensures AudioMatch(frequency, amplitude) > AudioThreshold <==> AudioDeviation(frequency, amplitude) <= 3
  {
    var d := AudioDeviation(frequency, amplitude);
    if d >= 4 {
      assert (d as real) * 1.5 >= 6.0;
    }
  }

  /** On integer sliders the optics lock (`match > 96`) means a total deviation of at most 3. */
  lemma OpticsLockCondition(focus: int, chromatic: int)
    ensures OpticsMatch(focus, chromatic) > OpticsThreshold <==> OpticsDeviation(focus, chromatic) <= 3
  {
    var d := OpticsDeviation(focus, chromatic);
    if d >= 4 {
      assert (d as real) * 1.2 >= 4.8;
    }
  }

  /** Moving either audio slider further from its target never raises the score. */
  lemma AudioMatchMonotone(f1: int, a1: int, f2: int, a2: int)
    requires Abs(f1 - TargetFrequency) <= Abs(f2 - TargetFrequency)
    requires Abs(a1 - TargetAmplitude) <= Abs(a2 - TargetAmplitude)
    ensures AudioMatch(f1, a1) >= AudioMatch(f2, a2)
  {
    assert AudioDeviation(f1, a1) <= AudioDeviation(f2, a2);
  }

  /** Moving either optics slider further from its target never raises the score. */
  lemma OpticsMatchMonotone(x1: int, c1: int, x2: int, c2: int)
    requires Abs(x1 - TargetFocus) <= Abs(x2 - TargetFocus)
    requires Abs(c1 - TargetChromatic) <= Abs(c2 - TargetChromatic)
    ensures OpticsMatch(x1, c1) >= OpticsMatch(x2, c2)
  {
    assert OpticsDeviation(x1, c1) <= OpticsDeviation(x2, c2);
  }

  datatype Stage = Audio | Optics | Complete

  /** Position of a stage in the forward-only order audio, optics, complete. */
  function Rank(s: Stage): nat {
    match s
    case Audio => 0
    case Optics => 1
    case Complete => 2
  }

  datatype State = State(
    stage: Stage,
    frequency: int,
    amplitude: int,
    audioLocked: bool,
    audioMatch: real,
    focus: int,
    chromatic: int,
    opticsLocked: bool,
    opticsMatch: real)

  /** Slider ranges of the four range inputs. */
  predicate InAudioRange(v: int) { 10 <= v <= 100 }
  predicate InOpticsRange(v: int) { 0 <= v <= 100 }

  /** The audio effect: only while the audio stage is active; locks once when above the threshold. */
  function AudioEffect(s: State): (r: State)
    ensures s.stage != Audio ==> r == s
    ensures s.stage == Audio ==> r.audioMatch == AudioMatch(s.frequency, s.amplitude)
    ensures r.audioLocked == (s.audioLocked || (s.stage == Audio && AudioMatch(s.frequency, s.amplitude) > AudioThreshold))
    ensures r == s.(audioMatch := r.audioMatch, audioLocked := r.audioLocked)
  {
    if s.stage != Audio then s
    else
      var m := AudioMatch(s.frequency, s.amplitude);
      var s1 := s.(audioMatch := m);
      if m > AudioThreshold && !s.audioLocked then s1.(audioLocked := true) else s1
  }

  /** The optics effect: only while the optics stage is active; locks once when above the threshold. */
  function OpticsEffect(s: State): (r: State)
    ensures s.stage != Optics ==> r == s
    ensures s.stage == Optics ==> r.opticsMatch == OpticsMatch(s.focus, s.chromatic)
    ensures r.opticsLocked == (s.opticsLocked || (s.stage == Optics && OpticsMatch(s.focus, s.chromatic) > OpticsThreshold))
    ensures r == s.(opticsMatch := r.opticsMatch, opticsLocked := r.opticsLocked)
  {
    if s.stage != Optics then s
    else
      var m := OpticsMatch(s.focus, s.chromatic);
      var s1 := s.(opticsMatch := m);
      if m > OpticsThreshold && !s.opticsLocked then s1.(opticsLocked := true) else s1
  }

  /** Both effects, as React runs them after a render whose dependencies changed. */
  function Effects(s: State): (r: State)
    ensures r == s.(audioMatch := r.audioMatch, audioLocked := r.audioLocked, opticsMatch := r.opticsMatch, opticsLocked := r.opticsLocked)
    ensures s.stage == Audio ==> r.audioMatch == AudioMatch(s.frequency, s.amplitude) && r.opticsMatch == s.opticsMatch
    ensures s.stage == Optics ==> r.opticsMatch == OpticsMatch(s.focus, s.chromatic) && r.audioMatch == s.audioMatch
    ensures r.audioLocked == (s.audioLocked || (s.stage == Audio && AudioMatch(s.frequency, s.amplitude) > AudioThreshold))
    ensures r.opticsLocked == (s.opticsLocked || (s.stage == Optics && OpticsMatch(s.focus, s.chromatic) > OpticsThreshold))
    ensures s.stage == Complete ==> r == s
  {
    OpticsEffect(AudioEffect(s))
  }

  /** The initial `useState` values followed by the effects of the first render. */
  const Initial: State := Effects(State(Audio, 50, 50, false, 0.0, 10, 90, false, 0.0))

  /** The audio sliders are shown only in the audio stage and disabled once it is locked. */
  predicate AudioSlidersEnabled(s: State) {
    s.stage == Audio && !s.audioLocked
  }

  /** The optics sliders are shown only in the optics stage and disabled once it is locked. */
  predicate OpticsSlidersEnabled(s: State) {
    s.stage == Optics && !s.opticsLocked
  }

  /** A lock has scheduled the stage timeout and it has not fired yet. */
  predicate AdvancePending(s: State) {
    (s.stage == Audio && s.audioLocked) || (s.stage == Optics && s.opticsLocked)
  }

  datatype Event =
    | SetFrequency(v: int)
    | SetAmplitude(v: int)
    | SetFocus(v: int)
    | SetChromatic(v: int)
    | Advance

  /** An event that can occur: a slider value inside its range, or the stage timeout once scheduled. */
  predicate Allowed(s: State, e: Event) {
    match e
    case SetFrequency(v) => InAudioRange(v)
    case SetAmplitude(v) => InAudioRange(v)
    case SetFocus(v) => InOpticsRange(v)
    case SetChromatic(v) => InOpticsRange(v)
    case Advance => AdvancePending(s)
  }

  /** One event: a slider change (ignored on a hidden or disabled slider) or the stage timeout. */
  function Step(s: State, e: Event): (r: State)
    requires Allowed(s, e)
    ensures !e.Advance? ==> r.stage == s.stage
    ensures e.Advance? ==> r.stage == if s.stage == Audio then Optics else Complete
    ensures e.SetFrequency? ==> r.frequency == (if AudioSlidersEnabled(s) then e.v else s.frequency)
    ensures e.SetAmplitude? ==> r.amplitude == (if AudioSlidersEnabled(s) then e.v else s.amplitude)
    ensures e.SetFocus? ==> r.focus == (if OpticsSlidersEnabled(s) then e.v else s.focus)
    ensures e.SetChromatic? ==> r.chromatic == (if OpticsSlidersEnabled(s) then e.v else s.chromatic)
    ensures !e.SetFrequency? ==> r.frequency == s.frequency
    ensures !e.SetAmplitude? ==> r.amplitude == s.amplitude
    ensures !e.SetFocus? ==> r.focus == s.focus
    ensures !e.SetChromatic? ==> r.chromatic == s.chromatic
    ensures s.stage == Complete ==> r == s
  {
    match e
    case SetFrequency(v) => if AudioSlidersEnabled(s) then Effects(s.(frequency := v)) else s
    case SetAmplitude(v) => if AudioSlidersEnabled(s) then Effects(s.(amplitude := v)) else s
    case SetFocus(v) => if OpticsSlidersEnabled(s) then Effects(s.(focus := v)) else s
    case SetChromatic(v) => if OpticsSlidersEnabled(s) then Effects(s.(chromatic := v)) else s
    case Advance => Effects(s.(stage := if s.stage == Audio then Optics else Complete))
  }

  /**
   * The component invariant: sliders in range; the audio score always
   * reflects the audio sliders; the optics score is 0 until its stage starts
   * and then reflects the optics sliders; each lock holds exactly when its
   * stage has been reached and its score passed the threshold; a later stage
   * implies the earlier lock; the optics sliders are untouched before their
   * stage.
   */
  predicate Inv(s: State) {
    && InAudioRange(s.frequency) && InAudioRange(s.amplitude)
    && InOpticsRange(s.focus) && InOpticsRange(s.chromatic)
    && s.audioMatch == AudioMatch(s.frequency, s.amplitude)
    && s.audioLocked == (AudioMatch(s.frequency, s.amplitude) > AudioThreshold)
    && s.opticsMatch == (if s.stage == Audio then 0.0 else OpticsMatch(s.focus, s.chromatic))
    && s.opticsLocked == (s.stage != Audio && OpticsMatch(s.focus, s.chromatic) > OpticsThreshold)
    && (s.stage != Audio ==> s.audioLocked)
    && (s.stage == Complete ==> s.opticsLocked)
    && (s.stage == Audio ==> s.focus == 10 && s.chromatic == 90)
  }

  lemma InitialState()
    ensures Inv(Initial)
    ensures Initial.stage == Audio && Initial.frequency == 50 && Initial.amplitude == 50
    ensures Initial.focus == 10 && Initial.chromatic == 90
    ensures Initial.audioMatch == 32.5 && !Initial.audioLocked && !Initial.opticsLocked
  {
  }

  lemma StepPreservesInv(s: State, e: Event)
    requires Inv(s) && Allowed(s, e)
    ensures Inv(Step(s, e))
  {
    match e
    case SetFocus(v) =>
    case SetChromatic(v) =>
    case Advance =>
      if s.stage == Audio {
        assert OpticsMatch(10, 90) == 0.0;
      }
    case _ =>
  }

  /** The stage only moves forward, one stage per timeout, and complete is terminal. */
  lemma StageMovesForward(s: State, e: Event)
    requires Inv(s) && Allowed(s, e)
    ensures Rank(Step(s, e).stage) == Rank(s.stage) || (e.Advance? && Rank(Step(s, e).stage) == Rank(s.stage) + 1)
    ensures s.stage == Complete ==> Step(s, e) == s
    ensures Step(s, e).stage == Optics && s.stage != Optics ==> s.stage == Audio && s.audioLocked
    ensures Step(s, e).stage == Complete && s.stage != Complete ==> s.stage == Optics && s.opticsLocked
  {
  }

  /**
   * A lock is never cleared, and it is set only by a slider change of its own
   * active stage that takes the score past the threshold.
   */
  lemma LocksSetOnce(s: State, e: Event)
    requires Inv(s) && Allowed(s, e)
    ensures s.audioLocked ==> Step(s, e).audioLocked
    ensures s.opticsLocked ==> Step(s, e).opticsLocked
    ensures !s.audioLocked && Step(s, e).audioLocked ==>
      s.stage == Audio && (e.SetFrequency? || e.SetAmplitude?) &&
      AudioMatch(Step(s, e).frequency, Step(s, e).amplitude) > AudioThreshold
    ensures !s.opticsLocked && Step(s, e).opticsLocked ==>
      ((s.stage == Optics && (e.SetFocus? || e.SetChromatic?)) || (s.stage == Audio && e.Advance?)) &&
      OpticsMatch(Step(s, e).focus, Step(s, e).chromatic) > OpticsThreshold
  {
  }

  /** A locked or inactive stage rejects slider changes: its sliders and score stay as they are. */
  lemma LockedSlidersReject(s: State, v: int)
    requires Inv(s)
    ensures s.audioLocked && InAudioRange(v) ==> Step(s, SetFrequency(v)) == s && Step(s, SetAmplitude(v)) == s
    ensures (s.opticsLocked || s.stage != Optics) && InOpticsRange(v) ==>
      Step(s, SetFocus(v)) == s && Step(s, SetChromatic(v)) == s
  {
  }

  /** Each stage's score is recomputed only while that stage is active. */
  lemma ScoresFrozenOutsideStage(s: State, e: Event)
    requires Inv(s) && Allowed(s, e)
    ensures s.stage != Audio ==> Step(s, e).audioMatch == s.audioMatch
    ensures s.stage == Complete ==> Step(s, e).opticsMatch == s.opticsMatch
  {
  }

  /** Reaching the audio target from the start locks audio at once; the timeout then opens optics. */
  lemma AudioOnTarget()
    ensures var s1 := Step(Step(Initial, SetFrequency(75)), SetAmplitude(30));
      s1.audioLocked && s1.audioMatch == 100.0 && s1.stage == Audio &&
      Step(s1, Advance).stage == Optics && !Step(s1, Advance).opticsLocked
  {
    var s0 := Step(Initial, SetFrequency(75));
    assert s0.audioMatch == 70.0;
  }

  /** The component's state cells. */
  class Calibration {
    var stage: Stage
    var frequency: int
    var amplitude: int
    var audioLocked: bool
    var audioMatch: real
    var focus: int
    var chromatic: int
    var opticsLocked: bool
    var opticsMatch: real

    function Model(): State
      reads this
    {
      State(stage, frequency, amplitude, audioLocked, audioMatch, focus, chromatic, opticsLocked, opticsMatch)
    }

    ghost predicate Valid()
      reads this
    {
      Inv(Model())
    }

    /** Mount: the initial cells, then the first run of both effects. */
    constructor ()
      ensures Valid() && Model() == Initial
    {
      stage := Audio;
      frequency, amplitude, audioLocked, audioMatch := 50, 50, false, 0.0;
      focus, chromatic, opticsLocked, opticsMatch := 10, 90, false, 0.0;
      new;
      RunEffects();
      InitialState();
    }

    /** Both effects of the component, each a no-op outside its stage. */
    method RunEffects()
      modifies this
      ensures Model() == Effects(old(Model()))
    {
      if stage == Audio {
        var m := AudioMatch(frequency, amplitude);
        audioMatch := m;
        if m > AudioThreshold && !audioLocked {
          audioLocked := true;
        }
      }
      if stage == Optics {
        var m := OpticsMatch(focus, chromatic);
        opticsMatch := m;
        if m > OpticsThreshold && !opticsLocked {
          opticsLocked := true;
        }
      }
    }

    method SetFrequency(v: int)
      requires Valid() && InAudioRange(v)
      modifies this
      ensures Valid() && Model() == Step(old(Model()), Event.SetFrequency(v))
    {
      StepPreservesInv(Model(), Event.SetFrequency(v));
      if stage == Audio && !audioLocked {
        frequency := v;
        RunEffects();
      }
    }

    method SetAmplitude(v: int)
      requires Valid() && InAudioRange(v)
      modifies this
      ensures Valid() && Model() == Step(old(Model()), Event.SetAmplitude(v))
    {
      StepPreservesInv(Model(), Event.SetAmplitude(v));
      if stage == Audio && !audioLocked {
        amplitude := v;
        RunEffects();
      }
    }

    method SetFocus(v: int)
      requires Valid() && InOpticsRange(v)
      modifies this
      ensures Valid() && Model() == Step(old(Model()), Event.SetFocus(v))
    {
      StepPreservesInv(Model(), Event.SetFocus(v));
      if stage == Optics && !opticsLocked {
        focus := v;
        RunEffects();
      }
    }

    method SetChromatic(v: int)
      requires Valid() && InOpticsRange(v)
      modifies this
      ensures Valid() && Model() == Step(old(Model()), Event.SetChromatic(v))
    {
      StepPreservesInv(Model(), Event.SetChromatic(v));
      if stage == Optics && !opticsLocked {
        chromatic := v;
        RunEffects();
      }
    }

    /** The 1500 ms timeout scheduled by a lock: move to the next stage. */
    method Advance()
      requires Valid() && AdvancePending(Model())
      modifies this
      ensures Valid() && Model() == Step(old(Model()), Event.Advance)
    {
      StepPreservesInv(Model(), Event.Advance);
      stage := if stage == Audio then Optics else Complete;
      RunEffects();
    }
  }
}
