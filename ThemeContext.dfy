/**
 * The theme provider: the active suit mode, its configuration bundle, the
 * guarded two-phase `setMode` transition and the cyclic `cycleMode`.
 *
 * The two `setTimeout` callbacks of `setMode` are explicit events: a pending
 * mode switch (300 ms after the call) and a pending end of the transition
 * (800 ms after that switch). Timeouts of one kind share their delay, so they
 * fire in the order they were scheduled; the state keeps them as a queue of
 * target modes and a count of pending ends.
 */
module ThemeContext {
  import opened Wrappers
  import opened Types

  datatype Style = Classic | Graffiti | Punk | NoirStyle | Anime

  /** The identity part of a `UniverseConfig` (colours, fonts and spring constants are presentation). */
  datatype UniverseConfig = UniverseConfig(
    mode: SuitMode,
    universeName: string,
    universeId: string,
    spiderPerson: string,
    style: Style)

  const AllModes: seq<SuitMode> := [Peter, Miles, Gwen, Noir, Peni]

  /** The `CONFIGS` record: every mode's bundle names that mode. */
  function Config(m: SuitMode): (c: UniverseConfig)
    ensures c.mode == m
  {
    match m
    case Peter => UniverseConfig(Peter, "EARTH-616", "E-616", "Peter Parker", Classic)
    case Miles => UniverseConfig(Miles, "EARTH-1610", "E-1610", "Miles Morales", Graffiti)
    case Gwen => UniverseConfig(Gwen, "EARTH-65", "E-65", "Gwen Stacy", Punk)
    case Noir => UniverseConfig(Noir, "EARTH-90214", "E-90214", "Peter Parker (Noir)", NoirStyle)
    case Peni => UniverseConfig(Peni, "EARTH-14512", "E-14512", "Peni Parker", Anime)
  }

  /** `ALL_MODES.indexOf(mode)`: every mode occurs, so the index is never -1. */
  function IndexOf(m: SuitMode): (i: nat)
    ensures i < |AllModes| && AllModes[i] == m
  {
    match m
    case Peter => 0
    case Miles => 1
    case Gwen => 2
    case Noir => 3
    case Peni => 4
  }

  /** The mode `cycleMode` asks for: the next entry of `ALL_MODES`, wrapping around. */
  function NextMode(m: SuitMode): (r: SuitMode)
    ensures IndexOf(r) == (IndexOf(m) + 1) % |AllModes|
  {
    AllModes[(IndexOf(m) + 1) % |AllModes|]
  }

  /** `n` applications of `NextMode`. */
  function Cycle(m: SuitMode, n: nat): SuitMode
    decreases n
  {
    if n == 0 then m else Cycle(NextMode(m), n - 1)
  }

  lemma AllModesDistinct()
    ensures forall i, j :: 0 <= i < j < |AllModes| ==> AllModes[i] != AllModes[j]
  {
  }

  /** Because the five modes are distinct, one cycle step always changes the mode. */
  lemma NextModeChanges(m: SuitMode)
    ensures NextMode(m) != m
  {
    AllModesDistinct();
  }

  /** `Cycle` moves the index by `n` modulo five. */
  lemma {:induction false} CycleIndex(m: SuitMode, n: nat)
    ensures IndexOf(Cycle(m, n)) == (IndexOf(m) + n) % |AllModes|
    decreases n
  {
    if n > 0 {
      CycleIndex(NextMode(m), n - 1);
      assert IndexOf(NextMode(m)) == (IndexOf(m) + 1) % 5;
    }
  }

  /** Five more cycles land on the same mode: the cycle has period five. */
  lemma FiveCyclesReturn(m: SuitMode, n: nat)
    ensures Cycle(m, n + 5) == Cycle(m, n)
  {
    CycleIndex(m, n + 5);
    CycleIndex(m, n);
    assert IndexOf(Cycle(m, n + 5)) == IndexOf(Cycle(m, n));
  }

  /** Four cycles or fewer visit every mode once: the cycle is a single orbit of length five. */
  lemma CycleVisitsEveryMode(m: SuitMode, target: SuitMode)
    ensures exists n: nat :: n < 5 && Cycle(m, n) == target
  {
    var i, t := IndexOf(m), IndexOf(target);
    var n: nat := if i <= t then t - i else t + 5 - i;
    CycleIndex(m, n);
    assert (i + n) % 5 == t;
    assert Cycle(m, n) == AllModes[t];
  }

  /**
   * The provider's state: the visible `mode` and `isTransitioning`, plus the
   * timeouts still to fire.
   */
  datatype ThemeState = ThemeState(
    mode: SuitMode,
    isTransitioning: bool,
    pendingSwitches: seq<SuitMode>,
    pendingEnds: nat)

  /** The provider as first rendered: peter, not transitioning, nothing scheduled. */
  const Initial: ThemeState := ThemeState(Peter, false, [], 0)

  /** No timeout of the provider is outstanding. */
  predicate Quiescent(s: ThemeState) {
    s.pendingSwitches == [] && s.pendingEnds == 0
  }

  /** The transition flag is down whenever no timeout is outstanding. */
  predicate Inv(s: ThemeState) {
    Quiescent(s) ==> !s.isTransitioning
  }

  /** `setMode(newMode)`: a no-op on the current mode, otherwise raise the flag and schedule the switch. */
  function SetModeStep(s: ThemeState, newMode: SuitMode): (r: ThemeState)
    ensures newMode == s.mode ==> r == s
    ensures newMode != s.mode ==>
      r.isTransitioning && r.mode == s.mode && r.pendingEnds == s.pendingEnds &&
      r.pendingSwitches == s.pendingSwitches + [newMode]
  {
    if newMode == s.mode then s
    else s.(isTransitioning := true, pendingSwitches := s.pendingSwitches + [newMode])
  }

  /** The 300 ms timeout: apply the oldest pending switch and schedule the end of its transition. */
  function SwitchStep(s: ThemeState): (r: ThemeState)
    requires s.pendingSwitches != []
    ensures r.mode == s.pendingSwitches[0] && r.isTransitioning == s.isTransitioning
    ensures r.pendingSwitches == s.pendingSwitches[1..] && r.pendingEnds == s.pendingEnds + 1
  {
    s.(mode := s.pendingSwitches[0], pendingSwitches := s.pendingSwitches[1..], pendingEnds := s.pendingEnds + 1)
  }

  /** The 800 ms timeout: lower the transition flag. */
  function EndStep(s: ThemeState): (r: ThemeState)
    requires s.pendingEnds > 0
    ensures !r.isTransitioning && r.mode == s.mode
    ensures r.pendingSwitches == s.pendingSwitches && r.pendingEnds == s.pendingEnds - 1
  {
    s.(isTransitioning := false, pendingEnds := s.pendingEnds - 1)
  }

  /** `cycleMode()`: ask `setMode` for the next mode of `ALL_MODES`. */
  function CycleModeStep(s: ThemeState): (r: ThemeState)
    ensures r.isTransitioning && r.mode == s.mode && r.pendingEnds == s.pendingEnds
    ensures r.pendingSwitches == s.pendingSwitches + [NextMode(s.mode)]
  {
    NextModeChanges(s.mode);
    SetModeStep(s, NextMode(s.mode))
  }

  lemma InitialInv()
    ensures Inv(Initial) && Initial.mode == Peter && !Initial.isTransitioning
  {
  }

  lemma {:induction false} StepsPreserveInv(s: ThemeState, m: SuitMode)
    requires Inv(s)
    ensures Inv(SetModeStep(s, m)) && Inv(CycleModeStep(s))
    ensures s.pendingSwitches != [] ==> Inv(SwitchStep(s))
    ensures s.pendingEnds > 0 ==> Inv(EndStep(s))
  {
  }

  /**
   * From a quiescent state, a `setMode` to another mode raises the flag at
   * once, changes the mode on the first timeout and lowers the flag on the
   * second.
   */
  lemma TwoPhaseTransition(s: ThemeState, m: SuitMode)
    requires Inv(s) && Quiescent(s) && m != s.mode
    ensures var s1 := SetModeStep(s, m);
      s1.isTransitioning && s1.mode == s.mode && s1.pendingSwitches == [m] &&
      var s2 := SwitchStep(s1);
      s2.isTransitioning && s2.mode == m && s2.pendingEnds == 1 &&
      var s3 := EndStep(s2);
      !s3.isTransitioning && s3.mode == m && Quiescent(s3)
  {
  }

  /**
   * From a quiescent state, `cycleMode` keeps the visible mode until the
   * switch timeout fires, which shows the next mode, a different one.
   */
  lemma CycleKeepsModeUntilSwitch(s: ThemeState)
    requires Inv(s) && Quiescent(s)
    ensures var s1 := CycleModeStep(s);
      s1.mode == s.mode && s1.isTransitioning &&
      var s2 := SwitchStep(s1);
      s2.mode == NextMode(s.mode) && s2.mode != s.mode && s2.isTransitioning
  {
    NextModeChanges(s.mode);
  }

  /**
   * Overlapping calls: a second `setMode` issued after the first switch but
   * before its end timeout sees its flag lowered by the first call's end
   * timeout while its own switch is still pending.
   */
  lemma FlagCanDropBeforeSwitch()
    ensures var s := EndStep(SetModeStep(SwitchStep(SetModeStep(Initial, Miles)), Gwen));
      !s.isTransitioning && s.mode == Miles && s.pendingSwitches == [Gwen]
  {
  }

  /** `useTheme()`: the provider's value, or the error thrown outside a provider. */
  function UseTheme(provider: Option<ThemeState>): (r: Result<ThemeState, string>)
    ensures provider.Some? ==> r == Success(provider.value)
    ensures provider.None? ==> r == Failure("useTheme must be used within a ThemeProvider")
  {
    match provider
    case Some(s) => Success(s)
    case None => Failure("useTheme must be used within a ThemeProvider")
  }

  /** The provider component: its two `useState` cells and its outstanding timeouts. */
  class ThemeProvider {
    var mode: SuitMode
    var isTransitioning: bool
    var pendingSwitches: seq<SuitMode>
    var pendingEnds: nat

    function Model(): ThemeState
      reads this
    {
      ThemeState(mode, isTransitioning, pendingSwitches, pendingEnds)
    }

    ghost predicate Valid()
      reads this
    {
      Inv(Model())
    }

    /** `config = CONFIGS[mode]`. */
    function CurrentConfig(): (c: UniverseConfig)
      reads this
      ensures c.mode == mode
    {
      Config(mode)
    }

    constructor ()
      ensures Valid() && Model() == Initial
    {
      mode, isTransitioning, pendingSwitches, pendingEnds := Peter, false, [], 0;
    }

    method SetMode(newMode: SuitMode)
      requires Valid()
      modifies this
      ensures Valid() && Model() == SetModeStep(old(Model()), newMode)
    {
      StepsPreserveInv(Model(), newMode);
      if newMode == mode {
        return;
      }
      isTransitioning := true;
      pendingSwitches := pendingSwitches + [newMode];
    }

    method CycleMode()
      requires Valid()
      modifies this
      ensures Valid() && Model() == CycleModeStep(old(Model()))
    {
      NextModeChanges(mode);
      var next := AllModes[(IndexOf(mode) + 1) % |AllModes|];
      SetMode(next);
    }

    method FireSwitch()
      requires Valid() && pendingSwitches != []
      modifies this
      ensures Valid() && Model() == SwitchStep(old(Model()))
    {
      StepsPreserveInv(Model(), mode);
      mode := pendingSwitches[0];
      pendingSwitches := pendingSwitches[1..];
      pendingEnds := pendingEnds + 1;
    }

    method FireEnd()
      requires Valid() && pendingEnds > 0
      modifies this
      ensures Valid() && Model() == EndStep(old(Model()))
    {
      StepsPreserveInv(Model(), mode);
      isTransitioning := false;
      pendingEnds := pendingEnds - 1;
    }
  }
}
