# Spider-Verse comic: a Dafny model of its games, theme and caption rules

This project models the logic of the Spider-Verse interactive comic, a React
single-page app. The app shows one comic page per universe. The universes are
Peter Parker's Earth-616, Miles Morales's Earth-1610, Gwen Stacy's Earth-65,
Spider-Man Noir's Earth-90214 and Peni Parker's Earth-14512. Each page has
narrative panels with captions and mini-games. The model covers:

- the universe switcher (`ThemeProvider`). It switches in two phases: it raises a
  transition flag, changes the mode after 300 ms and lowers the flag 800 ms
  later. It also cycles through the five universes and looks up each
  universe's configuration.
- the five mini-games:
  - the two-stage suit calibration: audio sync, then lens calibration;
  - Noir's clue-finding detective case;
  - Gwen's colour-matching web swing;
  - Miles's venom-strike arcade game;
  - Peter's web-shooter range.
- the offline caption service that answers a panel's scene with a beat. It
  tries keyword rules first and falls back to a voice's quotes. It also serves
  the monologue and suit-status lines.
- the page assembly: each universe's section list, and the choice of which game
  an interactive section mounts.

Every React component with state becomes two parts. The first is a `State`
datatype with pure step functions, one per event handler or timer callback;
the invariants and properties are lemmas about these functions. The second is
a `class` whose fields are the component's `useState` cells. Each method of
the class updates the fields in place and promises
`Model() == XxxStep(old(Model()), ...)`. The model follows these conventions:

- An event on a control that is not rendered, or is `disabled`, is a no-op of
  the step function, because the handler never runs.
- A control that an overlay covers but that is still rendered and enabled
  can be reached by keyboard focus, so its handler is modelled as running.
- A timer callback runs only while its interval or timeout exists, so it is
  given a `requires` that says when the timer is live.
- A `Math.random()` draw is a bounded parameter: an index `r < n`, or a real
  number in `[0, 1)`.
- `Date.now()`-based ids become a counter that hands out fresh ids.

`Types.dfy` holds the shared `SuitMode` and `StoryPhase` enumerations, their
spellings, and the ASCII case mapping behind `toUpperCase`/`toLowerCase`.
`Wrappers.dfy` holds `Option` and `Result`.

The comment at MilesVenomStrike.tsx:68 says the combo resets "after 2 seconds
of no hits", but the code never cancels an earlier reset: see the second
finding below.

Several panel scenes in `App.tsx` use a keyword that belongs to an earlier rule
of the same voice. For those panels the caption service returns the earlier
rule's beat, and its sound differs from the panel's own onomatopoeia. This
happens in:

- Miles's leap and hero panels, where "Brooklyn" answers first;
- Peni's battle and hero panels, where "SP//dr" answers first.

`App.HeroPanelGetsPowersBeat` proves the Miles hero case. This is not listed
under Findings, because the intended fix is not evident: a different
scene, or a different rule order.

## Model

| member | source | states |
|---|---|---|
| Types.ParseMode | types.ts:5 | reading a mode string gives the mode with that spelling, and no mode for any other string |
| Types.ParsePhase | types.ts:3 | reading a phase string gives the phase with that spelling, and no phase for any other string |
| Types.ToUpper | components/Story/GwenWebSwing.tsx:57 | upper-casing keeps the length, maps every character through the ASCII upper-case map, and leaves no lower-case ASCII letter |
| Types.ToLower | services/geminiService.ts:50 | lower-casing keeps the length, maps every character through the ASCII lower-case map, and leaves no upper-case ASCII letter |
| Types.CaseMappingIdempotent | services/geminiService.ts:50 | both case mappings are idempotent, and lower-casing an upper-cased string equals lower-casing the original |
| ThemeContext.Config | context/ThemeContext.tsx:15-121 | `CONFIGS[mode]` is the configuration of that universe, with its name, id and spider-person |
| ThemeContext.IndexOf | context/ThemeContext.tsx:141 | `ALL_MODES.indexOf(mode)` is a valid index (never -1) whose entry is the mode |
| ThemeContext.AllModesDistinct | context/ThemeContext.tsx:123 | the five modes of `ALL_MODES` are pairwise distinct |
| ThemeContext.NextMode | context/ThemeContext.tsx:140-144 | the next mode sits one place further in `ALL_MODES`, wrapping from the last to the first |
| ThemeContext.NextModeChanges | context/ThemeContext.tsx:140-144 | the mode `cycleMode` asks for always differs from the current one, so cycling never hits the `newMode === mode` no-op |
| ThemeContext.CycleIndex | context/ThemeContext.tsx:140-144 | `n` cycles move the index by `n` modulo five |
| ThemeContext.FiveCyclesReturn | context/ThemeContext.tsx:140-144 | cycling has period five: five more cycles land on the same mode |
| ThemeContext.CycleVisitsEveryMode | context/ThemeContext.tsx:140-144 | every universe is reached from any other in fewer than five cycles |
| ThemeContext.SetModeStep | context/ThemeContext.tsx:129-138 | `setMode` on the current mode changes nothing; on another mode it raises the flag and schedules the switch, keeping the visible mode |
| ThemeContext.SwitchStep | context/ThemeContext.tsx:134-137 | the 300 ms timeout applies the oldest scheduled mode and schedules one flag-lowering timeout |
| ThemeContext.EndStep | context/ThemeContext.tsx:136 | the 800 ms timeout lowers the flag and leaves the mode alone |
| ThemeContext.CycleModeStep | context/ThemeContext.tsx:140-144 | `cycleMode` always raises the flag and schedules a switch to the next mode of `ALL_MODES`, keeping the visible mode and the pending ends |
| ThemeContext.InitialInv | context/ThemeContext.tsx:126-127 | the provider starts on peter, with the flag down and the invariant holding |
| ThemeContext.StepsPreserveInv | context/ThemeContext.tsx:129-144 | every call and timeout keeps the invariant that the flag is down when no timeout is outstanding |
| ThemeContext.CycleKeepsModeUntilSwitch | context/ThemeContext.tsx:129-144 | from rest, `cycleMode` keeps the visible mode until the switch timeout, which shows the next, different mode |
| ThemeContext.TwoPhaseTransition | context/ThemeContext.tsx:129-138 | from rest, `setMode` raises the flag at once, the first timeout changes the mode, and the second lowers the flag and returns to rest |
| ThemeContext.FlagCanDropBeforeSwitch | context/ThemeContext.tsx:129-138 | with overlapping `setMode` calls, the first call's end timeout lowers the flag while the second switch is still pending |
| ThemeContext.UseTheme | context/ThemeContext.tsx:155-161 | `useTheme` returns the provider's value, or fails with the provider-missing error outside a provider |
| ThemeContext.ThemeProvider.CurrentConfig | context/ThemeContext.tsx:146 | the current configuration belongs to the current mode |
| ThemeContext.ThemeProvider.constructor | context/ThemeContext.tsx:126-127 | the provider's cells start in the initial state |
| ThemeContext.ThemeProvider.SetMode | context/ThemeContext.tsx:129-138 | updates the cells as `SetModeStep` and keeps the invariant |
| ThemeContext.ThemeProvider.CycleMode | context/ThemeContext.tsx:140-144 | updates the cells as `CycleModeStep` and keeps the invariant |
| ThemeContext.ThemeProvider.FireSwitch | context/ThemeContext.tsx:134-137 | updates the cells as `SwitchStep` and keeps the invariant |
| ThemeContext.ThemeProvider.FireEnd | context/ThemeContext.tsx:136 | updates the cells as `EndStep` and keeps the invariant |
| SuitCalibration.AudioMatch | components/Story/SuitCalibration.tsx:25-29 | the audio score is a percentage from 0 to 100, and 100 exactly on the target frequency 75 and amplitude 30 |
| SuitCalibration.OpticsMatch | components/Story/SuitCalibration.tsx:41-46 | the optics score is a percentage from 0 to 100, and 100 exactly on the target focus 85 and chromatic shift 20 |
| SuitCalibration.AudioLockCondition | components/Story/SuitCalibration.tsx:29-32 | on integer sliders, an audio score above 95 means the two audio deviations add up to at most 3, and conversely |
| SuitCalibration.OpticsLockCondition | components/Story/SuitCalibration.tsx:46-49 | on integer sliders, an optics score above 96 means the two optics deviations add up to at most 3, and conversely |
| SuitCalibration.AudioMatchMonotone | components/Story/SuitCalibration.tsx:27-29 | moving an audio slider further from its target never raises the score |
| SuitCalibration.OpticsMatchMonotone | components/Story/SuitCalibration.tsx:44-46 | moving an optics slider further from its target never raises the score |
| SuitCalibration.AudioEffect | components/Story/SuitCalibration.tsx:23-36 | the audio effect does nothing outside the audio stage; in it, the effect stores the score and sets the lock once the score exceeds 95, touching nothing else |
| SuitCalibration.OpticsEffect | components/Story/SuitCalibration.tsx:39-53 | the optics effect does nothing outside the optics stage; in it, the effect stores the score and sets the lock once the score exceeds 96, touching nothing else |
| SuitCalibration.InitialState | components/Story/SuitCalibration.tsx:8-20 | after mounting, the sliders sit at 50/50 and 10/90, the audio score is 32.5, nothing is locked, and the invariant holds |
| SuitCalibration.Effects | components/Story/SuitCalibration.tsx:23-53 | the effects touch only scores and locks: the active stage's score is recomputed from its sliders, each lock is set when its stage's score passes the threshold and never cleared, and the complete stage is left alone |
| SuitCalibration.Step | components/Story/SuitCalibration.tsx:23-341 | a slider event changes only its own slider, and only when shown and unlocked; the stage timeout moves audio to optics and optics to complete, and nothing else moves the stage; the complete stage is final |
| SuitCalibration.StepPreservesInv | components/Story/SuitCalibration.tsx:23-53 | every slider change and stage timeout keeps the invariant: scores reflect their sliders, and each lock means that its stage was reached and its threshold passed |
| SuitCalibration.StageMovesForward | components/Story/SuitCalibration.tsx:32-51 | the stage only moves forward, by one stage per timeout and only after its lock; complete is terminal |
| SuitCalibration.LocksSetOnce | components/Story/SuitCalibration.tsx:32-51 | a lock is never cleared, and is set only by a change of its own stage's sliders that passes the threshold (or, for optics, by entering a stage already on target) |
| SuitCalibration.LockedSlidersReject | components/Story/SuitCalibration.tsx:246-341 | sliders of a locked or hidden stage do not change the state |
| SuitCalibration.ScoresFrozenOutsideStage | components/Story/SuitCalibration.tsx:24-40 | each score is recomputed only while its stage is active |
| SuitCalibration.AudioOnTarget | components/Story/SuitCalibration.tsx:23-36 | setting 75 and 30 from the start locks audio at score 100, and the timeout then opens the optics stage, unlocked |
| SuitCalibration.Calibration.constructor | components/Story/SuitCalibration.tsx:8-20 | the cells start in the state after the first render's effects |
| SuitCalibration.Calibration.RunEffects | components/Story/SuitCalibration.tsx:23-53 | the two effects update the cells as `Effects` does |
| SuitCalibration.Calibration.SetFrequency | components/Story/SuitCalibration.tsx:258-261 | the frequency slider updates the cells as the step function does and keeps the invariant |
| SuitCalibration.Calibration.SetAmplitude | components/Story/SuitCalibration.tsx:283-286 | the amplitude slider updates the cells as the step function does and keeps the invariant |
| SuitCalibration.Calibration.SetFocus | components/Story/SuitCalibration.tsx:313-316 | the focus slider updates the cells as the step function does and keeps the invariant |
| SuitCalibration.Calibration.SetChromatic | components/Story/SuitCalibration.tsx:338-341 | the chromatic slider updates the cells as the step function does and keeps the invariant |
| SuitCalibration.Calibration.Advance | components/Story/SuitCalibration.tsx:34-51 | the 1500 ms timeout updates the cells as the step function does and keeps the invariant |
| NoirDetective.FoundCount | components/Story/NoirDetective.tsx:49-50 | the found count is at most the number of clues, equals it exactly when every clue is found, and is 0 exactly when none is |
| NoirDetective.FoundCountGrows | components/Story/NoirDetective.tsx:49 | more found clues, pointwise, never give a smaller count, and one newly found clue gives a larger one |
| NoirDetective.MarkFound | components/Story/NoirDetective.tsx:53-55 | marking a clue sets `found` on the clues with that id and changes nothing else |
| NoirDetective.Find | components/Story/NoirDetective.tsx:56 | `find` returns the first clue with the id, or nothing when no clue has that id |
| NoirDetective.MarkFoundIdempotent | components/Story/NoirDetective.tsx:53-55 | marking the same clue twice is marking it once |
| NoirDetective.MarkFoundCount | components/Story/NoirDetective.tsx:53-55 | marking never lowers the found count, and raises it for an unfound clue |
| NoirDetective.ClickClueStep | components/Story/NoirDetective.tsx:111-127 | a click on a hidden or disabled hotspot changes nothing |
| NoirDetective.ClosePopupStep | components/Story/NoirDetective.tsx:141-160 | [CLOSE], rendered only in the investigation, clears the popup and nothing else; outside the investigation it changes nothing |
| NoirDetective.MakeDeductionStep | components/Story/NoirDetective.tsx:98-106 | the deduction phase follows exactly when it was already on, or the investigation has every clue found; nothing but the phase changes |
| NoirDetective.AnswerStep | components/Story/NoirDetective.tsx:60-64 | in the deduction phase an option records its index, is correct exactly for option 1 and shows the result, keeping the clues; elsewhere nothing changes |
| NoirDetective.ResetStep | components/Story/NoirDetective.tsx:66-71 | on the result screen a reset restores the case's clues, clears popup and answer, returns to the investigation and leaves `isCorrect`; elsewhere nothing changes |
| NoirDetective.ResultScreen | components/Story/NoirDetective.tsx:218-250 | a verdict is shown exactly on the result screen, and it is CASE CLOSED exactly when the answer was correct |
| NoirDetective.MarkFoundSameCase | components/Story/NoirDetective.tsx:53-55 | marking keeps the case's clues in order, each changed in `found` only |
| NoirDetective.InitialInv | components/Story/NoirDetective.tsx:43-47 | the game starts investigating, with no clue found, and the invariant holds |
| NoirDetective.ClickFindsClue | components/Story/NoirDetective.tsx:52-58 | on an enabled hotspot, `find` sees the clicked clue and the popup shows it marked found |
| NoirDetective.ClickClueEffect | components/Story/NoirDetective.tsx:52-58 | a click finds exactly the clicked clue, raises the count, shows the clue in the popup and keeps the phase |
| NoirDetective.StepsPreserveInv | components/Story/NoirDetective.tsx:52-71 | every event keeps the invariant |
| NoirDetective.FoundCountMonotone | components/Story/NoirDetective.tsx:52-71 | only a reset lowers the found count |
| NoirDetective.DeduceOnlyWhenAllFound | components/Story/NoirDetective.tsx:98-106 | the deduction phase is entered only from the investigation, and only with every clue found |
| NoirDetective.AnswerEffect | components/Story/NoirDetective.tsx:60-64 | an answer is recorded; it is correct exactly for option 1, and the result screen follows |
| NoirDetective.VerdictMatchesAnswer | components/Story/NoirDetective.tsx:218-229 | the result screen shows CASE CLOSED exactly for the correct answer, and WRONG LEAD otherwise |
| NoirDetective.ResetEffect | components/Story/NoirDetective.tsx:66-71 | a reset unfinds every clue, clears the popup and the answer, and returns to the investigation |
| NoirDetective.CaseIdsDistinct | components/Story/NoirDetective.tsx:26-31 | the four clue ids are pairwise distinct |
| NoirDetective.ClickCaseClue | components/Story/NoirDetective.tsx:52-58 | clicking the k-th clue's hotspot finds that clue and no other |
| NoirDetective.FindAllClues | components/Story/NoirDetective.tsx:52-58 | clicking the remaining hotspots in order finds them all, which unlocks the deduction |
| NoirDetective.WrongLeadScenario | components/Story/NoirDetective.tsx:218-229 | with every clue found, deducing and picking option 0 shows WRONG LEAD, and TRY AGAIN restarts with no clue found |
| NoirDetective.Detective.FoundClues | components/Story/NoirDetective.tsx:49-50 | the HUD counter is at most 4 |
| NoirDetective.Detective.constructor | components/Story/NoirDetective.tsx:43-47 | the cells start in the initial state |
| NoirDetective.Detective.HandleClueClick | components/Story/NoirDetective.tsx:52-58 | updates the cells as `ClickClueStep` and keeps the invariant |
| NoirDetective.Detective.ClosePopup | components/Story/NoirDetective.tsx:157 | updates the cells as `ClosePopupStep` and keeps the invariant |
| NoirDetective.Detective.MakeDeduction | components/Story/NoirDetective.tsx:102 | updates the cells as `MakeDeductionStep` and keeps the invariant |
| NoirDetective.Detective.HandleAnswer | components/Story/NoirDetective.tsx:60-64 | updates the cells as `AnswerStep` and keeps the invariant |
| NoirDetective.Detective.ResetGame | components/Story/NoirDetective.tsx:66-71 | updates the cells as `ResetStep` and keeps the invariant |
| GwenWebSwing.FindKey | components/Story/GwenWebSwing.tsx:58 | `findIndex` returns the first entry at or after `from` with the key, or nothing when no such entry exists |
| GwenWebSwing.KeyColor | components/Story/GwenWebSwing.tsx:57-61 | a key names a colour exactly when its upper-case form is a key of the table; the colour is that entry's |
| GwenWebSwing.ClickColorStep | components/Story/GwenWebSwing.tsx:30-31 | a click outside a running game changes nothing |
| GwenWebSwing.KeyDownStep | components/Story/GwenWebSwing.tsx:54-61 | a key press outside a running game, or on a key outside the table, changes nothing |
| GwenWebSwing.StartStep | components/Story/GwenWebSwing.tsx:212 | the start button is absent during a game, so starting then changes nothing |
| GwenWebSwing.GameOverMessage | components/Story/GwenWebSwing.tsx:228 | the closing line switches at scores 200 and 100 |
| GwenWebSwing.InitialInv | components/Story/GwenWebSwing.tsx:15-23 | the game starts on the start screen, with score 0, a full bar and the invariant holding |
| GwenWebSwing.StepsPreserveInv | components/Story/GwenWebSwing.tsx:30-95 | every event keeps the invariant: time within 0 to 100, the best covering every finished game, and 10 points at least per round won |
| GwenWebSwing.ClickEffect | components/Story/GwenWebSwing.tsx:33-47 | a right colour scores 10 plus twice the streak, extends the streak and the round, adds 5 to the bar, capped at 100, and draws a new colour; a wrong one zeroes the streak and takes 20 from the bar, down to 0 |
| GwenWebSwing.KeyActsAsClick | components/Story/GwenWebSwing.tsx:53-61 | pressing A, S, D or F, in either case, acts exactly as clicking that key's colour |
| GwenWebSwing.OtherKeysIgnored | components/Story/GwenWebSwing.tsx:59 | keys outside the table do nothing |
| GwenWebSwing.GameOverOnlyOnTick | components/Story/GwenWebSwing.tsx:30-95 | only the countdown ends a game; clicks and keys never lower the score, and only the end of a game changes the best |
| GwenWebSwing.TickStep | components/Story/GwenWebSwing.tsx:72-82 | a tick keeps score, streak, round, colour, the started flag and the best the game began with; it ends the game exactly at time 1 or less, emptying the bar and raising the best to cover both the score and the old best; otherwise it takes one from the bar and keeps the best |
| GwenWebSwing.TickEndsGame | components/Story/GwenWebSwing.tsx:72-81 | a tick ends the game exactly at time 1 or less, setting the best to the larger of the best and the score; otherwise it takes one from the bar |
| GwenWebSwing.ClockRunsOut | components/Story/GwenWebSwing.tsx:68-85 | without input, a game ends after `timeLeft` ticks (one tick when the bar is already empty), with the score kept and the best raised to it |
| GwenWebSwing.RunClockStops | components/Story/GwenWebSwing.tsx:70 | once a game is over, further ticks change nothing |
| GwenWebSwing.BannerAsWritten | components/Story/GwenWebSwing.tsx:225 | as written, NEW HIGH SCORE exactly when the score exceeds `highScore`, otherwise `Best` with `highScore` |
| GwenWebSwing.BannerCorrected | components/Story/GwenWebSwing.tsx:225 | corrected, NEW HIGH SCORE exactly when the score exceeds the best the game began with, otherwise `Best` with `highScore` |
| GwenWebSwing.BannerAsWrittenNeverNew | components/Story/GwenWebSwing.tsx:225 | as written, at game over the banner always shows `Best` and never NEW HIGH SCORE |
| GwenWebSwing.BannerAsWrittenMissesRecord | components/Story/GwenWebSwing.tsx:73-79 | a first game that scores at all sets a record, yet as written the banner shows `Best`; the corrected banner announces the record |
| GwenWebSwing.BannerCorrectedAtGameOver | components/Story/GwenWebSwing.tsx:225 | the corrected banner announces a new high score exactly when the game beat the best it began with |
| GwenWebSwing.BestFixedDuringGame | components/Story/GwenWebSwing.tsx:30-85 | during a game the best stays the one the game began with |
| GwenWebSwing.StartEffect | components/Story/GwenWebSwing.tsx:87-95 | starting resets score, streak, round and bar, keeps the best and draws a colour |
| GwenWebSwing.WebSwing.Banner | components/Story/GwenWebSwing.tsx:225 | the component's (corrected) banner is NEW HIGH SCORE exactly when the score beat the best before the game |
| GwenWebSwing.WebSwing.constructor | components/Story/GwenWebSwing.tsx:15-23 | the cells start in the initial state |
| GwenWebSwing.WebSwing.PickRandomColor | components/Story/GwenWebSwing.tsx:25-28 | the draw sets the current colour to that entry's colour and changes nothing else |
| GwenWebSwing.WebSwing.HandleColorClick | components/Story/GwenWebSwing.tsx:30-50 | updates the cells as `ClickColorStep` and keeps the invariant |
| GwenWebSwing.WebSwing.HandleKeyDown | components/Story/GwenWebSwing.tsx:53-66 | updates the cells as `KeyDownStep` and keeps the invariant |
| GwenWebSwing.WebSwing.Tick | components/Story/GwenWebSwing.tsx:72-82 | updates the cells as `TickStep` and keeps the invariant |
| GwenWebSwing.WebSwing.StartGame | components/Story/GwenWebSwing.tsx:87-95 | updates the cells as `StartStep` and keeps the invariant |
| MilesVenomStrike.RemoveEnemy | components/Story/MilesVenomStrike.tsx:64 | the filter keeps exactly the enemies with another id, shrinks the list when the id is present, and changes nothing when it is absent |
| MilesVenomStrike.RemoveEnemyDistinct | components/Story/MilesVenomStrike.tsx:64 | on distinct ids, the filter keeps them distinct and removes exactly one enemy when the id is present |
| MilesVenomStrike.StartStep | components/Story/MilesVenomStrike.tsx:72-80 | starting outside a game zeroes score and combo, fills the charge to 100, sets 30 seconds and clears the enemies, but keeps pending combo resets; during a game the button is absent and starting changes nothing |
| MilesVenomStrike.SpawnStep | components/Story/MilesVenomStrike.tsx:21-29 | a spawn appends one enemy with the next fresh id, health 1, x in [10, 90) and y in [20, 80), keeps the earlier enemies and changes nothing else |
| MilesVenomStrike.CountdownStep | components/Story/MilesVenomStrike.tsx:35-43 | a tick ends the game exactly at 1 second or less, with time 0, and otherwise takes one second off; nothing else changes |
| MilesVenomStrike.RechargeStep | components/Story/MilesVenomStrike.tsx:54-56 | a recharge adds 5 up to 95, fills to 100 above that, and changes nothing else |
| MilesVenomStrike.StrikeStepAsWritten | components/Story/MilesVenomStrike.tsx:60-70 | as written, a strike on a disabled or absent button changes nothing; an enabled one, also after the game is over, costs 20 charge, scores 100 times the extended combo, removes exactly the struck enemy, keeps clock, flags and id counter, and queues a reset for the new hit behind the pending ones |
| MilesVenomStrike.StrikeStep | components/Story/MilesVenomStrike.tsx:60-70 | corrected, as above, except that the new hit's reset replaces the pending ones |
| MilesVenomStrike.ComboTimeoutStep | components/Story/MilesVenomStrike.tsx:69 | the oldest pending reset fires: the combo becomes 0, that reset leaves the queue, and nothing else changes |
| MilesVenomStrike.FinalMessage | components/Story/MilesVenomStrike.tsx:216 | the closing line switches at scores 2000 and 1000 |
| MilesVenomStrike.InitialInv | components/Story/MilesVenomStrike.tsx:13-19 | the game starts on the start screen, with full charge, no enemies and the invariant holding |
| MilesVenomStrike.SpawnEffect | components/Story/MilesVenomStrike.tsx:21-29 | a spawn appends one enemy with a fresh id, at x in [10, 90) and y in [20, 80) |
| MilesVenomStrike.StepsPreserveInv | components/Story/MilesVenomStrike.tsx:21-80 | every event keeps the invariant (charge ≤ 100, time ≤ 30, distinct ids, scores in hundreds), and the corrected strike keeps at most one reset pending, for the latest hit |
| MilesVenomStrike.StrikeEffect | components/Story/MilesVenomStrike.tsx:60-67 | a strike costs 20 charge, removes exactly the struck enemy, scores 100 times the combo it extends, extends the combo, and leaves the clock and the game's started and over flags |
| MilesVenomStrike.StrikeAsWrittenEffect | components/Story/MilesVenomStrike.tsx:60-70 | the strike as written costs 20 charge, removes exactly the struck enemy, scores 100 times the combo it extends, extends the combo, and leaves clock, flags and id counter |
| MilesVenomStrike.StrikesDifferOnlyInTimers | components/Story/MilesVenomStrike.tsx:60-70 | the as-written and corrected strikes agree on everything but the pending combo resets |
| MilesVenomStrike.StrikeAfterGameOver | components/Story/MilesVenomStrike.tsx:60-70 | after the clock runs out, an enemy left on the field can still be struck by keyboard: the final score rises by 100 times the extended combo, the charge drops by 20, and the game stays over |
| MilesVenomStrike.StrikeNeedsCharge | components/Story/MilesVenomStrike.tsx:61-63 | with charge below 20 (the button is disabled), or on an enemy without a button, a strike changes nothing |
| MilesVenomStrike.ComboScoring | components/Story/MilesVenomStrike.tsx:65-66 | two hits in a row score 100(c+1) and then 100(c+2) |
| MilesVenomStrike.CountdownEndsGame | components/Story/MilesVenomStrike.tsx:35-43 | only the countdown ends a game, exactly when it ticks at 1 second or less; otherwise it takes one second off |
| MilesVenomStrike.RechargeEffect | components/Story/MilesVenomStrike.tsx:54-56 | a recharge adds 5, capped at 100 |
| MilesVenomStrike.NoStaleReset | components/Story/MilesVenomStrike.tsx:60-80 | corrected: in a state the corrected strike keeps, no pending reset is stale, and none is after any strike, start, timeout, countdown or recharge |
| MilesVenomStrike.StaleResetAsWritten | components/Story/MilesVenomStrike.tsx:69 | as written, two hits in a row leave the first hit's reset pending, and it zeroes the combo while the second hit's reset is still pending |
| MilesVenomStrike.StaleResetReachable | components/Story/MilesVenomStrike.tsx:60-69 | two enemies and 40 charge are enough for both strikes of the as-written scenario |
| MilesVenomStrike.VenomStrike.constructor | components/Story/MilesVenomStrike.tsx:13-19 | the cells start in the initial state |
| MilesVenomStrike.VenomStrike.SpawnEnemy | components/Story/MilesVenomStrike.tsx:21-29 | updates the cells as `SpawnStep` and keeps the invariant |
| MilesVenomStrike.VenomStrike.Countdown | components/Story/MilesVenomStrike.tsx:35-43 | updates the cells as `CountdownStep` and keeps the invariant |
| MilesVenomStrike.VenomStrike.Recharge | components/Story/MilesVenomStrike.tsx:54-56 | updates the cells as `RechargeStep` and keeps the invariant |
| MilesVenomStrike.VenomStrike.HandleVenomStrike | components/Story/MilesVenomStrike.tsx:60-70 | updates the cells as the corrected `StrikeStep` and keeps the invariant |
| MilesVenomStrike.VenomStrike.ComboTimeout | components/Story/MilesVenomStrike.tsx:69 | updates the cells as `ComboTimeoutStep` and keeps the invariant |
| MilesVenomStrike.VenomStrike.StartGame | components/Story/MilesVenomStrike.tsx:72-80 | updates the cells as `StartStep` and keeps the invariant |
| WebShooter.HitCount | components/Story/WebShooter.tsx:26 | the hit count is at most the number of targets, equals it exactly when all are hit, and is 0 exactly when none is |
| WebShooter.MarkHit | components/Story/WebShooter.tsx:17 | a shot sets `hit` on the targets with that id and changes nothing else |
| WebShooter.ClearHits | components/Story/WebShooter.tsx:22 | a reset clears every `hit` and keeps the rest of each target |
| WebShooter.HitCountOneMore | components/Story/WebShooter.tsx:17-18 | one more hit target, pointwise, is exactly one more in the count |
| WebShooter.HitCountSame | components/Story/WebShooter.tsx:26 | equal hit flags give equal counts |
| WebShooter.ShootStep | components/Story/WebShooter.tsx:112-113 | a shot at a target that is already hit (disabled) or absent changes nothing |
| WebShooter.InitialInv | components/Story/WebShooter.tsx:8-14 | the range starts with no target hit, score 0 and the invariant holding |
| WebShooter.TargetIdsDistinct | components/Story/WebShooter.tsx:8-13 | the four target ids are pairwise distinct |
| WebShooter.ShootEffect | components/Story/WebShooter.tsx:16-19 | a shot hits exactly the targeted target and scores 100 |
| WebShooter.ResetStep | components/Story/WebShooter.tsx:21-24 | a reset keeps every target but its hit flag, clears every hit flag and sets the score to 0 |
| WebShooter.ResetEffect | components/Story/WebShooter.tsx:21-24 | a reset returns the range exactly to its first state |
| WebShooter.StepsPreserveInv | components/Story/WebShooter.tsx:16-24 | every event keeps the invariant that the score is 100 per hit target; a shot never lowers the score |
| WebShooter.VictoryAtFullScore | components/Story/WebShooter.tsx:26 | the victory screen shows exactly when the score is 400 |
| WebShooter.ShootAllWins | components/Story/WebShooter.tsx:16-26 | shooting the standing targets in order hits them all, 100 points each |
| WebShooter.Range.AllTargetsHit | components/Story/WebShooter.tsx:26 | `allHit` holds exactly when the score is 400 |
| WebShooter.Range.constructor | components/Story/WebShooter.tsx:8-14 | the cells start in the initial state |
| WebShooter.Range.HandleShoot | components/Story/WebShooter.tsx:16-19 | updates the cells as `ShootStep` and keeps the invariant |
| WebShooter.Range.ResetGame | components/Story/WebShooter.tsx:21-24 | updates the cells as `ResetStep` and keeps the invariant |
| GeminiService.Quotes | services/geminiService.ts:5-43 | each voice has five quotes |
| GeminiService.Rules | services/geminiService.ts:53-120 | each voice has three keyword rules |
| GeminiService.FirstMatch | services/geminiService.ts:53-120 | the rule found is the first rule, from the given index on, whose keywords occur in the scene; none is found only when no rule matches |
| GeminiService.GetStoryBeat | services/geminiService.ts:47-124 | an unknown phase gets the default beat; a known phase gets the beat of one of its voice's rules or the drawn quote with the voice's sound |
| GeminiService.StoryBeatSpec | services/geminiService.ts:47-124 | an unknown phase gets the default beat; a known phase gets its voice's first matching rule's beat, or else the drawn quote with the voice's sound |
| GeminiService.StoryBeatIgnoresCase | services/geminiService.ts:50 | the scene's letter case does not change the beat |
| GeminiService.OriginAndHeroAgree | services/geminiService.ts:53 | the origin and hero phases are answered alike, in Peter's voice |
| GeminiService.StoryBeatInVoice | services/geminiService.ts:53-120 | every beat for a known phase comes from its own voice: a rule's beat, or one of its quotes |
| GeminiService.DefaultBeatUnused | services/geminiService.ts:53-123 | no rule of any voice gives the default beat, and no voice quotes the default caption |
| GeminiService.DefaultOnlyForUnknownPhase | services/geminiService.ts:47-124 | the default beat is returned exactly for a phase outside the six |
| GeminiService.ModeQuotes | services/geminiService.ts:129-137 | a mode's quote list is its voice's; an unknown mode gets Peter's |
| GeminiService.GenerateComicMonologue | services/geminiService.ts:126-139 | the monologue is one of the mode's quotes |
| GeminiService.MonologueCoversQuotes | services/geminiService.ts:137-138 | every quote of the mode can be drawn, and an unknown mode draws as peter does |
| GeminiService.Status | services/geminiService.ts:144-150 | each mode has three suit-status lines |
| GeminiService.ModeStatus | services/geminiService.ts:144-152 | a mode's status lines are its own; an unknown mode gets Peter's |
| GeminiService.GetSuitAnalysis | services/geminiService.ts:141-154 | the analysis is one of the mode's status lines |
| GeminiService.SuitAnalysisCoversStatus | services/geminiService.ts:152-153 | every status line of the mode can be drawn, and an unknown mode reads as peter does |
| App.ModeSections | App.tsx:57-96 | each universe has six sections |
| App.GetSectionsForMode | App.tsx:53-100 | a mode's sections are that universe's, with its images; an unknown mode gets Peter's |
| App.PageShape | App.tsx:57-96 | every page is cover, panel, game, panel, game, panel, with distinct section ids |
| App.SectionsInOwnVoice | App.tsx:57-96 | every section after the cover is told in the universe's own caption voice |
| App.GetGameComponent | App.tsx:352-376 | a section mounts either the calibration or its universe's own game, and the `calibration` section always the calibration |
| App.PageGames | App.tsx:352-376 | each page mounts its universe's own game once and the calibration otherwise; Peter's page mounts them in the other order |
| App.CalibrationEverywhere | App.tsx:354 | the `calibration` section mounts the calibration in every universe |
| App.SignatureGameOnlyByItsId | App.tsx:352-376 | a section mounts either the calibration or the universe's own game, and its own game exactly for the universe's game id |
| App.HeroPanelGetsPowersBeat | App.tsx:53-100 | Miles's hero panel gets the "powers" beat of the first Miles rule, whose sound is not the panel's onomatopoeia |

## Left out

- Rendering, styling and animation are not modelled: JSX, framer-motion, colour tables, fonts, accent colours and the onomatopoeia positions. The configurations keep only mode, universe name, id, spider-person and style.
- Timers are explicit events. The model keeps the order of the pending timeouts but not their durations. The delay awaited at the start of each service function is left out, as is `ComicCaption`'s `mounted` flag.
- `Math.random()` and `Date.now()` are parameters or a counter (see above). Enemy ids come from a counter and are never equal, whereas the source's float ids could in principle collide.
- `navigator.vibrate`, scrolling and Gwen's 200 ms feedback flash are left out, because they are side effects with no bearing on the game state.
- The `PeniMechBattle` game is not part of this model, and neither are the other display components (captions, headers, selector, feature boxes): they hold no logic beyond rendering.
- Types.ToUpper, Types.ToLower: map only the ASCII letters. JavaScript's full Unicode case mapping (for instance `'ſ'.toUpperCase() === 'S'`) is not modelled.
- GeminiService.ModeQuotes, GeminiService.ModeStatus, App.GetSectionsForMode: a mode string is the mode only for the five exact spellings. The JavaScript prototype keys that `Record` lookups would also find are not modelled (`"constructor"`, for instance, is truthy in `quotes["constructor"]`).
- GwenWebSwing.WebSwing.Banner: the component shows the corrected banner. It keeps the model-only field `bestBeforeGame` so that it can. The as-written banner is the function `GwenWebSwing.BannerAsWritten`.
- MilesVenomStrike.VenomStrike.HandleVenomStrike: follows the corrected strike, which cancels an earlier pending reset. The as-written strike is the function `MilesVenomStrike.StrikeStepAsWritten`, and the invariant lemma covers both.
- MilesVenomStrike.StartStep: as in the source, starting a game does not cancel combo resets left over from the previous game.
- WebShooter.ShootStep, WebShooter.ResetStep: once every target is hit, the victory overlay (`absolute inset-0`, `z-40`, WebShooter.tsx:168-172) covers the targets and the REBOOT_SYSTEM button (`z-30`, WebShooter.tsx:74-81), so neither can be clicked then. A shot needs no guard, because every target button is disabled by then. A reset is left unguarded, because the button stays enabled and can still be reached by keyboard focus; the model does not distinguish pointer from keyboard activation.
- MilesVenomStrike.StrikeStep, MilesVenomStrike.StrikeStepAsWritten, MilesVenomStrike.StrikeNeedsCharge: a strike acts only on an enemy still on the field, with the current charge and combo. An enemy button that is fading out in its `AnimatePresence` exit animation (MilesVenomStrike.tsx:157-163) keeps its last `onClick`, whose closure holds the charge and combo of an earlier render. A second click on it would strike again without removing anything, and could take the charge below 0. The model does not capture these stale-closure strikes.
- SuitCalibration.AudioMatch, SuitCalibration.OpticsMatch: the JavaScript floating-point scores are exact reals. No lock decision changes: the slider values are integers, and the scores nearest the thresholds are 95.5 and 94 for audio (deviations 3 and 4) and 96.4 and 95.2 for optics, all well away from 95 and 96.
- The keyword shadowing on the Miles leap panel and on the two Peni panels is described in prose above; only Miles's hero panel has a lemma.

## Findings

| source | as written | input that shows it | evidently intended | confidence | as-written member | corrected member |
|---|---|---|---|---|---|---|
| components/Story/GwenWebSwing.tsx:225 | the game-over banner shows NEW HIGH SCORE when `score > highScore`, but the countdown has already set `highScore` to `max(highScore, score)` (line 77) | first game: one correct match (10 points), then the clock runs out; the banner shows "Best: 10" | announce a new high score when the game beat the best it started with | not executed | GwenWebSwing.BannerAsWrittenMissesRecord | GwenWebSwing.BannerCorrectedAtGameOver |
| components/Story/MilesVenomStrike.tsx:69 | every hit schedules its own `setCombo(0)` two seconds later, and earlier ones are never cancelled | two hits 1.5 s apart: the first hit's timeout zeroes the combo 0.5 s after the second hit | the combo resets two seconds after the latest hit, as the comment on line 68 says | not executed | MilesVenomStrike.StaleResetAsWritten | MilesVenomStrike.NoStaleReset |
