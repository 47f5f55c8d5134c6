/**
 * Gwen's colour-match rhythm game: match the shown colour by button or by the
 * A/S/D/F keys before the timer bar runs out; streaks are worth more points.
 *
 * The 100 ms countdown interval is an explicit `Tick` event that exists only
 * while a game runs. `Math.random` is the parameter `r < 4`, the index of the
 * next colour. The 200 ms feedback flash is presentation and is not modelled.
 */
module GwenWebSwing {
  import opened Wrappers
  import opened Types

  datatype Color = Pink | Cyan | Yellow | White

  datatype ColorEntry = ColorEntry(color: Color, key: string)

  /** The `COLORS` table: each colour with its key. */
  const Colors: seq<ColorEntry> := [
    ColorEntry(Pink, "A"),
    ColorEntry(Cyan, "S"),
    ColorEntry(Yellow, "D"),
    ColorEntry(White, "F")
  ]

  /** `pickRandomColor()` for the draw `r`. */
  function PickColor(r: nat): Color
    requires r < |Colors|
  {
    Colors[r].color
  }

  /** `COLORS.findIndex(c => c.key === key)`, searching from index `from`. */
  function FindKey(key: string, from: nat): (r: Option<nat>)
    requires from <= |Colors|
    ensures r.Some? ==> (from <= r.value < |Colors| && Colors[r.value].key == key &&
      forall j :: from <= j < r.value ==> Colors[j].key != key)
    ensures r.None? ==> forall j :: from <= j < |Colors| ==> Colors[j].key != key
    decreases |Colors| - from
  {
    if from == |Colors| then None
    else if Colors[from].key == key then Some(from)
    else FindKey(key, from + 1)
  }

  /** The colour a key press asks for: the entry whose key is the pressed key in upper case. */
  function KeyColor(key: string): (r: Option<Color>)
    ensures r.Some? <==> exists j :: 0 <= j < |Colors| && Colors[j].key == ToUpper(key)
    ensures forall j :: 0 <= j < |Colors| && Colors[j].key == ToUpper(key) ==> r == Some(Colors[j].color)
  {
    var i := FindKey(ToUpper(key), 0);
    if i.Some? then Some(Colors[i.value].color) else None
  }

  /**
   * The component's state. `bestBefore` is not a state cell of the component:
   * it is the best score when the running game began, the value the game-over
   * banner means to compare with (see `BannerCorrected`).
   */
  datatype State = State(
    gameStarted: bool,
    gameOver: bool,
    score: nat,
    highScore: nat,
    currentColor: Color,
    timeLeft: nat,
    streak: nat,
    round: nat,
    bestBefore: nat)

  const Initial: State := State(false, false, 0, 0, Pink, 100, 0, 1, 0)

  /** The colour buttons, the key handler and the countdown are live only while a game runs. */
  predicate Playing(s: State) {
    s.gameStarted && !s.gameOver
  }

  /**
   * The game's invariant: the timer bar stays within 0..100; a finished game
   * has run its clock out and its score is counted in the best; the best never
   * falls below the best a game began with; every round after the first was
   * won by a correct match worth at least 10 points, and the streak counts only
   * such rounds.
   */
  predicate Inv(s: State) {
    && s.timeLeft <= 100
    && (s.gameOver ==> s.gameStarted && s.timeLeft == 0 && s.score <= s.highScore)
    && s.bestBefore <= s.highScore
    && s.round >= 1
    && s.streak <= s.round - 1
    && 10 * (s.round - 1) <= s.score
  }

  /** `handleColorClick(clickedColor)`, with `r` the draw for the next colour. */
  function ClickColorStep(s: State, clicked: Color, r: nat): (t: State)
    requires r < |Colors|
    ensures !Playing(s) ==> t == s
  {
    if !Playing(s) then s
    else if clicked == s.currentColor then
      s.(score := s.score + 10 + s.streak * 2,
         streak := s.streak + 1,
         timeLeft := if s.timeLeft + 5 < 100 then s.timeLeft + 5 else 100,
         round := s.round + 1,
         currentColor := PickColor(r))
    else
      s.(streak := 0, timeLeft := if s.timeLeft < 20 then 0 else s.timeLeft - 20)
  }

  /** The window's `keydown` handler: a key of the table acts as a click on its colour. */
  function KeyDownStep(s: State, key: string, r: nat): (t: State)
    requires r < |Colors|
    ensures !Playing(s) || KeyColor(key).None? ==> t == s
  {
    if !Playing(s) then s
    else
      match KeyColor(key)
      case Some(c) => ClickColorStep(s, c, r)
      case None => s
  }

  /** One 100 ms tick of the countdown interval. */
  function TickStep(s: State): (t: State)
    requires Playing(s)
    ensures t.score == s.score && t.streak == s.streak && t.round == s.round && t.currentColor == s.currentColor
    ensures t.gameStarted == s.gameStarted && t.bestBefore == s.bestBefore
    ensures t.gameOver <==> s.timeLeft <= 1
    ensures t.gameOver ==>
      t.timeLeft == 0 && s.score <= t.highScore && s.highScore <= t.highScore &&
      (t.highScore == s.score || t.highScore == s.highScore)
    ensures !t.gameOver ==> t.timeLeft == s.timeLeft - 1 && t.highScore == s.highScore
  {
    var newTime := s.timeLeft - 1;
    if newTime <= 0 then
      s.(gameOver := true, highScore := if s.highScore < s.score then s.score else s.highScore, timeLeft := 0)
    else s.(timeLeft := newTime)
  }

  /** `startGame()` on the START!/PLAY AGAIN button, shown only on the start and game-over screens. */
  function StartStep(s: State, r: nat): (t: State)
    requires r < |Colors|
    ensures Playing(s) ==> t == s
  {
    if Playing(s) then s
    else
      s.(gameStarted := true, gameOver := false, score := 0, streak := 0, timeLeft := 100, round := 1,
         currentColor := PickColor(r), bestBefore := s.highScore)
  }

  datatype Banner = NewHighScore | Best(best: nat)

  /** The game-over banner as written: NEW HIGH SCORE when the score exceeds `highScore`. */
  function BannerAsWritten(s: State): (b: Banner)
    ensures b == NewHighScore <==> s.score > s.highScore
    ensures b.Best? ==> b.best == s.highScore
  {
    if s.score > s.highScore then NewHighScore else Best(s.highScore)
  }

  /** The banner as evidently intended: NEW HIGH SCORE when the game beat the best it began with. */
  function BannerCorrected(s: State): (b: Banner)
    ensures b == NewHighScore <==> s.score > s.bestBefore
    ensures b.Best? ==> b.best == s.highScore
  {
    if s.score > s.bestBefore then NewHighScore else Best(s.highScore)
  }

  /** The game-over line for the final score. */
  function GameOverMessage(score: nat): (m: string)
    ensures score >= 200 <==> m == "Amazing reflexes! \U{1F577}\U{FE0F}"
    ensures 100 <= score < 200 <==> m == "Great job!"
    ensures score < 100 <==> m == "Keep practicing!"
  {
    if score >= 200 then "Amazing reflexes! \U{1F577}\U{FE0F}"
    else if score >= 100 then "Great job!"
    else "Keep practicing!"
  }

  lemma InitialInv()
    ensures Inv(Initial) && !Playing(Initial) && Initial.score == 0 && Initial.timeLeft == 100
  {
  }

  /** Every event keeps the invariant. */
  lemma StepsPreserveInv(s: State, c: Color, key: string, r: nat)
    requires Inv(s) && r < |Colors|
    ensures Inv(ClickColorStep(s, c, r)) && Inv(KeyDownStep(s, key, r)) && Inv(StartStep(s, r))
    ensures Playing(s) ==> Inv(TickStep(s))
  {
  }

  /**
   * A correct match scores `10 + 2 * streak`, extends the streak, wins the
   * round and adds five ticks, capped at 100; a wrong one breaks the streak, costs
   * twenty ticks (down to zero) and scores nothing.
   */
  lemma ClickEffect(s: State, c: Color, r: nat)
    requires Inv(s) && Playing(s) && r < |Colors|
    ensures var t := ClickColorStep(s, c, r);
      Playing(t) && t.highScore == s.highScore &&
      (c == s.currentColor ==>
        t.score == s.score + 10 + 2 * s.streak && t.streak == s.streak + 1 && t.round == s.round + 1 &&
        t.timeLeft == (if s.timeLeft + 5 < 100 then s.timeLeft + 5 else 100) && t.currentColor == Colors[r].color) &&
      (c != s.currentColor ==>
        t.score == s.score && t.streak == 0 && t.round == s.round &&
        t.timeLeft == (if s.timeLeft < 20 then 0 else s.timeLeft - 20))
  {
  }

  /** A key press, in either case, acts exactly as a click on the colour of that key. */
  lemma KeyActsAsClick(s: State, j: nat, r: nat)
    requires j < |Colors| && r < |Colors|
    ensures KeyDownStep(s, Colors[j].key, r) == ClickColorStep(s, Colors[j].color, r)
    ensures KeyDownStep(s, ToLower(Colors[j].key), r) == ClickColorStep(s, Colors[j].color, r)
  {
    assert ToUpper(Colors[j].key) == Colors[j].key;
    assert ToUpper(ToLower(Colors[j].key)) == Colors[j].key;
  }

  /** Keys outside the table do nothing. */
  lemma OtherKeysIgnored(s: State, key: string, r: nat)
    requires r < |Colors| && forall j :: 0 <= j < |Colors| ==> ToUpper(key) != Colors[j].key
    ensures KeyDownStep(s, key, r) == s
  {
  }

  /** Only the countdown ends a game; clicks and keys never lower the score, and the best only changes at the end. */
  lemma GameOverOnlyOnTick(s: State, c: Color, key: string, r: nat)
    requires Inv(s) && r < |Colors|
    ensures !s.gameOver ==> !ClickColorStep(s, c, r).gameOver && !KeyDownStep(s, key, r).gameOver && !StartStep(s, r).gameOver
    ensures ClickColorStep(s, c, r).score >= s.score && KeyDownStep(s, key, r).score >= s.score
    ensures ClickColorStep(s, c, r).highScore == s.highScore && KeyDownStep(s, key, r).highScore == s.highScore
    ensures StartStep(s, r).highScore == s.highScore
  {
  }

  /** The tick that ends a game records the best of the old best and this game's score. */
  lemma TickEndsGame(s: State)
    requires Inv(s) && Playing(s)
    ensures TickStep(s).gameOver <==> s.timeLeft <= 1
    ensures TickStep(s).gameOver ==> (TickStep(s).score == s.score &&
      TickStep(s).highScore == (if s.highScore < s.score then s.score else s.highScore))
    ensures !TickStep(s).gameOver ==> TickStep(s).timeLeft == s.timeLeft - 1
  {
  }

  /** `n` ticks of the countdown, stopping when the game ends. */
  function RunClock(s: State, n: nat): State
    decreases n
  {
    if n == 0 || !Playing(s) then s else RunClock(TickStep(s), n - 1)
  }

  /** Without input, a running game ends after `timeLeft` ticks (one, if the bar is already empty). */
  lemma {:induction false} ClockRunsOut(s: State)
    requires Inv(s) && Playing(s)
    ensures var n := if s.timeLeft == 0 then 1 else s.timeLeft;
      var t := RunClock(s, n);
      t.gameOver && Inv(t) && t.score == s.score && t.bestBefore == s.bestBefore && t.highScore == (if s.highScore < s.score then s.score else s.highScore)
    decreases s.timeLeft
  {
    if s.timeLeft > 1 {
      ClockRunsOut(TickStep(s));
    }
  }

  /** As written, the banner can never announce a new high score: the best already includes the score. */
  lemma BannerAsWrittenNeverNew(s: State)
    requires Inv(s) && s.gameOver
    ensures BannerAsWritten(s) == Best(s.highScore)
  {
  }

  /** A record game: from a best of 0, one correct match and the clock running out. */
  lemma BannerAsWrittenMissesRecord(s: State, r: nat)
    requires Inv(s) && Playing(s) && s.highScore == 0 && s.bestBefore == 0 && r < |Colors|
    ensures var t := RunClock(ClickColorStep(s, s.currentColor, r), 101);
      t.gameOver && t.score >= 10 && t.highScore == t.score &&
      BannerAsWritten(t) == Best(t.score) && BannerCorrected(t) == NewHighScore
  {
    var a := ClickColorStep(s, s.currentColor, r);
    ClockRunsOut(a);
    var n := if a.timeLeft == 0 then 1 else a.timeLeft;
    RunClockStops(a, n, 101);
  }

  /** Ticking past the end of a game changes nothing. */
  lemma {:induction false} RunClockStops(s: State, n: nat, m: nat)
    requires n <= m && RunClock(s, n).gameOver
    ensures RunClock(s, m) == RunClock(s, n)
    decreases n
  {
    if n == 0 {
      assert !Playing(s);
    } else if Playing(s) {
      RunClockStops(TickStep(s), n - 1, m - 1);
    }
  }

  /**
   * The corrected banner at the end of a game announces a new high score
   * exactly when the game beat the best it began with, and shows the best
   * otherwise.
   */
  lemma BannerCorrectedAtGameOver(s: State)
    requires Inv(s) && Playing(s) && s.bestBefore == s.highScore && s.timeLeft <= 1
    ensures var t := TickStep(s);
      t.gameOver && (BannerCorrected(t) == NewHighScore <==> s.score > s.highScore) &&
      (s.score <= s.highScore ==> BannerCorrected(t) == Best(s.highScore))
  {
  }

  /** During a game the best is the best the game began with. */
  lemma BestFixedDuringGame(s: State, c: Color, key: string, r: nat)
    requires Inv(s) && Playing(s) && s.bestBefore == s.highScore && r < |Colors|
    ensures var t := ClickColorStep(s, c, r); t.bestBefore == t.highScore
    ensures var t := KeyDownStep(s, key, r); t.bestBefore == t.highScore
    ensures !TickStep(s).gameOver ==> TickStep(s).bestBefore == TickStep(s).highScore
  {
  }

  /** Starting from the start or game-over screen begins a fresh game that remembers the best so far. */
  lemma StartEffect(s: State, r: nat)
    requires Inv(s) && !Playing(s) && r < |Colors|
    ensures var t := StartStep(s, r);
      Playing(t) && t.score == 0 && t.streak == 0 && t.round == 1 && t.timeLeft == 100 &&
      t.highScore == s.highScore && t.bestBefore == s.highScore && t.currentColor == Colors[r].color
  {
  }

  /** The component's state cells, plus the best a running game began with. */
  class WebSwing {
    var gameStarted: bool
    var gameOver: bool
    var score: nat
    var highScore: nat
    var currentColor: Color
    var timeLeft: nat
    var streak: nat
    var round: nat
    var bestBeforeGame: nat

    function Model(): State
      reads this
    {
      State(gameStarted, gameOver, score, highScore, currentColor, timeLeft, streak, round, bestBeforeGame)
    }

    ghost predicate Valid()
      reads this
    {
      Inv(Model())
    }

    /** The game-over screen's banner. */
    function Banner(): (b: Banner)
      reads this
      requires Valid() && gameOver
      ensures b == NewHighScore <==> score > bestBeforeGame
    {
      BannerCorrected(Model())
    }

    constructor ()
      ensures Valid() && Model() == Initial
    {
      gameStarted, gameOver, score, highScore := false, false, 0, 0;
      currentColor, timeLeft, streak, round, bestBeforeGame := Pink, 100, 0, 1, 0;
    }

    method PickRandomColor(r: nat)
      requires r < |Colors|
      modifies this
      ensures Model() == old(Model()).(currentColor := PickColor(r))
    {
      currentColor := Colors[r].color;
    }

    method HandleColorClick(clicked: Color, r: nat)
      requires Valid() && r < |Colors|
      modifies this
      ensures Valid() && Model() == ClickColorStep(old(Model()), clicked, r)
    {
      StepsPreserveInv(Model(), clicked, "", r);
      if !gameStarted || gameOver {
        return;
      }
      if clicked == currentColor {
        var points := 10 + streak * 2;
        score := score + points;
        streak := streak + 1;
        timeLeft := if timeLeft + 5 < 100 then timeLeft + 5 else 100;
        round := round + 1;
        PickRandomColor(r);
      } else {
        streak := 0;
        timeLeft := if timeLeft < 20 then 0 else timeLeft - 20;
      }
    }

    method HandleKeyDown(key: string, r: nat)
      requires Valid() && r < |Colors|
      modifies this
      ensures Valid() && Model() == KeyDownStep(old(Model()), key, r)
    {
      StepsPreserveInv(Model(), Pink, key, r);
      if !gameStarted || gameOver {
        return;
      }
      var upper := ToUpper(key);
      var colorIndex := FindKey(upper, 0);
      if colorIndex.Some? {
        HandleColorClick(Colors[colorIndex.value].color, r);
      }
    }

    method Tick()
      requires Valid() && gameStarted && !gameOver
      modifies this
      ensures Valid() && Model() == TickStep(old(Model()))
    {
      StepsPreserveInv(Model(), Pink, "", 0);
      var newTime := timeLeft - 1;
      if newTime <= 0 {
        gameOver := true;
        highScore := if highScore < score then score else highScore;
        timeLeft := 0;
      } else {
        timeLeft := newTime;
      }
    }

    method StartGame(r: nat)
      requires Valid() && r < |Colors|
      modifies this
      ensures Valid() && Model() == StartStep(old(Model()), r)
    {
      StepsPreserveInv(Model(), Pink, "", r);
      if gameStarted && !gameOver {
        return;
      }
      bestBeforeGame := highScore;
      gameStarted := true;
      gameOver := false;
      score := 0;
      streak := 0;
      timeLeft := 100;
      round := 1;
      PickRandomColor(r);
    }
  }
}
