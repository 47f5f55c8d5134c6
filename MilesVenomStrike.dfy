/**
 * Miles's venom-strike arcade game: enemies appear at random spots, a strike
 * costs twenty points of venom charge and scores more with every hit of a
 * combo, the charge refills over time, and the game lasts thirty seconds.
 *
 * The three intervals (spawn every 1200 ms, countdown every second, recharge
 * every 500 ms) are explicit events that exist only while a game runs. The
 * combo-reset timeouts (2000 ms after each hit) are a queue of the serial
 * numbers of the hits that scheduled them: they share their delay, so they
 * fire in the order they were scheduled. `Math.random` draws are parameters
 * in [0, 1); the `Date.now() + Math.random()` ids are a counter of fresh ids.
 */
module MilesVenomStrike {

  datatype Enemy = Enemy(id: nat, x: real, y: real, health: nat)

  /** `prev.filter(e => e.id !== enemyId)`. */
  function RemoveEnemy(enemies: seq<Enemy>, id: nat): (r: seq<Enemy>)
    ensures |r| <= |enemies|
    ensures forall e :: e in r <==> e in enemies && e.id != id
    ensures (exists i :: 0 <= i < |enemies| && enemies[i].id == id) ==> |r| < |enemies|
    ensures (forall i :: 0 <= i < |enemies| ==> enemies[i].id != id) ==> r == enemies
  {
    if enemies == [] then []
    else if enemies[0].id == id then RemoveEnemy(enemies[1..], id)
    else [enemies[0]] + RemoveEnemy(enemies[1..], id)
  }

  /** Ids of distinct enemies differ. */
  predicate DistinctIds(enemies: seq<Enemy>) {
    forall i, j :: 0 <= i < j < |enemies| ==> enemies[i].id != enemies[j].id
  }

  /** Dropping the first enemy keeps the ids distinct. */
  lemma DistinctTail(enemies: seq<Enemy>)
    requires DistinctIds(enemies) && enemies != []
    ensures DistinctIds(enemies[1..])
    ensures forall i :: 0 <= i < |enemies[1..]| ==> enemies[1..][i].id != enemies[0].id
  {
    var rest := enemies[1..];
    forall i, j | 0 <= i < j < |rest| ensures rest[i].id != rest[j].id {
      assert rest[i] == enemies[i + 1] && rest[j] == enemies[j + 1];
    }
    forall i | 0 <= i < |rest| ensures rest[i].id != enemies[0].id {
      assert rest[i] == enemies[i + 1];
    }
  }

  /** Filtering keeps the order of the survivors, so distinct ids stay distinct. */
  lemma {:induction false} RemoveEnemyDistinct(enemies: seq<Enemy>, id: nat)
    requires DistinctIds(enemies)
    ensures DistinctIds(RemoveEnemy(enemies, id))
    ensures (exists i :: 0 <= i < |enemies| && enemies[i].id == id) ==> |RemoveEnemy(enemies, id)| == |enemies| - 1
  {
    if enemies != [] {
      DistinctTail(enemies);
      RemoveEnemyDistinct(enemies[1..], id);
      if enemies[0].id != id {
        KeepHead(enemies, id);
        if exists i :: 0 <= i < |enemies| && enemies[i].id == id {
          var i :| 0 <= i < |enemies| && enemies[i].id == id;
          assert enemies[1..][i - 1].id == id;
        }
      } else {
        assert RemoveEnemy(enemies[1..], id) == enemies[1..];
      }
    }
  }

  /** A surviving first enemy, put in front of a distinct filtered tail, keeps the ids distinct. */
  lemma KeepHead(enemies: seq<Enemy>, id: nat)
    requires DistinctIds(enemies) && enemies != [] && enemies[0].id != id
    requires DistinctIds(RemoveEnemy(enemies[1..], id))
    ensures DistinctIds(RemoveEnemy(enemies, id))
  {
    var rest := enemies[1..];
    var tail := RemoveEnemy(rest, id);
    var r := [enemies[0]] + tail;
    DistinctTail(enemies);
    forall k | 0 <= k < |tail| ensures tail[k].id != enemies[0].id {
      assert tail[k] in rest;
    }
    forall i, j | 0 <= i < j < |r| ensures r[i].id != r[j].id {
      assert r[j] == tail[j - 1];
      if i > 0 {
        assert r[i] == tail[i - 1];
      }
    }
    assert RemoveEnemy(enemies, id) == r;
  }

  /**
   * The component's state cells, the next fresh enemy id, the serial number
   * of the latest hit and the pending combo-reset timeouts.
   */
  datatype State = State(
    enemies: seq<Enemy>,
    score: nat,
    combo: nat,
    venomCharge: nat,
    gameStarted: bool,
    gameOver: bool,
    timeLeft: nat,
    nextId: nat,
    hits: nat,
    comboTimers: seq<nat>)

  const Initial: State := State([], 0, 0, 100, false, false, 30, 0, 0, [])

  const StrikeCost: nat := 20

  /** The three intervals run only while a game runs; otherwise the start or game-over overlay is shown. */
  predicate Playing(s: State) {
    s.gameStarted && !s.gameOver
  }

  /**
   * The game's invariant: the charge stays within 0..100 and the clock within
   * 0..30; a finished game has run its clock out; enemies have distinct ids
   * below the next fresh one, a health of 1, and a position within the spawn
   * area; nothing is on the field before the first game; scores come in
   * hundreds.
   */
  predicate Inv(s: State) {
    && s.venomCharge <= 100
    && s.timeLeft <= 30
    && (s.gameOver ==> s.gameStarted && s.timeLeft == 0)
    && DistinctIds(s.enemies)
    && (forall e :: e in s.enemies ==>
          e.id < s.nextId && e.health == 1 && 10.0 <= e.x < 90.0 && 20.0 <= e.y < 80.0)
    && (!s.gameStarted ==> s.enemies == [])
    && s.score % 100 == 0
    && (forall i :: 0 <= i < |s.comboTimers| ==> s.comboTimers[i] <= s.hits)
  }

  /** The combo timers as the corrected strike keeps them: at most one, for the latest hit, pending whenever a combo runs. */
  predicate TimersCorrected(s: State) {
    && |s.comboTimers| <= 1
    && (s.comboTimers != [] ==> s.comboTimers[0] == s.hits)
    && (s.combo > 0 ==> s.comboTimers == [s.hits])
  }

  /** `spawnEnemy()` on the 1200 ms interval, for the draws `rx` and `ry`. */
  function SpawnStep(s: State, rx: real, ry: real): (t: State)
    requires Playing(s) && 0.0 <= rx < 1.0 && 0.0 <= ry < 1.0
    ensures |t.enemies| == |s.enemies| + 1 && t.enemies[..|s.enemies|] == s.enemies
    ensures var e := t.enemies[|s.enemies|];
      e.id == s.nextId && e.health == 1 && 10.0 <= e.x < 90.0 && 20.0 <= e.y < 80.0
    ensures t.nextId == s.nextId + 1 && t.(enemies := s.enemies, nextId := s.nextId) == s
  {
    s.(enemies := s.enemies + [Enemy(s.nextId, rx * 80.0 + 10.0, ry * 60.0 + 20.0, 1)], nextId := s.nextId + 1)
  }

  /** One tick of the one-second countdown. */
  function CountdownStep(s: State): (t: State)
    requires Playing(s)
    ensures t.gameOver <==> s.timeLeft <= 1
    ensures t.timeLeft == if s.timeLeft <= 1 then 0 else s.timeLeft - 1
    ensures t.(gameOver := s.gameOver, timeLeft := s.timeLeft) == s
  {
    if s.timeLeft <= 1 then s.(gameOver := true, timeLeft := 0) else s.(timeLeft := s.timeLeft - 1)
  }

  /** One tick of the 500 ms recharge interval. */
  function RechargeStep(s: State): (t: State)
    requires Playing(s)
    ensures s.venomCharge <= 95 ==> t.venomCharge == s.venomCharge + 5
    ensures s.venomCharge > 95 ==> t.venomCharge == 100
    ensures t.(venomCharge := s.venomCharge) == s
  {
    s.(venomCharge := if s.venomCharge + 5 < 100 then s.venomCharge + 5 else 100)
  }

  /**
   * An enemy's button is rendered while the enemy is on the field, and is
   * enabled with twenty charge. The game-over overlay covers the buttons but
   * leaves them focusable, so a strike by keyboard still runs after the game
   * ended: the countdown does not clear the field.
   */
  predicate StrikeEnabled(s: State, id: nat) {
    s.venomCharge >= StrikeCost && exists i :: 0 <= i < |s.enemies| && s.enemies[i].id == id
  }

  /** `handleVenomStrike(enemyId)` as written: every hit schedules its own combo reset. */
  function StrikeStepAsWritten(s: State, id: nat): (t: State)
    ensures !StrikeEnabled(s, id) ==> t == s
    ensures StrikeEnabled(s, id) ==>
      t.venomCharge == s.venomCharge - 20 && t.score == s.score + 100 * (s.combo + 1) &&
      t.combo == s.combo + 1 && t.hits == s.hits + 1 && |t.enemies| < |s.enemies| &&
      t.comboTimers == s.comboTimers + [t.hits]
    ensures StrikeEnabled(s, id) ==>
      (forall e :: e in t.enemies <==> e in s.enemies && e.id != id) &&
      t.timeLeft == s.timeLeft && t.gameStarted == s.gameStarted && t.gameOver == s.gameOver && t.nextId == s.nextId
  {
    if !StrikeEnabled(s, id) then s
    else
      s.(venomCharge := s.venomCharge - StrikeCost,
         enemies := RemoveEnemy(s.enemies, id),
         score := s.score + 100 * (s.combo + 1),
         combo := s.combo + 1,
         hits := s.hits + 1,
         comboTimers := s.comboTimers + [s.hits + 1])
  }

  /** `handleVenomStrike(enemyId)` as evidently intended: a hit cancels the pending reset and schedules its own. */
  function StrikeStep(s: State, id: nat): (t: State)
    ensures !StrikeEnabled(s, id) ==> t == s
    ensures StrikeEnabled(s, id) ==>
      t.venomCharge == s.venomCharge - 20 && t.score == s.score + 100 * (s.combo + 1) &&
      t.combo == s.combo + 1 && t.hits == s.hits + 1 && |t.enemies| < |s.enemies| &&
      t.comboTimers == [t.hits]
    ensures StrikeEnabled(s, id) ==>
      (forall e :: e in t.enemies <==> e in s.enemies && e.id != id) &&
      t.timeLeft == s.timeLeft && t.gameStarted == s.gameStarted && t.gameOver == s.gameOver && t.nextId == s.nextId
  {
    if !StrikeEnabled(s, id) then s
    else
      s.(venomCharge := s.venomCharge - StrikeCost,
         enemies := RemoveEnemy(s.enemies, id),
         score := s.score + 100 * (s.combo + 1),
         combo := s.combo + 1,
         hits := s.hits + 1,
         comboTimers := [s.hits + 1])
  }

  /** The oldest pending 2000 ms combo-reset timeout fires. */
  function ComboTimeoutStep(s: State): (t: State)
    requires s.comboTimers != []
    ensures t.combo == 0 && |t.comboTimers| == |s.comboTimers| - 1
    ensures forall i :: 0 <= i < |t.comboTimers| ==> t.comboTimers[i] == s.comboTimers[i + 1]
    ensures t.(combo := s.combo, comboTimers := s.comboTimers) == s
  {
    s.(combo := 0, comboTimers := s.comboTimers[1..])
  }

  /** A pending reset is stale when a later hit has happened since it was scheduled. */
  predicate StaleReset(s: State) {
    s.comboTimers != [] && s.comboTimers[0] < s.hits
  }

  /** `startGame()` on the overlay's button; pending combo resets are not cancelled. */
  function StartStep(s: State): (t: State)
    ensures Playing(s) ==> t == s
    ensures !Playing(s) ==>
      Playing(t) && t.score == 0 && t.combo == 0 && t.venomCharge == 100 && t.timeLeft == 30 &&
      t.enemies == [] && t.comboTimers == s.comboTimers && t.hits == s.hits && t.nextId == s.nextId
  {
    if Playing(s) then s
    else s.(gameStarted := true, gameOver := false, score := 0, combo := 0, venomCharge := 100, timeLeft := 30, enemies := [])
  }

  /** The line under the final score. */
  function FinalMessage(score: nat): (m: string)
    ensures score >= 2000 <==> m == "You're the new Spider-Man!"
    ensures 1000 <= score < 2000 <==> m == "Not bad, rookie!"
    ensures score < 1000 <==> m == "Keep practicing!"
  {
    if score >= 2000 then "You're the new Spider-Man!"
    else if score >= 1000 then "Not bad, rookie!"
    else "Keep practicing!"
  }

  lemma InitialInv()
    ensures Inv(Initial) && TimersCorrected(Initial) && !Playing(Initial) && Initial.venomCharge == 100
  {
  }

  /** A spawned enemy is new, takes the next fresh id and lands in the spawn area. */
  lemma SpawnEffect(s: State, rx: real, ry: real)
    requires Inv(s) && Playing(s) && 0.0 <= rx < 1.0 && 0.0 <= ry < 1.0
    ensures var t := SpawnStep(s, rx, ry);
      Inv(t) && |t.enemies| == |s.enemies| + 1 && t.enemies[..|s.enemies|] == s.enemies &&
      (forall e :: e in s.enemies ==> e.id != t.enemies[|s.enemies|].id) &&
      10.0 <= t.enemies[|s.enemies|].x < 90.0 && 20.0 <= t.enemies[|s.enemies|].y < 80.0
  {
    var t := SpawnStep(s, rx, ry);
    assert t.enemies[..|s.enemies|] == s.enemies;
  }

  /** Every event keeps the invariant, and the corrected strike keeps the timer discipline. */
  lemma StepsPreserveInv(s: State, id: nat)
    requires Inv(s)
    ensures Inv(StrikeStepAsWritten(s, id)) && Inv(StrikeStep(s, id)) && Inv(StartStep(s))
    ensures Playing(s) ==> Inv(CountdownStep(s)) && Inv(RechargeStep(s))
    ensures s.comboTimers != [] ==> Inv(ComboTimeoutStep(s))
    ensures TimersCorrected(s) ==> TimersCorrected(StrikeStep(s, id)) && TimersCorrected(StartStep(s))
    ensures TimersCorrected(s) && s.comboTimers != [] ==> TimersCorrected(ComboTimeoutStep(s))
  {
    if StrikeEnabled(s, id) {
      RemoveEnemyDistinct(s.enemies, id);
    }
  }

  /**
   * A strike on an enabled enemy spends twenty charge, removes exactly that
   * enemy, scores 100 times the combo it extends, and extends the combo.
   */
  lemma StrikeEffect(s: State, id: nat)
    requires Inv(s) && StrikeEnabled(s, id)
    ensures var t := StrikeStep(s, id);
      t.venomCharge == s.venomCharge - 20 && t.score == s.score + 100 * (s.combo + 1) &&
      t.combo == s.combo + 1 && |t.enemies| == |s.enemies| - 1 &&
      (forall e :: e in t.enemies <==> e in s.enemies && e.id != id) &&
      t.timeLeft == s.timeLeft && t.gameStarted == s.gameStarted && t.gameOver == s.gameOver
  {
    RemoveEnemyDistinct(s.enemies, id);
  }

  /**
   * The strike as written removes exactly the struck enemy too, and it
   * differs from the corrected strike only in the pending combo resets.
   */
  lemma StrikeAsWrittenEffect(s: State, id: nat)
    requires Inv(s) && StrikeEnabled(s, id)
    ensures var t := StrikeStepAsWritten(s, id);
      t.venomCharge == s.venomCharge - 20 && t.score == s.score + 100 * (s.combo + 1) &&
      t.combo == s.combo + 1 && |t.enemies| == |s.enemies| - 1 &&
      (forall e :: e in t.enemies <==> e in s.enemies && e.id != id) &&
      t.timeLeft == s.timeLeft && t.gameStarted == s.gameStarted && t.gameOver == s.gameOver && t.nextId == s.nextId
  {
    RemoveEnemyDistinct(s.enemies, id);
  }

  /** On every state and id, the two strikes agree on everything but the pending combo resets. */
  lemma StrikesDifferOnlyInTimers(s: State, id: nat)
    ensures StrikeStepAsWritten(s, id).(comboTimers := []) == StrikeStep(s, id).(comboTimers := [])
  {
  }

  /**
   * Under the game-over overlay, an enemy left on the field can still be
   * struck by keyboard: the final score rises by 100 times the extended
   * combo, the charge drops by twenty, and the game stays over.
   */
  lemma StrikeAfterGameOver(s: State, id: nat)
    requires Inv(s) && s.gameOver && StrikeEnabled(s, id)
    ensures var t := StrikeStep(s, id);
      t.gameOver && !Playing(t) && t.score == s.score + 100 * (s.combo + 1) && t.venomCharge == s.venomCharge - 20 &&
      |t.enemies| == |s.enemies| - 1 && Inv(t)
    ensures var t := StrikeStepAsWritten(s, id);
      t.gameOver && t.score == s.score + 100 * (s.combo + 1) && Inv(t)
  {
    RemoveEnemyDistinct(s.enemies, id);
    StepsPreserveInv(s, id);
  }

  /** Without twenty charge, or on an enemy that is not there, a strike does nothing. */
  lemma StrikeNeedsCharge(s: State, id: nat)
    requires s.venomCharge < 20 || forall i :: 0 <= i < |s.enemies| ==> s.enemies[i].id != id
    ensures StrikeStep(s, id) == s && StrikeStepAsWritten(s, id) == s
  {
  }

  /** Consecutive hits within a combo score 100, 200, 300, ... more each. */
  lemma ComboScoring(s: State, a: nat, b: nat)
    requires Inv(s) && StrikeEnabled(s, a) && StrikeEnabled(StrikeStep(s, a), b)
    ensures StrikeStep(StrikeStep(s, a), b).score == s.score + 100 * (s.combo + 1) + 100 * (s.combo + 2)
    ensures StrikeStep(StrikeStep(s, a), b).combo == s.combo + 2
  {
  }

  /** Only the countdown ends a game, when it ticks at one second or less. */
  lemma CountdownEndsGame(s: State, id: nat, rx: real, ry: real)
    requires Inv(s) && Playing(s) && 0.0 <= rx < 1.0 && 0.0 <= ry < 1.0
    ensures CountdownStep(s).gameOver <==> s.timeLeft <= 1
    ensures !CountdownStep(s).gameOver ==> CountdownStep(s).timeLeft == s.timeLeft - 1
    ensures Playing(StrikeStep(s, id)) && Playing(RechargeStep(s)) && Playing(SpawnStep(s, rx, ry))
  {
  }

  /** The recharge raises the charge by five up to the full 100. */
  lemma RechargeEffect(s: State)
    requires Inv(s) && Playing(s)
    ensures var t := RechargeStep(s);
      s.venomCharge <= t.venomCharge <= 100 && (s.venomCharge <= 95 ==> t.venomCharge == s.venomCharge + 5) &&
      (s.venomCharge > 95 ==> t.venomCharge == 100)
  {
  }

  /** Corrected: a combo reset always fires for the latest hit, never one that a later hit superseded. */
  lemma NoStaleReset(s: State, id: nat)
    requires Inv(s) && TimersCorrected(s)
    ensures !StaleReset(s) && !StaleReset(StrikeStep(s, id)) && !StaleReset(StartStep(s))
    ensures s.comboTimers != [] ==> !StaleReset(ComboTimeoutStep(s))
    ensures Playing(s) ==> !StaleReset(CountdownStep(s)) && !StaleReset(RechargeStep(s))
  {
    StepsPreserveInv(s, id);
  }

  /**
   * As written: two hits in a row leave two resets pending, and the first one
   * zeroes the combo while the second hit's own reset is still pending, that
   * is, less than two seconds after the latest hit.
   */
  lemma StaleResetAsWritten(s: State, a: nat, b: nat)
    requires Inv(s) && s.comboTimers == [] && StrikeEnabled(s, a) && StrikeEnabled(StrikeStepAsWritten(s, a), b)
    ensures var t := StrikeStepAsWritten(StrikeStepAsWritten(s, a), b);
      t.combo == s.combo + 2 && StaleReset(t) &&
      var u := ComboTimeoutStep(t);
      u.combo == 0 && u.comboTimers == [u.hits]
  {
  }

  /** Two enemies on the field and full charge are enough for the as-written stale reset. */
  lemma StaleResetReachable(s: State)
    requires Inv(s) && s.comboTimers == [] && s.venomCharge >= 40 && |s.enemies| >= 2
    ensures StrikeEnabled(s, s.enemies[0].id)
    ensures StrikeEnabled(StrikeStepAsWritten(s, s.enemies[0].id), s.enemies[1].id)
  {
    RemoveEnemyDistinct(s.enemies, s.enemies[0].id);
    var t := StrikeStepAsWritten(s, s.enemies[0].id);
    assert s.enemies[1] in t.enemies;
    var k :| 0 <= k < |t.enemies| && t.enemies[k] == s.enemies[1];
  }

  /** The component's state cells, the fresh-id counter and the pending combo resets. */
  class VenomStrike {
    var enemies: seq<Enemy>
    var score: nat
    var combo: nat
    var venomCharge: nat
    var gameStarted: bool
    var gameOver: bool
    var timeLeft: nat
    var nextId: nat
    var hits: nat
    var comboTimers: seq<nat>

    function Model(): State
      reads this
    {
      State(enemies, score, combo, venomCharge, gameStarted, gameOver, timeLeft, nextId, hits, comboTimers)
    }

    ghost predicate Valid()
      reads this
    {
      Inv(Model()) && TimersCorrected(Model())
    }

    constructor ()
      ensures Valid() && Model() == Initial
    {
      enemies, score, combo, venomCharge, gameStarted := [], 0, 0, 100, false;
      gameOver, timeLeft, nextId, hits, comboTimers := false, 30, 0, 0, [];
    }

    method SpawnEnemy(rx: real, ry: real)
      requires Valid() && gameStarted && !gameOver && 0.0 <= rx < 1.0 && 0.0 <= ry < 1.0
      modifies this
      ensures Valid() && Model() == SpawnStep(old(Model()), rx, ry)
    {
      SpawnEffect(Model(), rx, ry);
      var newEnemy := Enemy(nextId, rx * 80.0 + 10.0, ry * 60.0 + 20.0, 1);
      nextId := nextId + 1;
      enemies := enemies + [newEnemy];
    }

    method Countdown()
      requires Valid() && gameStarted && !gameOver
      modifies this
      ensures Valid() && Model() == CountdownStep(old(Model()))
    {
      StepsPreserveInv(Model(), 0);
      if timeLeft <= 1 {
        gameOver := true;
        timeLeft := 0;
      } else {
        timeLeft := timeLeft - 1;
      }
    }

    method Recharge()
      requires Valid() && gameStarted && !gameOver
      modifies this
      ensures Valid() && Model() == RechargeStep(old(Model()))
    {
      StepsPreserveInv(Model(), 0);
      venomCharge := if venomCharge + 5 < 100 then venomCharge + 5 else 100;
    }

    method HandleVenomStrike(enemyId: nat)
      requires Valid()
      modifies this
      ensures Valid() && Model() == StrikeStep(old(Model()), enemyId)
    {
      StepsPreserveInv(Model(), enemyId);
      if !StrikeEnabled(Model(), enemyId) {
        return;
      }
      venomCharge := venomCharge - StrikeCost;
      enemies := RemoveEnemy(enemies, enemyId);
      score := score + 100 * (combo + 1);
      combo := combo + 1;
      hits := hits + 1;
      comboTimers := [hits];
    }

    method ComboTimeout()
      requires Valid() && comboTimers != []
      modifies this
      ensures Valid() && Model() == ComboTimeoutStep(old(Model()))
    {
      StepsPreserveInv(Model(), 0);
      combo := 0;
      comboTimers := comboTimers[1..];
    }

    method StartGame()
      requires Valid()
      modifies this
      ensures Valid() && Model() == StartStep(old(Model()))
    {
      StepsPreserveInv(Model(), 0);
      if gameStarted && !gameOver {
        return;
      }
      gameStarted := true;
      gameOver := false;
      score := 0;
      combo := 0;
      venomCharge := 100;
      timeLeft := 30;
      enemies := [];
    }
  }
}
