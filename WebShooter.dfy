/**
 * Peter's web-shooter range: four fixed targets, each worth 100 points once
 * webbed, a victory screen when all four are down, and a reboot that stands
 * them up again.
 */
module WebShooter {

  datatype Target = Target(id: nat, x: nat, y: nat, hit: bool)

  /** The four targets as first rendered. */
  const Targets: seq<Target> := [
    Target(1, 20, 30, false),
    Target(2, 70, 60, false),
    Target(3, 40, 80, false),
    Target(4, 85, 25, false)
  ]

  /** The number of webbed targets. */
  function HitCount(targets: seq<Target>): (n: nat)
    ensures n <= |targets|
    ensures n == |targets| <==> forall i :: 0 <= i < |targets| ==> targets[i].hit
    ensures n == 0 <==> forall i :: 0 <= i < |targets| ==> !targets[i].hit
  {
    if targets == [] then 0
    else (if targets[0].hit then 1 else 0) + HitCount(targets[1..])
  }

  /** `targets.every(t => t.hit)`. */
  predicate AllHit(targets: seq<Target>) {
    forall i :: 0 <= i < |targets| ==> targets[i].hit
  }

  /** `prev.map(t => t.id === id ? { ...t, hit: true } : t)`. */
  function MarkHit(targets: seq<Target>, id: nat): (r: seq<Target>)
    ensures |r| == |targets|
    ensures forall i :: 0 <= i < |targets| ==> r[i] == targets[i].(hit := targets[i].hit || targets[i].id == id)
  {
    seq(|targets|, i requires 0 <= i < |targets| => if targets[i].id == id then targets[i].(hit := true) else targets[i])
  }

  /** `targets.map(t => ({ ...t, hit: false }))`. */
  function ClearHits(targets: seq<Target>): (r: seq<Target>)
    ensures |r| == |targets|
    ensures forall i :: 0 <= i < |targets| ==> r[i] == targets[i].(hit := false)
  {
    seq(|targets|, i requires 0 <= i < |targets| => targets[i].(hit := false))
  }

  /** One more hit target, pointwise, means exactly one more in the count. */
  lemma {:induction false} HitCountOneMore(a: seq<Target>, b: seq<Target>, k: nat)
    requires |a| == |b| && k < |a| && !a[k].hit && b[k].hit
    requires forall i :: 0 <= i < |a| && i != k ==> a[i].hit == b[i].hit
    ensures HitCount(b) == HitCount(a) + 1
  {
    if k == 0 {
      HitCountSame(a[1..], b[1..]);
    } else {
      HitCountOneMore(a[1..], b[1..], k - 1);
    }
  }

  /** Equal hit flags, pointwise, mean equal counts. */
  lemma {:induction false} HitCountSame(a: seq<Target>, b: seq<Target>)
    requires |a| == |b| && forall i :: 0 <= i < |a| ==> a[i].hit == b[i].hit
    ensures HitCount(a) == HitCount(b)
  {
    if a != [] {
      HitCountSame(a[1..], b[1..]);
    }
  }

  datatype State = State(targets: seq<Target>, score: nat)

  const Initial: State := State(Targets, 0)

  /** The targets are the range's four, in order, differing only in `hit`. */
  predicate SameRange(targets: seq<Target>) {
    |targets| == |Targets| && forall i :: 0 <= i < |targets| ==> targets[i] == Targets[i].(hit := targets[i].hit)
  }

  /** The range's invariant: its own four targets, and 100 points per webbed one. */
  predicate Inv(s: State) {
    SameRange(s.targets) && s.score == 100 * HitCount(s.targets)
  }

  /** A target's button exists and is enabled while the target is standing. */
  predicate ShotEnabled(s: State, id: nat) {
    exists i :: 0 <= i < |s.targets| && s.targets[i].id == id && !s.targets[i].hit
  }

  /** `handleShoot(id)` on an enabled target. */
  function ShootStep(s: State, id: nat): (t: State)
    ensures !ShotEnabled(s, id) ==> t == s
  {
    if !ShotEnabled(s, id) then s else State(MarkHit(s.targets, id), s.score + 100)
  }

  /** `resetGame()` on the REBOOT_SYSTEM button. */
  function ResetStep(s: State): (t: State)
    ensures t.score == 0 && |t.targets| == |s.targets|
    ensures forall i :: 0 <= i < |s.targets| ==> !t.targets[i].hit && t.targets[i] == s.targets[i].(hit := false)
  {
    State(ClearHits(s.targets), 0)
  }

  lemma InitialInv()
    ensures Inv(Initial) && !AllHit(Initial.targets) && Initial.score == 0
  {
  }

  /** The target ids are pairwise distinct. */
  lemma TargetIdsDistinct()
    ensures forall i, j :: 0 <= i < j < |Targets| ==> Targets[i].id != Targets[j].id
  {
  }

  /** A shot webs exactly the target it was fired at and scores 100. */
  lemma ShootEffect(s: State, k: nat)
    requires Inv(s) && k < |s.targets| && !s.targets[k].hit
    ensures var t := ShootStep(s, Targets[k].id);
      Inv(t) && t.score == s.score + 100 &&
      forall i :: 0 <= i < |s.targets| ==> t.targets[i].hit == (s.targets[i].hit || i == k)
  {
    TargetIdsDistinct();
    assert s.targets[k].id == Targets[k].id;
    var t := ShootStep(s, Targets[k].id);
    assert SameRange(t.targets);
    HitCountOneMore(s.targets, t.targets, k);
  }

  /** A reset stands every target up and returns the range to its first state. */
  lemma ResetEffect(s: State)
    requires Inv(s)
    ensures ResetStep(s) == Initial && Inv(ResetStep(s)) && !AllHit(ResetStep(s).targets)
  {
    var t := ResetStep(s);
    assert forall i :: 0 <= i < |Targets| ==> t.targets[i] == Targets[i];
    InitialInv();
  }

  /** Every event keeps the invariant; shots never lower the score. */
  lemma StepsPreserveInv(s: State, id: nat)
    requires Inv(s)
    ensures Inv(ShootStep(s, id)) && Inv(ResetStep(s))
    ensures ShootStep(s, id).score >= s.score
  {
    ResetEffect(s);
    if ShotEnabled(s, id) {
      var k :| 0 <= k < |s.targets| && s.targets[k].id == id && !s.targets[k].hit;
      ShootEffect(s, k);
    }
  }

  /** The victory screen shows exactly when the score reaches 400. */
  lemma VictoryAtFullScore(s: State)
    requires Inv(s)
    ensures AllHit(s.targets) <==> s.score == 400
  {
  }

  /** Shooting the targets `k`, `k + 1`, ... in order. */
  function ShootFrom(s: State, k: nat): State
    decreases |Targets| - k
  {
    if k >= |Targets| then s else ShootFrom(ShootStep(s, Targets[k].id), k + 1)
  }

  /** Shooting the standing targets in order webs them all, 100 points each. */
  lemma {:induction false} ShootAllWins(s: State, k: nat)
    requires Inv(s) && k <= |Targets|
    requires forall i :: k <= i < |s.targets| ==> !s.targets[i].hit
    ensures Inv(ShootFrom(s, k))
    ensures forall i :: 0 <= i < |s.targets| ==> ShootFrom(s, k).targets[i].hit == (s.targets[i].hit || k <= i)
    ensures ShootFrom(s, k).score == s.score + 100 * (|Targets| - k)
    ensures k == 0 ==> AllHit(ShootFrom(s, k).targets)
    decreases |Targets| - k
  {
    if k < |Targets| {
      ShootEffect(s, k);
      ShootAllWins(ShootStep(s, Targets[k].id), k + 1);
    }
  }

  /** The component's state cells. */
  class Range {
    var targets: seq<Target>
    var score: nat

    function Model(): State
      reads this
    {
      State(targets, score)
    }

    ghost predicate Valid()
      reads this
    {
      Inv(Model())
    }

    /** The victory condition `allHit`. */
    function AllTargetsHit(): (b: bool)
      reads this
      requires Valid()
      ensures b <==> score == 400
    {
      VictoryAtFullScore(Model());
      AllHit(targets)
    }

    constructor ()
      ensures Valid() && Model() == Initial
    {
      targets, score := Targets, 0;
    }

    method HandleShoot(id: nat)
      requires Valid()
      modifies this
      ensures Valid() && Model() == ShootStep(old(Model()), id)
    {
      StepsPreserveInv(Model(), id);
      if !ShotEnabled(Model(), id) {
        return;
      }
      targets := MarkHit(targets, id);
      score := score + 100;
    }

    method ResetGame()
      requires Valid()
      modifies this
      ensures Valid() && Model() == ResetStep(old(Model()))
    {
      StepsPreserveInv(Model(), 0);
      targets := ClearHits(targets);
      score := 0;
    }
  }
}
