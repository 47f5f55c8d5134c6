/**
 * The noir detective puzzle: find the four clues of the fixed case, make the
 * deduction once every clue is found, pick a suspect, see the verdict, and
 * reset.
 *
 * Each handler is an event. A control that is not rendered or is disabled
 * raises no event, so its step leaves the state unchanged.
 */
module NoirDetective {
  import opened Wrappers

  datatype Clue = Clue(id: string, name: string, description: string, found: bool, x: int, y: int)

  datatype Phase = Investigate | Deduce | Result

  /** The four clues of `CASE`, all unfound. */
  const CaseClues: seq<Clue> := [
    Clue("note", "Torn Note", "\"Meet at the old warehouse... midnight...\"", false, 25, 35),
    Clue("footprint", "Muddy Footprint", "Size 12 boot print, military grade.", false, 70, 60),
    Clue("cigar", "Cigar Butt", "Cuban. Expensive. Only one man in town smokes these...", false, 45, 75),
    Clue("bullet", "Shell Casing", ".45 caliber. Recently fired.", false, 80, 30)
  ]

  const CaseOptions: seq<string> := [
    "The Goblin's personal guard",
    "Hammerhead's crew",
    "Corrupt dock workers",
    "The Vulture's gang"
  ]

  const CorrectAnswer: nat := 1

  /** The number of found clues (`clues.filter(c => c.found).length`). */
  function FoundCount(clues: seq<Clue>): (n: nat)
    ensures n <= |clues|
    ensures n == |clues| <==> forall i :: 0 <= i < |clues| ==> clues[i].found
    ensures n == 0 <==> forall i :: 0 <= i < |clues| ==> !clues[i].found
  {
    if clues == [] then 0
    else (if clues[0].found then 1 else 0) + FoundCount(clues[1..])
  }

  /** `b` has every clue of `a` found that `a` has found. */
  predicate FoundGrows(a: seq<Clue>, b: seq<Clue>) {
    |a| == |b| && forall i :: 0 <= i < |a| ==> a[i].found ==> b[i].found
  }

  /** More found clues, pointwise, means a count at least as large; one newly found clue makes it larger. */
  lemma {:induction false} FoundCountGrows(a: seq<Clue>, b: seq<Clue>)
    requires FoundGrows(a, b)
    ensures FoundCount(a) <= FoundCount(b)
    ensures (exists i :: 0 <= i < |a| && !a[i].found && b[i].found) ==> FoundCount(a) < FoundCount(b)
  {
    if a != [] {
      FoundCountGrows(a[1..], b[1..]);
      if exists i :: 0 <= i < |a| && !a[i].found && b[i].found {
        var i :| 0 <= i < |a| && !a[i].found && b[i].found;
        if i > 0 {
          assert !a[1..][i - 1].found && b[1..][i - 1].found;
        }
      }
    }
  }

  predicate AllCluesFound(clues: seq<Clue>) {
    FoundCount(clues) == |clues|
  }

  /** `prev.map(c => c.id === clueId ? { ...c, found: true } : c)`. */
  function MarkFound(clues: seq<Clue>, id: string): (r: seq<Clue>)
    ensures |r| == |clues|
    ensures forall i :: 0 <= i < |clues| ==> r[i].found == (clues[i].found || clues[i].id == id)
    ensures forall i :: 0 <= i < |clues| ==> r[i] == clues[i].(found := r[i].found)
  {
    seq(|clues|, i requires 0 <= i < |clues| => if clues[i].id == id then clues[i].(found := true) else clues[i])
  }

  /** `clues.find(c => c.id === clueId)`: the first clue with that id. */
  function Find(clues: seq<Clue>, id: string): (r: Option<Clue>)
    ensures r.Some? ==>
      exists i :: 0 <= i < |clues| && clues[i] == r.value && clues[i].id == id &&
        forall j :: 0 <= j < i ==> clues[j].id != id
    ensures r.None? ==> forall i :: 0 <= i < |clues| ==> clues[i].id != id
  {
    if clues == [] then None
    else if clues[0].id == id then Some(clues[0])
    else Find(clues[1..], id)
  }

  /** Marking is idempotent: clicking a found clue again leaves the list as it is. */
  lemma MarkFoundIdempotent(clues: seq<Clue>, id: string)
    ensures MarkFound(MarkFound(clues, id), id) == MarkFound(clues, id)
  {
  }

  /** Marking only adds found clues: the count never decreases, and rises for an unfound clue. */
  lemma MarkFoundCount(clues: seq<Clue>, id: string)
    ensures FoundCount(clues) <= FoundCount(MarkFound(clues, id))
    ensures (exists i :: 0 <= i < |clues| && clues[i].id == id && !clues[i].found) ==>
      FoundCount(clues) < FoundCount(MarkFound(clues, id))
  {
    FoundCountGrows(clues, MarkFound(clues, id));
  }

  datatype State = State(
    clues: seq<Clue>,
    selectedClue: Option<Clue>,
    phase: Phase,
    selectedAnswer: Option<nat>,
    isCorrect: bool)

  const Initial: State := State(CaseClues, None, Investigate, None, false)

  /** Clue ids are those of the case, in order; clues differ from the case only in `found`. */
  predicate SameCase(clues: seq<Clue>) {
    |clues| == |CaseClues| &&
    forall i :: 0 <= i < |clues| ==> clues[i] == CaseClues[i].(found := clues[i].found)
  }

  /**
   * The puzzle's invariant: the clue list is the case's; the deduction and
   * result phases have every clue found; the result phase records an answer
   * among the options whose correctness `isCorrect` reflects; an answer is
   * recorded only in the result phase.
   */
  predicate Inv(s: State) {
    && SameCase(s.clues)
    && (s.phase != Investigate ==> AllCluesFound(s.clues))
    && (s.phase == Result <==> s.selectedAnswer.Some?)
    && (s.phase == Result ==> s.selectedAnswer.value < |CaseOptions| && s.isCorrect == (s.selectedAnswer.value == CorrectAnswer))
    && (s.selectedClue.Some? ==> s.selectedClue.value.found && s.selectedClue.value in s.clues)
  }

  /** A hotspot is rendered in the investigation phase and enabled while its clue is unfound. */
  predicate HotspotEnabled(s: State, id: string) {
    s.phase == Investigate && exists i :: 0 <= i < |s.clues| && s.clues[i].id == id && !s.clues[i].found
  }

  /** `handleClueClick(id)`: mark the clue found and open its popup. */
  function ClickClueStep(s: State, id: string): (r: State)
    ensures !HotspotEnabled(s, id) ==> r == s
  {
    if !HotspotEnabled(s, id) then s
    else
      var clue := Find(s.clues, id);
      s.(clues := MarkFound(s.clues, id),
         selectedClue := if clue.Some? then Some(clue.value.(found := true)) else s.selectedClue)
  }

  /** The popup's [CLOSE] button, rendered only in the investigation phase. */
  function ClosePopupStep(s: State): (r: State)
    ensures r.phase == s.phase && r.clues == s.clues && r.selectedAnswer == s.selectedAnswer && r.isCorrect == s.isCorrect
    ensures s.phase == Investigate ==> r.selectedClue.None?
    ensures s.phase != Investigate ==> r == s
  {
    if s.phase == Investigate then s.(selectedClue := None) else s
  }

  /** The MAKE DEDUCTION button, rendered only while investigating with every clue found. */
  function MakeDeductionStep(s: State): (r: State)
    ensures r.phase == Deduce <==> s.phase == Deduce || (s.phase == Investigate && AllCluesFound(s.clues))
    ensures r.(phase := s.phase) == s
  {
    if AllCluesFound(s.clues) && s.phase == Investigate then s.(phase := Deduce) else s
  }

  /** `handleAnswer(index)` on one of the option buttons, rendered only in the deduction phase. */
  function AnswerStep(s: State, index: nat): (r: State)
    ensures s.phase == Deduce && index < |CaseOptions| ==>
      r.phase == Result && r.selectedAnswer == Some(index) && (r.isCorrect <==> index == CorrectAnswer) &&
      r.clues == s.clues && r.selectedClue == s.selectedClue
    ensures s.phase != Deduce || index >= |CaseOptions| ==> r == s
  {
    if s.phase == Deduce && index < |CaseOptions| then
      s.(selectedAnswer := Some(index), isCorrect := index == CorrectAnswer, phase := Result)
    else s
  }

  /** `resetGame()` on the result screen's button; `isCorrect` is left as it was. */
  function ResetStep(s: State): (r: State)
    ensures s.phase == Result ==>
      r.phase == Investigate && r.clues == CaseClues && r.selectedClue.None? && r.selectedAnswer.None? &&
      r.isCorrect == s.isCorrect
    ensures s.phase != Result ==> r == s
  {
    if s.phase == Result then
      s.(clues := CaseClues, selectedClue := None, phase := Investigate, selectedAnswer := None)
    else s
  }

  datatype Verdict = CaseClosed | WrongLead

  /** The result screen: CASE CLOSED exactly when the answer was correct. */
  function ResultScreen(s: State): (v: Option<Verdict>)
    ensures v.Some? <==> s.phase == Result
    ensures v == Some(CaseClosed) <==> s.phase == Result && s.isCorrect
  {
    if s.phase == Result then Some(if s.isCorrect then CaseClosed else WrongLead) else None
  }

  lemma {:induction false} MarkFoundSameCase(clues: seq<Clue>, id: string)
    requires SameCase(clues)
    ensures SameCase(MarkFound(clues, id))
  {
  }

  lemma InitialInv()
    ensures Inv(Initial) && Initial.phase == Investigate && FoundCount(Initial.clues) == 0
  {
  }

  /** In a hotspot's click, `find` sees the clicked clue, and the popup shows it with `found` set. */
  lemma ClickFindsClue(s: State, id: string) returns (j: nat)
    requires Inv(s) && HotspotEnabled(s, id)
    ensures j < |s.clues| && s.clues[j].id == id
    ensures Find(s.clues, id) == Some(s.clues[j])
    ensures ClickClueStep(s, id).selectedClue == Some(s.clues[j].(found := true))
    ensures ClickClueStep(s, id).clues[j] == s.clues[j].(found := true)
  {
    var i :| 0 <= i < |s.clues| && s.clues[i].id == id && !s.clues[i].found;
    assert Find(s.clues, id).Some?;
    j :| 0 <= j < |s.clues| && s.clues[j] == Find(s.clues, id).value && s.clues[j].id == id;
  }

  /** Clicking a hotspot finds that clue only, and shows its record, found, in the popup. */
  lemma ClickClueEffect(s: State, id: string)
    requires Inv(s) && HotspotEnabled(s, id)
    ensures Inv(ClickClueStep(s, id)) && ClickClueStep(s, id).phase == s.phase
    ensures forall i :: 0 <= i < |s.clues| ==>
      ClickClueStep(s, id).clues[i] == if s.clues[i].id == id then s.clues[i].(found := true) else s.clues[i]
    ensures exists i :: 0 <= i < |s.clues| && s.clues[i].id == id && ClickClueStep(s, id).selectedClue == Some(s.clues[i].(found := true))
    ensures FoundCount(s.clues) < FoundCount(ClickClueStep(s, id).clues)
  {
    MarkFoundSameCase(s.clues, id);
    MarkFoundCount(s.clues, id);
    var j := ClickFindsClue(s, id);
    var r := ClickClueStep(s, id);
    assert r.clues == MarkFound(s.clues, id);
    assert r.selectedClue.value in r.clues;
  }

  /** Every event keeps the invariant. */
  lemma StepsPreserveInv(s: State, id: string, index: nat)
    requires Inv(s)
    ensures Inv(ClickClueStep(s, id)) && Inv(ClosePopupStep(s)) && Inv(MakeDeductionStep(s))
    ensures Inv(AnswerStep(s, index)) && Inv(ResetStep(s))
  {
    if HotspotEnabled(s, id) {
      ClickClueEffect(s, id);
    }
  }

  /** The found count never decreases except by a reset. */
  lemma FoundCountMonotone(s: State, id: string, index: nat)
    requires Inv(s)
    ensures FoundCount(s.clues) <= FoundCount(ClickClueStep(s, id).clues)
    ensures FoundCount(ClosePopupStep(s).clues) == FoundCount(s.clues)
    ensures FoundCount(MakeDeductionStep(s).clues) == FoundCount(s.clues)
    ensures FoundCount(AnswerStep(s, index).clues) == FoundCount(s.clues)
  {
    MarkFoundCount(s.clues, id);
  }

  /** The deduction phase is entered only from the investigation with every clue found. */
  lemma DeduceOnlyWhenAllFound(s: State, id: string, index: nat)
    requires Inv(s)
    ensures MakeDeductionStep(s).phase == Deduce <==> (s.phase == Deduce || (s.phase == Investigate && AllCluesFound(s.clues)))
    ensures ClickClueStep(s, id).phase == s.phase && ClosePopupStep(s).phase == s.phase
    ensures AnswerStep(s, index).phase != Deduce || s.phase == Deduce
    ensures ResetStep(s).phase != Deduce || s.phase == Deduce
  {
  }

  /** Answering records the index, is correct exactly on the designated option, and shows the result. */
  lemma AnswerEffect(s: State, index: nat)
    requires Inv(s) && s.phase == Deduce && index < |CaseOptions|
    ensures var r := AnswerStep(s, index);
      r.phase == Result && r.selectedAnswer == Some(index) && (r.isCorrect <==> index == 1) &&
      r.clues == s.clues && r.selectedClue == s.selectedClue &&
      ResultScreen(r) == Some(if index == 1 then CaseClosed else WrongLead)
  {
  }

  /** The result screen shows CASE CLOSED exactly when `isCorrect`. */
  lemma VerdictMatchesAnswer(s: State)
    requires Inv(s) && s.phase == Result
    ensures ResultScreen(s) == Some(CaseClosed) <==> s.selectedAnswer == Some(CorrectAnswer)
    ensures ResultScreen(s) == Some(WrongLead) <==> s.selectedAnswer != Some(CorrectAnswer)
  {
  }

  /** A reset unfinds every clue, clears the popup and the answer, and restarts the investigation. */
  lemma ResetEffect(s: State)
    requires Inv(s) && s.phase == Result
    ensures var r := ResetStep(s);
      r.phase == Investigate && r.selectedClue.None? && r.selectedAnswer.None? &&
      r.isCorrect == s.isCorrect && FoundCount(r.clues) == 0 &&
      forall i :: 0 <= i < |r.clues| ==> !r.clues[i].found && r.clues[i].id == s.clues[i].id
  {
  }

  /** The case's clue ids are pairwise distinct. */
  lemma CaseIdsDistinct()
    ensures forall i, j :: 0 <= i < j < |CaseClues| ==> CaseClues[i].id != CaseClues[j].id
  {
    assert |CaseClues[0].id| == 4 && |CaseClues[1].id| == 9 && |CaseClues[2].id| == 5 && |CaseClues[3].id| == 6;
  }

  /** Clicking the hotspot of the case's `k`-th clue finds exactly that clue. */
  lemma ClickCaseClue(s: State, k: nat)
    requires Inv(s) && s.phase == Investigate && k < |s.clues| && !s.clues[k].found
    ensures Inv(ClickClueStep(s, CaseClues[k].id)) && ClickClueStep(s, CaseClues[k].id).phase == Investigate
    ensures forall i :: 0 <= i < |s.clues| ==>
      ClickClueStep(s, CaseClues[k].id).clues[i].found == (s.clues[i].found || i == k)
  {
    CaseIdsDistinct();
    assert s.clues[k].id == CaseClues[k].id;
    assert HotspotEnabled(s, CaseClues[k].id);
    ClickClueEffect(s, CaseClues[k].id);
  }

  /** Clicking the hotspots of the case's clues `k`, `k + 1`, ... in that order. */
  function ClickFrom(s: State, k: nat): State
    decreases |CaseClues| - k
  {
    if k >= |CaseClues| then s else ClickFrom(ClickClueStep(s, CaseClues[k].id), k + 1)
  }

  /**
   * Clicking the remaining hotspots in order finds exactly the clues not yet
   * found; from a fresh investigation (the initial one included) it finds
   * every clue and leaves the deduction button shown.
   */
  lemma {:induction false} FindAllClues(s: State, k: nat)
    requires Inv(s) && s.phase == Investigate && k <= |CaseClues|
    requires forall i :: k <= i < |s.clues| ==> !s.clues[i].found
    ensures Inv(ClickFrom(s, k)) && ClickFrom(s, k).phase == Investigate
    ensures forall i :: 0 <= i < |s.clues| ==> ClickFrom(s, k).clues[i].found == (s.clues[i].found || k <= i)
    ensures k == 0 ==> AllCluesFound(ClickFrom(s, k).clues)
    decreases |CaseClues| - k
  {
    if k < |CaseClues| {
      ClickCaseClue(s, k);
      FindAllClues(ClickClueStep(s, CaseClues[k].id), k + 1);
    }
  }

  /**
   * With every clue found: deduce, name a wrong suspect, reset. The result is
   * the wrong-lead screen, and afterwards every clue is unfound again.
   */
  lemma WrongLeadScenario(s: State)
    requires Inv(s) && s.phase == Investigate && AllCluesFound(s.clues)
    ensures MakeDeductionStep(s).phase == Deduce
    ensures ResultScreen(AnswerStep(MakeDeductionStep(s), 0)) == Some(WrongLead)
    ensures var r := ResetStep(AnswerStep(MakeDeductionStep(s), 0));
      r.phase == Investigate && FoundCount(r.clues) == 0
  {
    var d := MakeDeductionStep(s);
    StepsPreserveInv(s, "", 0);
    AnswerEffect(d, 0);
    ResetEffect(AnswerStep(d, 0));
  }

  /** The component's state cells. */
  class Detective {
    var clues: seq<Clue>
    var selectedClue: Option<Clue>
    var phase: Phase
    var selectedAnswer: Option<nat>
    var isCorrect: bool

    function Model(): State
      reads this
    {
      State(clues, selectedClue, phase, selectedAnswer, isCorrect)
    }

    ghost predicate Valid()
      reads this
    {
      Inv(Model())
    }

    /** The HUD's `foundClues` counter. */
    function FoundClues(): (n: nat)
      reads this
      requires Valid()
      ensures n <= 4
    {
      FoundCount(clues)
    }

    constructor ()
      ensures Valid() && Model() == Initial
    {
      clues, selectedClue, phase, selectedAnswer, isCorrect := CaseClues, None, Investigate, None, false;
      new;
      InitialInv();
    }

    method HandleClueClick(id: string)
      requires Valid()
      modifies this
      ensures Valid() && Model() == ClickClueStep(old(Model()), id)
    {
      StepsPreserveInv(Model(), id, 0);
      if !HotspotEnabled(Model(), id) {
        return;
      }
      var clue := Find(clues, id);
      clues := MarkFound(clues, id);
      if clue.Some? {
        selectedClue := Some(clue.value.(found := true));
      }
    }

    method ClosePopup()
      requires Valid()
      modifies this
      ensures Valid() && Model() == ClosePopupStep(old(Model()))
    {
      StepsPreserveInv(Model(), "", 0);
      if phase == Investigate {
        selectedClue := None;
      }
    }

    method MakeDeduction()
      requires Valid()
      modifies this
      ensures Valid() && Model() == MakeDeductionStep(old(Model()))
    {
      StepsPreserveInv(Model(), "", 0);
      if AllCluesFound(clues) && phase == Investigate {
        phase := Deduce;
      }
    }

    method HandleAnswer(index: nat)
      requires Valid()
      modifies this
      ensures Valid() && Model() == AnswerStep(old(Model()), index)
    {
      StepsPreserveInv(Model(), "", index);
      if phase == Deduce && index < |CaseOptions| {
        selectedAnswer := Some(index);
        isCorrect := index == CorrectAnswer;
        phase := Result;
      }
    }

    method ResetGame()
      requires Valid()
      modifies this
      ensures Valid() && Model() == ResetStep(old(Model()))
    {
      StepsPreserveInv(Model(), "", 0);
      if phase == Result {
        clues := CaseClues;
        selectedClue := None;
        phase := Investigate;
        selectedAnswer := None;
      }
    }
  }
}
