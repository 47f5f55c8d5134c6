/**
 * The story service: a keyword-driven caption and sound effect for a comic
 * panel, and the quote and suit-status fallbacks of the monologue and
 * suit-analysis calls.
 *
 * The service's artificial delays are not modelled, and each `Math.random`
 * index is the parameter `r`, bounded by the length of the list it indexes.
 */
module GeminiService {
  import opened Wrappers
  import opened Types

  /** A `GeminiResponse`; the service always fills in the sound effect. */
  datatype Beat = Beat(caption: string, soundEffect: string)

  /** One keyword rule: the beat returned when the scene mentions any of the keywords. */
  datatype Rule = Rule(keywords: seq<string>, beat: Beat)

  /** `sub` occurs in `s` at index `i`. */
  predicate OccursAt(s: string, sub: string, i: nat) {
    i + |sub| <= |s| && s[i..i + |sub|] == sub
  }

  /** `s.includes(sub)`. */
  predicate Includes(s: string, sub: string) {
    exists i: nat :: i <= |s| && OccursAt(s, sub, i)
  }

  /** The scene mentions one of the rule's keywords. */
  predicate Matches(lowerScene: string, rule: Rule) {
    exists k :: 0 <= k < |rule.keywords| && Includes(lowerScene, rule.keywords[k])
  }

  /** Whose voice answers a phase: `origin` and `hero` both belong to Peter. */
  function Voice(p: StoryPhase): SuitMode {
    match p
    case OriginPhase => Peter
    case HeroPhase => Peter
    case MilesPhase => Miles
    case GwenPhase => Gwen
    case NoirPhase => Noir
    case PeniPhase => Peni
  }

  /** The quote lists of the five voices. */
  const PeterQuotes: seq<string> := [
    "Just another friendly neighborhood patrol.",
    "With great power comes great... tiredness.",
    "New York never sleeps, neither do I.",
    "My Spider-Sense is tingling off the charts.",
    "Hope Aunt May didn't wait up."
  ]

  const MilesQuotes: seq<string> := [
    "Anyone can wear the mask.",
    "What's up danger?",
    "Brooklyn's got a new Spider-Man.",
    "I'm not giving up. Not ever.",
    "That's a leap of faith."
  ]

  const GwenQuotes: seq<string> := [
    "I'm in a band. We're called The Mary Janes.",
    "Ghost Spider, at your service.",
    "Ballet and web-slinging have a lot in common.",
    "I've got my own dimension to protect.",
    "Drums and danger, my two specialties."
  ]

  const NoirQuotes: seq<string> := [
    "In my world, there's no color. Only justice.",
    "The shadows are my ally.",
    "1933. The Great Depression. And me.",
    "I don't do colors, kid.",
    "Sometimes the only way out is through."
  ]

  const PeniQuotes: seq<string> := [
    "SP//dr and I are connected. Forever.",
    "Neo Tokyo needs its protector.",
    "The future is now, and it's dangerous.",
    "My father's legacy lives in this mech.",
    "Kawaii but deadly!"
  ]

  /** The five quotes of each voice. */
  function Quotes(m: SuitMode): (q: seq<string>)
    ensures |q| == 5
  {
    match m
    case Peter => PeterQuotes
    case Miles => MilesQuotes
    case Gwen => GwenQuotes
    case Noir => NoirQuotes
    case Peni => PeniQuotes
  }

  /** The keyword rules of the five voices, in the order they are tried. */
  const PeterRules: seq<Rule> := [
    Rule(["swinging", "manhattan"], Beat("The city is my playground. Every rooftop, every alley.", "THWIP!")),
    Rule(["gargoyle", "watching"], Beat("Someone has to watch over this city. Might as well be me.", "WHOOSH!")),
    Rule(["soaring", "skyscrapers"], Beat("With great power comes great responsibility. Uncle Ben was right.", "AMAZING!"))
  ]

  const MilesRules: seq<Rule> := [
    Rule(["brooklyn", "powers"], Beat("These powers... they're mine now. Time to figure them out.", "BZZT!")),
    Rule(["leap", "faith"], Beat("When you fall, you get back up. That's the Spider-Man way.", "WHAT'S UP DANGER!")),
    Rule(["standing", "new spider"], Beat("Brooklyn's got a new hero. And he's just getting started.", "EXCELENTE!"))
  ]

  const GwenRules: seq<Rule> := [
    Rule(["stage", "drums", "mary janes"], Beat("By day, I'm in a band. By night, I'm saving the world.", "CRASH!")),
    Rule(["swinging", "ballet"], Beat("Grace under pressure. That's what ballet taught me.", "WOOO!")),
    Rule(["hood", "rooftop"], Beat("Ghost Spider. That's what they call me now.", "PUNK ROCK!"))
  ]

  const NoirRules: seq<Rule> := [
    Rule(["shadows", "lurking"], Beat("In the shadows, I find my truth. And my targets.", "CLICK...")),
    Rule(["rain", "alley", "criminals"], Beat("Justice doesn't need color. Just conviction.", "BANG!")),
    Rule(["fire escape", "black and white"], Beat("1933. The world is gray. But my purpose is clear.", "..."))
  ]

  const PeniRules: seq<Rule> := [
    Rule(["sp//dr", "syncing", "mech"], Beat("SP//dr online. Neural link established. Let's go!", "ビープ!")),
    Rule(["battle", "neo tokyo", "neon"], Beat("The future needs protecting. That's why I'm here.", "ドカーン!")),
    Rule(["cityscape", "futuristic"], Beat("My father built SP//dr. Now it's my turn to carry on.", "すごい!"))
  ]

  /** Each voice's three keyword rules, in the order they are tried. */
  function Rules(m: SuitMode): (rules: seq<Rule>)
    ensures |rules| == 3
  {
    match m
    case Peter => PeterRules
    case Miles => MilesRules
    case Gwen => GwenRules
    case Noir => NoirRules
    case Peni => PeniRules
  }

  /** The sound effect that goes with a voice's random quote. */
  function FallbackSound(m: SuitMode): string {
    match m
    case Peter => "THWIP!"
    case Miles => "BZZT!"
    case Gwen => "CRASH!"
    case Noir => "..."
    case Peni => "ビープ!"
  }

  /** The beat for a phase outside the six. */
  const DefaultBeat: Beat := Beat("The multiverse is vast. And I'm just one spider.", "THWIP!")

  /** The first rule, from index `from` on, that the scene matches. */
  function FirstMatch(lowerScene: string, rules: seq<Rule>, from: nat): (r: Option<nat>)
    requires from <= |rules|
    ensures r.Some? ==> (from <= r.value < |rules| && Matches(lowerScene, rules[r.value]) &&
      forall j :: from <= j < r.value ==> !Matches(lowerScene, rules[j]))
    ensures r.None? ==> forall j :: from <= j < |rules| ==> !Matches(lowerScene, rules[j])
    decreases |rules| - from
  {
    if from == |rules| then None
    else if Matches(lowerScene, rules[from]) then Some(from)
    else FirstMatch(lowerScene, rules, from + 1)
  }

  /** `getStoryBeat(sceneDescription, phase)`, with `r` the draw of the fallback quote. */
  function GetStoryBeat(scene: string, phase: string, r: nat): (b: Beat)
    requires r < 5
    ensures ParsePhase(phase).None? ==> b == DefaultBeat
    ensures ParsePhase(phase).Some? ==>
      var m := Voice(ParsePhase(phase).value);
      b == Beat(Quotes(m)[r], FallbackSound(m)) || exists i :: 0 <= i < |Rules(m)| && b == Rules(m)[i].beat
  {
    match ParsePhase(phase)
    case None => DefaultBeat
    case Some(p) =>
      var m := Voice(p);
      var lowerScene := ToLower(scene);
      match FirstMatch(lowerScene, Rules(m), 0)
      case Some(i) => Rules(m)[i].beat
      case None => Beat(Quotes(m)[r], FallbackSound(m))
  }

  /**
   * What a beat is: for one of the six phases, the beat of the first rule of
   * the phase's voice that the lower-cased scene mentions, or, when it
   * mentions none, the drawn quote of that voice with its fallback sound; for
   * any other phase, the default beat.
   */
  lemma StoryBeatSpec(scene: string, phase: string, r: nat)
    requires r < 5
    ensures ParsePhase(phase).None? ==> GetStoryBeat(scene, phase, r) == DefaultBeat
    ensures forall p :: PhaseName(p) == phase ==>
      var m := Voice(p);
      var rules := Rules(m);
      (forall i :: (0 <= i < |rules| && Matches(ToLower(scene), rules[i]) &&
         (forall j :: 0 <= j < i ==> !Matches(ToLower(scene), rules[j]))) ==>
         GetStoryBeat(scene, phase, r) == rules[i].beat) &&
      ((forall j :: 0 <= j < |rules| ==> !Matches(ToLower(scene), rules[j])) ==>
         GetStoryBeat(scene, phase, r) == Beat(Quotes(m)[r], FallbackSound(m)))
  {
    forall p | PhaseName(p) == phase
      ensures var m := Voice(p);
        var rules := Rules(m);
        (forall i :: (0 <= i < |rules| && Matches(ToLower(scene), rules[i]) &&
           (forall j :: 0 <= j < i ==> !Matches(ToLower(scene), rules[j]))) ==>
           GetStoryBeat(scene, phase, r) == rules[i].beat) &&
        ((forall j :: 0 <= j < |rules| ==> !Matches(ToLower(scene), rules[j])) ==>
           GetStoryBeat(scene, phase, r) == Beat(Quotes(m)[r], FallbackSound(m)))
    {
      var rules := Rules(Voice(p));
      var found := FirstMatch(ToLower(scene), rules, 0);
    }
  }

  /** The scene's letter case does not matter. */
  lemma StoryBeatIgnoresCase(scene: string, phase: string, r: nat)
    requires r < 5
    ensures GetStoryBeat(ToUpper(scene), phase, r) == GetStoryBeat(scene, phase, r)
    ensures GetStoryBeat(ToLower(scene), phase, r) == GetStoryBeat(scene, phase, r)
  {
    CaseMappingIdempotent(scene);
  }

  /** The origin and hero phases are both answered in Peter's voice. */
  lemma OriginAndHeroAgree(scene: string, r: nat)
    requires r < 5
    ensures GetStoryBeat(scene, "origin", r) == GetStoryBeat(scene, "hero", r)
  {
  }

  /** Every beat of a known phase comes from its own voice: one of its rules, or one of its quotes. */
  lemma StoryBeatInVoice(scene: string, p: StoryPhase, r: nat)
    requires r < 5
    ensures var b := GetStoryBeat(scene, PhaseName(p), r);
      (exists i :: 0 <= i < 3 && b == Rules(Voice(p))[i].beat) ||
      (b.caption in Quotes(Voice(p)) && b.soundEffect == FallbackSound(Voice(p)))
  {
    assert ParsePhase(PhaseName(p)) == Some(p);
  }

  /** No rule of any voice gives the default beat, and no quote of any voice is the default caption. */
  lemma DefaultBeatUnused(m: SuitMode)
    ensures forall i :: 0 <= i < 3 ==> Rules(m)[i].beat != DefaultBeat
    ensures DefaultBeat.caption !in Quotes(m)
  {
    var rules, quotes := Rules(m), Quotes(m);
    assert forall i :: 0 <= i < 3 ==> |rules[i].beat.caption| != 48 || |rules[i].beat.soundEffect| != 6;
    assert forall i :: 0 <= i < 5 ==> |quotes[i]| != 48;
  }

  /** The default beat is given exactly for a phase outside the six. */
  lemma DefaultOnlyForUnknownPhase(scene: string, phase: string, r: nat)
    requires r < 5
    ensures GetStoryBeat(scene, phase, r) == DefaultBeat <==> ParsePhase(phase).None?
  {
    if ParsePhase(phase).Some? {
      var p := ParsePhase(phase).value;
      DefaultBeatUnused(Voice(p));
      StoryBeatInVoice(scene, p, r);
    }
  }

  /** The quote lists by mode name: a mode outside the five speaks as Peter. */
  function ModeQuotes(mode: string): (q: seq<string>)
    ensures |q| == 5
    ensures forall m :: ModeName(m) == mode ==> q == Quotes(m)
    ensures ParseMode(mode).None? ==> q == Quotes(Peter)
  {
    match ParseMode(mode)
    case Some(m) => Quotes(m)
    case None => Quotes(Peter)
  }

  /** `generateComicMonologue(mode)`, with `r` the draw. */
  function GenerateComicMonologue(mode: string, r: nat): (q: string)
    requires r < 5
    ensures q in ModeQuotes(mode)
  {
    ModeQuotes(mode)[r]
  }

  /** Every quote of a mode can be drawn, and an unknown mode draws Peter's quotes. */
  lemma MonologueCoversQuotes(mode: string, q: string)
    requires q in ModeQuotes(mode)
    ensures exists r :: 0 <= r < 5 && GenerateComicMonologue(mode, r) == q
    ensures ParseMode(mode).None? ==> forall r :: 0 <= r < 5 ==> GenerateComicMonologue(mode, r) == GenerateComicMonologue("peter", r)
  {
    var r :| 0 <= r < 5 && ModeQuotes(mode)[r] == q;
    assert GenerateComicMonologue(mode, r) == q;
  }

  /** The three suit-status lines of each mode. */
  function Status(m: SuitMode): (s: seq<string>)
    ensures |s| == 3
  {
    match m
    case Peter => ["Web Fluid: 84%", "Nanotech: Online", "Spider-Sense: Active"]
    case Miles => ["Venom Blast: Charged", "Camouflage: Ready", "Bio-Electric: 100%"]
    case Gwen => ["Web Shooters: Full", "Dimension Watch: Synced", "Agility: Maximum"]
    case Noir => ["Revolver: Loaded", "Shadows: Embraced", "Justice: Unwavering"]
    case Peni => ["SP//dr: Online", "Neural Link: 98%", "Mech Systems: Optimal"]
  }

  /** The status lines by mode name: a mode outside the five reads Peter's suit. */
  function ModeStatus(mode: string): (s: seq<string>)
    ensures |s| == 3
    ensures forall m :: ModeName(m) == mode ==> s == Status(m)
    ensures ParseMode(mode).None? ==> s == Status(Peter)
  {
    match ParseMode(mode)
    case Some(m) => Status(m)
    case None => Status(Peter)
  }

  /** `getSuitAnalysis(mode)`, with `r` the draw. */
  function GetSuitAnalysis(mode: string, r: nat): (s: string)
    requires r < 3
    ensures s in ModeStatus(mode)
  {
    ModeStatus(mode)[r]
  }

  /** Every status line of a mode can be drawn, and an unknown mode reads Peter's suit. */
  lemma SuitAnalysisCoversStatus(mode: string, line: string)
    requires line in ModeStatus(mode)
    ensures exists r :: 0 <= r < 3 && GetSuitAnalysis(mode, r) == line
    ensures ParseMode(mode).None? ==> forall r :: 0 <= r < 3 ==> GetSuitAnalysis(mode, r) == GetSuitAnalysis("peter", r)
  {
    var r :| 0 <= r < 3 && ModeStatus(mode)[r] == line;
    assert GetSuitAnalysis(mode, r) == line;
  }
}
