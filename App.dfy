/**
 * The page: the six story sections each universe shows, in order, and the
 * mini-game mounted in each interactive section.
 *
 * Onomatopoeia positions and rotations, the hero images and all layout are
 * presentation; a section keeps only the onomatopoeia's text. A field a
 * section of the source does not have is the empty string here.
 */
module App {
  import opened Wrappers
  import opened Types
  import GeminiService

  /** The four images of a universe that the sections use or the hero banner shows. */
  datatype ImageSet = ImageSet(hero: string, action1: string, action2: string, city: string)

  /** `SPIDEY_IMAGES`, one entry per universe. */
  const PeterImages: ImageSet := ImageSet(
    "https://images.unsplash.com/photo-1635805737707-575885ab0820?auto=format&fit=crop&q=80",
    "/images/peter/1.png", "/images/peter/2.png", "/images/peter/3.png")
  const MilesImages: ImageSet := ImageSet("/images/miles/1.png", "/images/miles/2.png", "/images/miles/3.png", "/images/miles/4.png")
  const GwenImages: ImageSet := ImageSet("/images/gwen/1.png", "/images/gwen/2.png", "/images/gwen/3.png", "/images/gwen/4.png")
  const NoirImages: ImageSet := ImageSet(
    "/images/noir/1.png", "/images/noir/2.png", "/images/noir/3.png",
    "https://images.unsplash.com/photo-1519608487953-e999c86e7455?auto=format&fit=crop&q=80")
  const PeniImages: ImageSet := ImageSet(
    "/images/peni/1.png", "/images/peni/2.png", "/images/peni/3.png",
    "https://images.unsplash.com/photo-1480714378408-67cf0d13bc1b?auto=format&fit=crop&q=80")

  /** The image set of a universe. */
  function Images(m: SuitMode): ImageSet {
    match m
    case Peter => PeterImages
    case Miles => MilesImages
    case Gwen => GwenImages
    case Noir => NoirImages
    case Peni => PeniImages
  }

  datatype Kind = Cover | Panel | Interactive

  /** One entry of a universe's section list. */
  datatype Section = Section(
    id: string,
    kind: Kind,
    phase: Option<StoryPhase>,
    title: string,
    image: string,
    scene: string,
    onomatopoeia: string)

  const CoverSection: Section := Section("cover", Cover, None, "", "", "", "")

  function PanelOf(id: string, p: StoryPhase, image: string, scene: string, title: string, sound: string): Section {
    Section(id, Panel, Some(p), title, image, scene, sound)
  }

  function InteractiveOf(id: string, p: StoryPhase, title: string): Section {
    Section(id, Interactive, Some(p), title, "", "", "")
  }

  /** The section list of each universe, in page order. */
  const PeterSections: seq<Section> := [
    CoverSection,
    PanelOf("origin", OriginPhase, PeterImages.action1,
      "Peter Parker swinging through Manhattan, the city lights reflecting off his classic red and blue suit.",
      "THE BITE", "THWIP!"),
    InteractiveOf("calibration", HeroPhase, "SUIT CALIBRATION"),
    PanelOf("power", HeroPhase, PeterImages.action2,
      "Spider-Man perched on a gargoyle, watching over New York City at sunset.", "GREAT POWER", "WHOOSH!"),
    InteractiveOf("game", HeroPhase, "WEB SHOOTER TRAINING"),
    PanelOf("finale", HeroPhase, PeterImages.city,
      "The Amazing Spider-Man soaring between skyscrapers, leaving a trail of webs.", "RESPONSIBILITY", "AMAZING!")
  ]

  const MilesSections: seq<Section> := [
    CoverSection,
    PanelOf("awakening", MilesPhase, MilesImages.action1,
      "Miles Morales discovering his powers in Brooklyn, electricity crackling around his fingertips.",
      "THE AWAKENING", "BZZT!"),
    InteractiveOf("venom-game", MilesPhase, "VENOM STRIKE"),
    PanelOf("leap", MilesPhase, MilesImages.action2,
      "Miles taking his leap of faith off a Brooklyn rooftop, the city sprawling below.", "LEAP OF FAITH",
      "WHAT'S UP DANGER!"),
    InteractiveOf("training", MilesPhase, "INVISIBILITY TRAINING"),
    PanelOf("hero", MilesPhase, MilesImages.city,
      "Miles Morales standing tall as the new Spider-Man of Brooklyn.", "ANYONE CAN WEAR THE MASK", "EXCELENTE!")
  ]

  const GwenSections: seq<Section> := [
    CoverSection,
    PanelOf("drummer", GwenPhase, GwenImages.action1,
      "Gwen Stacy on stage with The Mary Janes, drumsticks flying.", "ROCK STAR", "CRASH!"),
    InteractiveOf("swing-game", GwenPhase, "WEB SWING"),
    PanelOf("swing", GwenPhase, GwenImages.action2,
      "Spider-Gwen gracefully swinging through her dimension, ballet meets superhero.", "GHOST SPIDER", "WOOO!"),
    InteractiveOf("calibration", GwenPhase, "WEB CALIBRATION"),
    PanelOf("hero", GwenPhase, GwenImages.city,
      "Gwen standing on a rooftop, her white hood catching the wind.", "UNMASKED", "PUNK ROCK!")
  ]

  const NoirSections: seq<Section> := [
    CoverSection,
    PanelOf("shadows", NoirPhase, NoirImages.action1,
      "Spider-Man Noir lurking in the shadows of 1930s New York, fedora and trench coat.", "THE SHADOWS", "CLICK..."),
    InteractiveOf("detective", NoirPhase, "DETECTIVE MODE"),
    PanelOf("justice", NoirPhase, NoirImages.action2,
      "Noir Spider-Man confronting criminals in a rain-soaked alley.", "JUSTICE", "BANG!"),
    InteractiveOf("calibration", NoirPhase, "WEAPON CHECK"),
    PanelOf("hero", NoirPhase, NoirImages.city,
      "The Noir Spider standing on a fire escape, the city in black and white below.", "NO COLOR", "...")
  ]

  const PeniSections: seq<Section> := [
    CoverSection,
    PanelOf("mech", PeniPhase, PeniImages.action1,
      "Peni Parker syncing with SP//dr, neon lights reflecting off the mech suit.", "SYNC COMPLETE", "ビープ!"),
    InteractiveOf("mech-game", PeniPhase, "MECH BATTLE"),
    PanelOf("battle", PeniPhase, PeniImages.action2,
      "SP//dr mech in action, fighting through a neon-lit Neo Tokyo.", "KAWAII POWER", "ドカーン!"),
    InteractiveOf("calibration", PeniPhase, "SYSTEM DIAGNOSTIC"),
    PanelOf("hero", PeniPhase, PeniImages.city,
      "Peni and SP//dr overlooking the futuristic cityscape.", "FUTURE SPIDER", "すごい!")
  ]

  /** Each universe's six sections. */
  function ModeSections(m: SuitMode): (s: seq<Section>)
    ensures |s| == 6
  {
    match m
    case Peter => PeterSections
    case Miles => MilesSections
    case Gwen => GwenSections
    case Noir => NoirSections
    case Peni => PeniSections
  }

  /** `getSectionsForMode(mode)`: a mode outside the five gets Peter's sections and images. */
  function GetSectionsForMode(mode: string): (s: seq<Section>)
    ensures |s| == 6
    ensures forall m :: ModeName(m) == mode ==> s == ModeSections(m)
    ensures ParseMode(mode).None? ==> s == ModeSections(Peter)
  {
    var m := if ParseMode(mode).Some? then ParseMode(mode).value else Peter;
    ModeSections(m)
  }

  datatype Game =
    | WebShooterGame
    | SuitCalibrationGame
    | MilesVenomStrikeGame
    | GwenWebSwingGame
    | NoirDetectiveGame
    | PeniMechBattleGame

  /** `getGameComponent(sectionId, phase)` for the active mode; the phase is not consulted. */
  function GetGameComponent(mode: SuitMode, sectionId: string): (g: Game)
    ensures g == SuitCalibrationGame || g == SignatureGame(mode)
    ensures sectionId == "calibration" ==> g == SuitCalibrationGame
  {
    if sectionId == "calibration" then SuitCalibrationGame
    else
      match mode
      case Peter => if sectionId == "game" then WebShooterGame else SuitCalibrationGame
      case Miles =>
        if sectionId == "venom-game" then MilesVenomStrikeGame
        else if sectionId == "training" then SuitCalibrationGame
        else SuitCalibrationGame
      case Gwen => if sectionId == "swing-game" then GwenWebSwingGame else SuitCalibrationGame
      case Noir => if sectionId == "detective" then NoirDetectiveGame else SuitCalibrationGame
      case Peni => if sectionId == "mech-game" then PeniMechBattleGame else SuitCalibrationGame
  }

  /** The game that belongs to a universe alone. */
  function SignatureGame(m: SuitMode): Game {
    match m
    case Peter => WebShooterGame
    case Miles => MilesVenomStrikeGame
    case Gwen => GwenWebSwingGame
    case Noir => NoirDetectiveGame
    case Peni => PeniMechBattleGame
  }

  /**
   * Every universe's page opens with the cover, alternates narrative panels
   * with interactive sections (at the third and fifth places), and its
   * section ids are distinct.
   */
  lemma PageShape(m: SuitMode)
    ensures var s := ModeSections(m);
      s[0] == CoverSection &&
      s[1].kind == Panel && s[2].kind == Interactive && s[3].kind == Panel &&
      s[4].kind == Interactive && s[5].kind == Panel &&
      forall i, j :: 0 <= i < j < 6 ==> s[i].id != s[j].id
  {
    var s := ModeSections(m);
    assert s[0].id == "cover";
    match m
    case Peter =>
      assert |s[1].id| == 6 && |s[2].id| == 11 && |s[3].id| == 5 && |s[4].id| == 4 && |s[5].id| == 6 && s[1].id[0] != s[5].id[0];
    case Miles =>
      assert |s[1].id| == 9 && |s[2].id| == 10 && |s[3].id| == 4 && |s[4].id| == 8 && |s[5].id| == 4 && s[3].id[0] != s[5].id[0];
    case Gwen =>
      assert |s[1].id| == 7 && |s[2].id| == 10 && |s[3].id| == 5 && |s[4].id| == 11 && |s[5].id| == 4;
    case Noir =>
      assert |s[1].id| == 7 && |s[2].id| == 9 && |s[3].id| == 7 && |s[4].id| == 11 && |s[5].id| == 4 && s[1].id[0] != s[3].id[0];
    case Peni =>
      assert |s[1].id| == 4 && |s[2].id| == 9 && |s[3].id| == 6 && |s[4].id| == 11 && |s[5].id| == 4 && s[1].id[0] != s[5].id[0];
  }

  /** Every section after the cover is told in the universe's own voice. */
  lemma SectionsInOwnVoice(m: SuitMode)
    ensures var s := ModeSections(m);
      forall i :: 1 <= i < 6 ==> s[i].phase.Some? && GeminiService.Voice(s[i].phase.value) == m
  {
  }

  /**
   * The two interactive sections of each page: the universe's own game once,
   * and the suit calibration otherwise; Miles's training section and every
   * `calibration` section mount the calibration.
   */
  lemma PageGames(m: SuitMode)
    ensures var s := ModeSections(m);
      (GetGameComponent(m, s[2].id) == SignatureGame(m) && GetGameComponent(m, s[4].id) == SuitCalibrationGame) ||
      (m == Peter && GetGameComponent(m, s[2].id) == SuitCalibrationGame && GetGameComponent(m, s[4].id) == WebShooterGame)
  {
  }

  /** The calibration section always mounts the calibration, in every universe. */
  lemma CalibrationEverywhere(m: SuitMode)
    ensures GetGameComponent(m, "calibration") == SuitCalibrationGame
  {
  }

  /** A universe's own game is mounted only by its own section id; any other id mounts the calibration. */
  lemma SignatureGameOnlyByItsId(m: SuitMode, sectionId: string)
    ensures GetGameComponent(m, sectionId) == SuitCalibrationGame || GetGameComponent(m, sectionId) == SignatureGame(m)
    ensures GetGameComponent(m, sectionId) == SignatureGame(m) <==>
      sectionId == (match m case Peter => "game" case Miles => "venom-game" case Gwen => "swing-game"
                            case Noir => "detective" case Peni => "mech-game")
  {
  }

  /** The caption service's beat for a narrative section. */
  function PanelBeat(s: Section, r: nat): GeminiService.Beat
    requires r < 5 && s.phase.Some?
  {
    GeminiService.GetStoryBeat(s.scene, PhaseName(s.phase.value), r)
  }

  /**
   * Miles's closing panel mentions Brooklyn, so the first Miles rule answers
   * it: its caption is the one about his new powers, and its sound is not the
   * panel's own onomatopoeia. The third rule, meant for this panel
   * ("standing", "new spider"), carries that onomatopoeia.
   */
  lemma HeroPanelGetsPowersBeat(r: nat)
    requires r < 5
    ensures var s := ModeSections(Miles)[5];
      s.id == "hero" && PanelBeat(s, r) == GeminiService.MilesRules[0].beat &&
      PanelBeat(s, r).soundEffect != s.onomatopoeia &&
      GeminiService.MilesRules[2].beat.soundEffect == s.onomatopoeia
  {
    var s := ModeSections(Miles)[5];
    var lower := ToLower(s.scene);
    assert s.scene[53..61] == "Brooklyn";
    assert lower[53..61] == "brooklyn";
    assert GeminiService.OccursAt(lower, "brooklyn", 53);
    assert GeminiService.Includes(lower, "brooklyn");
    assert GeminiService.MilesRules[0].keywords[0] == "brooklyn";
    assert GeminiService.Matches(lower, GeminiService.MilesRules[0]);
    assert ParsePhase("miles") == Some(MilesPhase);
  }
}
