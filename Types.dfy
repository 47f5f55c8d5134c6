/**
 * The two string unions of `types.ts`: the five suit modes ("universes") and
 * the six story phases, with their spellings as the program's strings.
 */
module Types {
  import opened Wrappers

  datatype SuitMode = Peter | Miles | Gwen | Noir | Peni

  datatype StoryPhase = OriginPhase | HeroPhase | MilesPhase | GwenPhase | NoirPhase | PeniPhase

  function ModeName(m: SuitMode): string {
    match m
    case Peter => "peter"
    case Miles => "miles"
    case Gwen => "gwen"
    case Noir => "noir"
    case Peni => "peni"
  }

  /** Reads a mode string; anything but the five spellings is not a mode. */
  function ParseMode(s: string): (r: Option<SuitMode>)
    ensures r.Some? ==> ModeName(r.value) == s
    ensures forall m: SuitMode :: ModeName(m) == s ==> r == Some(m)
  {
    if s == "peter" then Some(Peter)
    else if s == "miles" then Some(Miles)
    else if s == "gwen" then Some(Gwen)
    else if s == "noir" then Some(Noir)
    else if s == "peni" then Some(Peni)
    else None
  }

  function PhaseName(p: StoryPhase): string {
    match p
    case OriginPhase => "origin"
    case HeroPhase => "hero"
    case MilesPhase => "miles"
    case GwenPhase => "gwen"
    case NoirPhase => "noir"
    case PeniPhase => "peni"
  }

  /** Reads a phase string; anything but the six spellings is not a phase. */
  function ParsePhase(s: string): (r: Option<StoryPhase>)
    ensures r.Some? ==> PhaseName(r.value) == s
    ensures forall p: StoryPhase :: PhaseName(p) == s ==> r == Some(p)
  {
    if s == "origin" then Some(OriginPhase)
    else if s == "hero" then Some(HeroPhase)
    else if s == "miles" then Some(MilesPhase)
    else if s == "gwen" then Some(GwenPhase)
    else if s == "noir" then Some(NoirPhase)
    else if s == "peni" then Some(PeniPhase)
    else None
  }

  /** `toUpperCase` on one character, for the ASCII letters only. */
  function UpperChar(c: char): char {
    if 'a' <= c <= 'z' then (c as int - 32) as char else c
  }

  /** `toLowerCase` on one character, for the ASCII letters only. */
  function LowerChar(c: char): char {
    if 'A' <= c <= 'Z' then (c as int + 32) as char else c
  }

  /** `s.toUpperCase()` (ASCII case mapping): same length, no lower-case ASCII letter left. */
  function ToUpper(s: string): (r: string)
    ensures |r| == |s|
    ensures forall i :: 0 <= i < |r| ==> !('a' <= r[i] <= 'z') && r[i] == UpperChar(s[i])
  {
    seq(|s|, i requires 0 <= i < |s| => UpperChar(s[i]))
  }

  /** `s.toLowerCase()` (ASCII case mapping): same length, no upper-case ASCII letter left. */
  function ToLower(s: string): (r: string)
    ensures |r| == |s|
    ensures forall i :: 0 <= i < |r| ==> !('A' <= r[i] <= 'Z') && r[i] == LowerChar(s[i])
  {
    seq(|s|, i requires 0 <= i < |s| => LowerChar(s[i]))
  }

  /** Case mapping is idempotent, and mapping either case first does not change the lower-case form. */
  lemma CaseMappingIdempotent(s: string)
    ensures ToUpper(ToUpper(s)) == ToUpper(s) && ToLower(ToLower(s)) == ToLower(s)
    ensures ToLower(ToUpper(s)) == ToLower(s)
  {
  }
}
