/**
 * The library's fixed configuration (`_conf` in Harmony.js): the order in which
 * key signatures add flats and sharps, the two 14-name semitone alphabets, and
 * the circle of fifths. Note names are German: `B` is B-flat and `H` is B-natural.
 */
module Conf {
  import opened Wrappers

  /** Every note name the configuration spells. */
  datatype Note =
    | A | B | H | C | D | E | F | G
    | CFlat | DFlat | EFlat | FFlat | GFlat | AFlat
    | HSharp | CSharp | DSharp | ESharp | FSharp | GSharp

  /** The written name of a note, as the source's strings spell it. */
  function Name(n: Note): string {
    match n
    case A => "A" case B => "B" case H => "H" case C => "C"
    case D => "D" case E => "E" case F => "F" case G => "G"
    case CFlat => "C♭" case DFlat => "D♭" case EFlat => "E♭"
    case FFlat => "F♭" case GFlat => "G♭" case AFlat => "A♭"
    case HSharp => "H♯" case CSharp => "C♯" case DSharp => "D♯"
    case ESharp => "E♯" case FSharp => "F♯" case GSharp => "G♯"
  }

  /** The note a string spells, if any: the inverse of `Name`. */
  function NoteNamed(s: string): (r: Option<Note>)
    ensures r.Some? ==> Name(r.value) == s
  {
    if |s| == 1 then
      match s[0]
      case 'A' => Some(A) case 'B' => Some(B) case 'H' => Some(H) case 'C' => Some(C)
      case 'D' => Some(D) case 'E' => Some(E) case 'F' => Some(F) case 'G' => Some(G)
      case _ => None
    else if |s| == 2 && s[1] == '♭' then
      match s[0]
      case 'C' => Some(CFlat) case 'D' => Some(DFlat) case 'E' => Some(EFlat)
      case 'F' => Some(FFlat) case 'G' => Some(GFlat) case 'A' => Some(AFlat)
      case _ => None
    else if |s| == 2 && s[1] == '♯' then
      match s[0]
      case 'H' => Some(HSharp) case 'C' => Some(CSharp) case 'D' => Some(DSharp)
      case 'E' => Some(ESharp) case 'F' => Some(FSharp) case 'G' => Some(GSharp)
      case _ => None
    else None
  }

  /** Names never collide, so a string spells at most one note. */
  lemma NamesInverse()
    ensures forall n :: NoteNamed(Name(n)) == Some(n)
  {
  }

  /**
   * The pitch a note sounds, in semitones above A (enharmonic names share one):
   * the musical meaning against which the alphabets and scales are checked.
   */
  function Semitone(n: Note): (p: int)
    ensures 0 <= p < 12
  {
    match n
    case A => 0 case B => 1 case H => 2 case CFlat => 2 case HSharp => 3 case C => 3
    case CSharp => 4 case DFlat => 4 case D => 5 case DSharp => 6 case EFlat => 6
    case E => 7 case FFlat => 7 case ESharp => 8 case F => 8 case FSharp => 9
    case GFlat => 9 case G => 10 case GSharp => 11 case AFlat => 11
  }

  const FlatSign := "♭"
  const SharpSign := "♯"
  const NaturalSign := "♮"

  /** `_conf.clefs.flats`: flats in the order key signatures add them. */
  const FlatClefs: seq<Note> := [B, EFlat, AFlat, DFlat, GFlat, CFlat, FFlat]

  /** `_conf.clefs.sharps`: sharps in the order key signatures add them (`B` stands for A-sharp). */
  const SharpClefs: seq<Note> := [FSharp, CSharp, GSharp, DSharp, B, ESharp, HSharp]

  /** `_conf.semitones.flats`: the semitones from A upwards, with the doubles H/C♭ and E/F♭. */
  const FlatSemitones: seq<Note> := [A, B, H, CFlat, C, DFlat, D, EFlat, E, FFlat, F, GFlat, G, AFlat]

  /** `_conf.semitones.sharps`: the semitones from A upwards, with the doubles H♯/C and E♯/F. */
  const SharpSemitones: seq<Note> := [A, B, H, HSharp, C, CSharp, D, DSharp, E, ESharp, F, FSharp, G, GSharp]

  /** `_conf.clefs[type + 's']` */
  function ClefOrder(family: string): seq<Note>
    requires family == "flat" || family == "sharp"
  {
    if family == "flat" then FlatClefs else SharpClefs
  }

  /** `_conf.semitones[type + 's']` */
  function SemitoneAlphabet(family: string): seq<Note>
    requires family == "flat" || family == "sharp"
  {
    if family == "flat" then FlatSemitones else SharpSemitones
  }

  /** The circle of fifths: tonality name to signed clef count (negative = flats). */
  const Tonalities: map<string, int> := map[
    "C♭" := -7, "A♭m" := -7,
    "G♭" := -6, "E♭m" := -6,
    "D♭" := -5, "H♭m" := -5,
    "A♭" := -4, "Fm" := -4,
    "E♭" := -3, "Cm" := -3,
    "H♭" := -2, "Gm" := -2,
    "F" := -1, "Dm" := -1,
    "C" := 0, "Am" := 0,
    "G" := 1, "Em" := 1,
    "D" := 2, "Hm" := 2,
    "A" := 3, "F♯m" := 3,
    "E" := 4, "C♯m" := 4,
    "B" := 5, "G♯m" := 5,
    "F♯" := 6, "D♯m" := 6,
    "C♯" := 7, "A♯m" := 7
  ]

  /** `_conf.tonalities[name]`: a number for a listed name, otherwise `undefined`. */
  function Lookup(name: string): (n: Option<int>)
    ensures n.Some? <==> name in Tonalities
    ensures n.Some? ==> -7 <= n.value <= 7
  {
    if name in Tonalities then Some(Tonalities[name]) else None
  }
}
