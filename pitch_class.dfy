/** The pitch-class codec: the twelve sharp-only class names and their spellings. */
module PitchClasses {

  import opened Results
  import opened Ascii

  /** The twelve chromatic classes, in chromatic order starting at C. */
  datatype PitchClass = C | CSharp | D | DSharp | E | F | FSharp | G | GSharp | A | ASharp | B

  /** A letter that may start a class spelling, `[A-G]`. */
  predicate IsClassLetter(ch: char) {
    'A' <= ch <= 'G'
  }

  /** The shape `[A-G][#]?` that both notations expect of their class part. */
  predicate IsClassLiteral(s: string) {
    (|s| == 1 || (|s| == 2 && s[1] == '#')) && IsClassLetter(s[0])
  }

  /** Canonical spelling of a class. */
  function AsStr(pc: PitchClass): (s: string)
    ensures IsClassLiteral(s)
    ensures s[|s| - 1] == '#' <==> |s| == 2
  {
    match pc
    case C => "C"
    case CSharp => "C#"
    case D => "D"
    case DSharp => "D#"
    case E => "E"
    case F => "F"
    case FSharp => "F#"
    case G => "G"
    case GSharp => "G#"
    case A => "A"
    case ASharp => "A#"
    case B => "B"
  }

  /** Exact, case-sensitive lookup of a spelling. */
  function ParsePitchClass(s: string): (r: Result<PitchClass>)
    ensures r.Ok? ==> AsStr(r.value) == s
  {
    if s == "C" then Ok(C)
    else if s == "C#" then Ok(CSharp)
    else if s == "D" then Ok(D)
    else if s == "D#" then Ok(DSharp)
    else if s == "E" then Ok(E)
    else if s == "F" then Ok(F)
    else if s == "F#" then Ok(FSharp)
    else if s == "G" then Ok(G)
    else if s == "G#" then Ok(GSharp)
    else if s == "A" then Ok(A)
    else if s == "A#" then Ok(ASharp)
    else if s == "B" then Ok(B)
    else Err
  }

  /** Position in the chromatic scale, which is also the order `derive(Ord)` gives the enum. */
  function Index(pc: PitchClass): (i: nat)
    ensures i < 12
  {
    match pc
    case C => 0
    case CSharp => 1
    case D => 2
    case DSharp => 3
    case E => 4
    case F => 5
    case FSharp => 6
    case G => 7
    case GSharp => 8
    case A => 9
    case ASharp => 10
    case B => 11
  }

  /** Distinct classes have distinct positions. */
  lemma IndexInjective(p: PitchClass, q: PitchClass)
    requires Index(p) == Index(q)
    ensures p == q
  {
  }

  /** The classes that the register notation files under the next register up:
      A, A# and B. */
  predicate IsShiftedDown(pc: PitchClass)
    ensures IsShiftedDown(pc) <==> Index(pc) >= 9
  {
    pc == A || pc == ASharp || pc == B
  }

  /** Parsing a rendered spelling gives back the class. */
  lemma ParseAsStr(pc: PitchClass)
    ensures ParsePitchClass(AsStr(pc)) == Ok(pc)
  {
  }

  /** Rendering is injective. */
  lemma AsStrInjective(p: PitchClass, q: PitchClass)
    requires AsStr(p) == AsStr(q)
    ensures p == q
  {
  }

  /** Parsing succeeds exactly on the twelve canonical spellings. */
  lemma ParseExactly(s: string, pc: PitchClass)
    ensures ParsePitchClass(s) == Ok(pc) <==> AsStr(pc) == s
  {
  }

  /** Among the strings of shape `[A-G][#]?`, only `E#` and `B#` fail to parse. */
  lemma ClassLiteralParses(s: string)
    requires IsClassLiteral(s)
    ensures ParsePitchClass(s).Err? <==> s == "E#" || s == "B#"
  {
  }

  /** No lower-cased string is a class spelling: "invalid", "c", "c#", ... all fail. */
  lemma LowercaseRejected(s: string)
    ensures ParsePitchClass(ToLowercase(s)).Err?
  {
  }
}
