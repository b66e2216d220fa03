/** Scientific pitch notation: a class spelling followed by a decimal octave,
    `^[A-G][#]?(0|[1-9]\d*)$` (for example `C#4`), with `\d` read as an ASCII
    digit: other decimal digits the pattern lets through are refused by the
    octave decoding anyway. */
module Scientific {

  import opened Results
  import opened Ascii
  import opened PitchClasses
  import opened Decimal
  import opened Pitches

  /** `s` splits at `k` into a class part `[A-G][#]?` and an octave part `0|[1-9]\d*`. */
  predicate IsSplit(s: string, k: nat) {
    0 < k <= |s| && IsClassLiteral(s[..k]) && IsOctaveLiteral(s[k..])
  }

  /** The language of the scientific pattern. */
  ghost predicate InLanguage(s: string) {
    exists k: nat :: IsSplit(s, k)
  }

  /** Where the pattern must split `s`: after the `#` if there is one, else after the letter. */
  function ClassLength(s: string): (k: nat)
    ensures forall j: nat :: IsSplit(s, j) ==> j == k
  {
    if |s| >= 2 && s[1] == '#' then 2 else 1
  }

  /** Match the pattern, then decode the octave and the class. */
  function Parse(s: string): (r: Result<Pitch>)
    ensures r.Ok? ==> InLanguage(s)
  {
    var k := ClassLength(s);
    if !IsSplit(s, k) then Err
    else
      match ParseU8(s[k..])
      case Err => Err
      case Ok(octave) =>
        match ParsePitchClass(s[..k])
        case Err => Err
        case Ok(pc) => Ok(Pitch(octave, pc))
  }

  /** The class spelling immediately followed by the decimal octave. */
  function Render(p: Pitch): (s: string)
    ensures IsSplit(s, |AsStr(p.pitchClass)|)
  {
    var cls, num := AsStr(p.pitchClass), DecimalString(p.octave as int);
    assert (cls + num)[..|cls|] == cls && (cls + num)[|cls|..] == num;
    cls + num
  }

  /** Every string of the language starts with a class letter. */
  lemma LanguageStart(s: string)
    requires InLanguage(s)
    ensures |s| > 0 && IsClassLetter(s[0])
  {
  }

  /** Which strings of the pattern's language, read with ASCII digits, parse:
      all but those whose class part is `E#` or `B#` or whose octave is above 255. */
  lemma ParseOfLanguage(s: string, k: nat)
    requires IsSplit(s, k)
    ensures Parse(s).Ok? <==> s[..k] != "E#" && s[..k] != "B#" && ValueOf(s[k..]) <= 255
  {
  }

  /** Parsing the rendering of any pitch gives the pitch back. */
  lemma ParseRender(p: Pitch)
    ensures Parse(Render(p)) == Ok(p)
  {
  }

  /** Every string that parses is the rendering of its result: the notation has
      one spelling per pitch. */
  lemma RenderParse(s: string, p: Pitch)
    requires Parse(s) == Ok(p)
    ensures Render(p) == s
  {
    var k := ClassLength(s);
    DecimalStringOfValue(s[k..]);
    assert s == s[..k] + s[k..];
  }

  /** Octaves above 255 are refused, "C256" among them. */
  lemma RejectsAbove255(cls: string, n: nat)
    requires IsClassLiteral(cls) && n > 255
    ensures Parse(cls + DecimalString(n)).Err?
  {
  }

  /** An octave with a leading zero (other than a lone `0`) is refused. */
  lemma RejectsLeadingZero(cls: string, d: string)
    requires IsClassLiteral(cls) && |d| >= 2 && d[0] == '0'
    ensures Parse(cls + d).Err?
  {
  }

  /** `E#` and `B#` fit the pattern but are not class spellings. */
  lemma RejectsInvalidSharps(d: string)
    ensures Parse("E#" + d).Err? && Parse("B#" + d).Err?
  {
  }

  /** An accepted string consists of class letters, `#` and digits only, and
      starts with a class letter: no sign, no space, no lower case. */
  lemma AcceptedAlphabet(s: string)
    requires Parse(s).Ok?
    ensures |s| > 0 && IsClassLetter(s[0])
    ensures forall i | 0 <= i < |s| :: IsClassLetter(s[i]) || s[i] == '#' || IsDigit(s[i])
  {
  }

  /** Lower-casing any string makes it unparsable ("c4", "c#0", ...). */
  lemma LowercaseRejected(s: string)
    ensures Parse(ToLowercase(s)).Err?
  {
  }

  /** The rejections the program's tests spell out. */
  lemma RejectedExamples()
    ensures Parse("invalid").Err?
    ensures Parse("B-1").Err?
    ensures Parse("C256").Err?
    ensures Parse("C").Err? && Parse("").Err?
  {
    assert DecimalString(256) == "256";
    RejectsAbove255("C", 256);
  }

  /** Scientific spellings of pitches from the program's fixture table. */
  lemma Examples()
    ensures Render(Pitch(0, C)) == "C0"
    ensures Render(Pitch(0, A)) == "A0"
    ensures Render(Pitch(4, A)) == "A4"
    ensures Render(Pitch(4, C)) == "C4"
    ensures Render(Pitch(5, A)) == "A5"
    ensures Render(Pitch(255, ASharp)) == "A#255"
  {
  }
}
