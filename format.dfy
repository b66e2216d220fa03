/** Format detection: try scientific notation, then the register-word notation,
    and tag the pitch with the notation that matched. */
module Format {

  import opened Results
  import opened Ascii
  import opened PitchClasses
  import opened Pitches
  import Scientific
  import Alternative

  datatype PitchFormat = ScientificPitchNotation | AlternativePitchNotation

  datatype PitchWithFormat = PitchWithFormat(pitch: Pitch, format: PitchFormat)

  /** First match wins; a string neither notation accepts is the one parse error. */
  function FromStr(s: string): (r: Result<PitchWithFormat>)
    ensures r.Err? <==> Scientific.Parse(s).Err? && Alternative.Parse(s).Err?
  {
    match Scientific.Parse(s)
    case Ok(p) => Ok(PitchWithFormat(p, ScientificPitchNotation))
    case Err =>
      match Alternative.Parse(s)
      case Ok(p) => Ok(PitchWithFormat(p, AlternativePitchNotation))
      case Err => Err
  }

  /** Parsing a pitch without keeping the format. */
  function ParsePitch(s: string): (r: Result<Pitch>)
    ensures r.Ok? <==> FromStr(s).Ok?
    ensures r.Ok? ==> Scientific.Parse(s) == r || Alternative.Parse(s) == r
  {
    match FromStr(s)
    case Ok(pw) => Ok(pw.pitch)
    case Err => Err
  }

  /** Render in the notation the input was not written in. */
  function Convert(s: string): (r: Result<string>)
    ensures r.Err? <==> FromStr(s).Err?
    ensures r.Ok? ==> FromStr(r.value).Ok? && FromStr(r.value).value.pitch == FromStr(s).value.pitch
    ensures r.Ok? ==> FromStr(r.value).value.format != FromStr(s).value.format
  {
    match FromStr(s)
    case Err => Err
    case Ok(pw) =>
      match pw.format
      case ScientificPitchNotation =>
        DetectAlternative(pw.pitch);
        Ok(Alternative.Render(pw.pitch))
      case AlternativePitchNotation =>
        DetectScientific(pw.pitch);
        Ok(Scientific.Render(pw.pitch))
  }

  /** The two languages are disjoint: scientific strings start with a class
      letter, register-word strings with `l`, `m` or `h`. */
  lemma LanguagesDisjoint(s: string)
    ensures !(Scientific.InLanguage(s) && Alternative.InLanguage(s))
  {
  }

  /** At most one of the two parsers accepts any string. */
  lemma ParsersDisjoint(s: string)
    ensures Scientific.Parse(s).Err? || Alternative.Parse(s).Err?
  {
  }

  /** Detection does not depend on the order the parsers are tried in: the
      result is tagged with a format exactly when that notation's parser
      accepts the string and yields the pitch. */
  lemma FromStrCharacterised(s: string, pw: PitchWithFormat)
    ensures FromStr(s) == Ok(pw) <==>
      (pw.format == ScientificPitchNotation && Scientific.Parse(s) == Ok(pw.pitch)) ||
      (pw.format == AlternativePitchNotation && Alternative.Parse(s) == Ok(pw.pitch))
  {
  }

  /** A scientific rendering is detected as scientific and gives the pitch back. */
  lemma DetectScientific(p: Pitch)
    ensures FromStr(Scientific.Render(p)) == Ok(PitchWithFormat(p, ScientificPitchNotation))
  {
  }

  /** A register-word rendering is detected as such and gives the pitch back. */
  lemma DetectAlternative(p: Pitch)
    ensures FromStr(Alternative.Render(p)) == Ok(PitchWithFormat(p, AlternativePitchNotation))
  {
    Alternative.ParseRender(p);
    ParsersDisjoint(Alternative.Render(p));
  }

  /** Lower-cased input is never a pitch. */
  lemma LowercaseRejected(s: string)
    ensures FromStr(ToLowercase(s)).Err?
  {
  }

  /** Converting the output converts back to the input, so conversion is a
      bijection between the two languages' accepted strings. */
  lemma ConvertInvolution(s: string, t: string)
    requires Convert(s) == Ok(t)
    ensures Convert(t) == Ok(s)
  {
    var pw := FromStr(s).value;
    if pw.format == ScientificPitchNotation {
      Scientific.RenderParse(s, pw.pitch);
      DetectAlternative(pw.pitch);
    } else {
      Alternative.RenderParse(s, pw.pitch);
      DetectScientific(pw.pitch);
    }
  }

  /** Converting the scientific spelling of any pitch gives its register-word spelling. */
  lemma ConvertScientific(p: Pitch)
    ensures Convert(Scientific.Render(p)) == Ok(Alternative.Render(p))
  {
    DetectScientific(p);
  }

  /** Converting the register-word spelling of any pitch gives its scientific spelling. */
  lemma ConvertAlternative(p: Pitch)
    ensures Convert(Alternative.Render(p)) == Ok(Scientific.Render(p))
  {
    DetectAlternative(p);
  }
}
