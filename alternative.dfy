/** The register-word notation: a register word followed by a class spelling,
    `^(low|lowlow|lowlowlow|mid[12]|(hi)+)([A-G][#]?)$` (for example `mid2C`,
    `hihiA`). The register level of a pitch is its octave, except that A, A#
    and B are filed one register up. */
module Alternative {

  import opened Results
  import opened Ascii
  import opened PitchClasses
  import opened Decimal
  import opened Pitches

  /** `hi` written `k` times. */
  function HiRun(k: nat): (r: string)
    ensures |r| == 2 * k
  {
    if k == 0 then [] else HiRun(k - 1) + "hi"
  }

  /** A run of `hi` can be peeled from the front as well as from the back. */
  lemma {:induction false} HiRunFront(k: nat)
    ensures HiRun(k + 1) == "hi" + HiRun(k)
  {
    if k > 0 {
      HiRunFront(k - 1);
    }
  }

  /** Number of `hi` units in a string of the form `(hi)*`; fails on any other string. */
  function HiCount(r: string): (n: Result<nat>)
    ensures n.Ok? ==> r == HiRun(n.value)
    decreases |r|
  {
    if r == [] then Ok(0)
    else if |r| >= 2 && r[0] == 'h' && r[1] == 'i' then
      match HiCount(r[2..])
      case Err => Err
      case Ok(k) =>
        HiRunFront(k);
        assert r == "hi" + r[2..];
        Ok(k + 1)
    else Err
  }

  /** Counting a run of `k` units gives `k`. */
  lemma {:induction false} HiCountOfRun(k: nat)
    ensures HiCount(HiRun(k)) == Ok(k)
  {
    if k > 0 {
      HiRunFront(k - 1);
      assert HiRun(k)[2..] == HiRun(k - 1);
      HiCountOfRun(k - 1);
    }
  }

  /** The register words of the pattern, `low|lowlow|lowlowlow|mid[12]|(hi)+`. */
  ghost predicate IsRegisterWord(r: string) {
    r == "lowlowlow" || r == "lowlow" || r == "low" || r == "mid1" || r == "mid2"
    || exists k: nat :: k >= 1 && r == HiRun(k)
  }

  /** The register word naming a register level: five named registers, then
      one `hi` per level above `mid2`. */
  function RegisterWord(level: nat): (r: string)
    ensures IsRegisterWord(r)
  {
    if level == 0 then "lowlowlow"
    else if level == 1 then "lowlow"
    else if level == 2 then "low"
    else if level == 3 then "mid1"
    else if level == 4 then "mid2"
    else HiRun(level - 4)
  }

  /** The register level a register word names: the pattern's register check
      and the mapping to a base octave in one. */
  function BaseOctave(r: string): (b: Result<nat>)
    ensures b.Ok? ==> RegisterWord(b.value) == r
  {
    if r == "lowlowlow" then Ok(0)
    else if r == "lowlow" then Ok(1)
    else if r == "low" then Ok(2)
    else if r == "mid1" then Ok(3)
    else if r == "mid2" then Ok(4)
    else
      match HiCount(r)
      case Err => Err
      case Ok(count) => if count == 0 then Err else Ok(count + 4)
  }

  /** Every register word starts with `l`, `m` or `h`. */
  lemma RegisterWordStart(r: string)
    requires IsRegisterWord(r)
    ensures |r| > 0 && (r[0] == 'l' || r[0] == 'm' || r[0] == 'h')
  {
    if exists k: nat :: k >= 1 && r == HiRun(k) {
      var k: nat :| k >= 1 && r == HiRun(k);
      HiRunFront(k - 1);
    }
  }

  /** Each level has its own register word, and reading it back gives the level. */
  lemma BaseOctaveOfWord(level: nat)
    ensures BaseOctave(RegisterWord(level)) == Ok(level)
  {
    if level >= 5 {
      var r := RegisterWord(level);
      HiRunFront(level - 5);
      assert r[0] == 'h';
      HiCountOfRun(level - 4);
    }
  }

  /** The base octave is defined exactly on the register words of the pattern. */
  lemma BaseOctaveRecognises(r: string)
    ensures BaseOctave(r).Ok? <==> IsRegisterWord(r)
  {
    if IsRegisterWord(r) && !(r == "lowlowlow" || r == "lowlow" || r == "low" || r == "mid1" || r == "mid2") {
      var k: nat :| k >= 1 && r == HiRun(k);
      HiCountOfRun(k);
    }
  }

  /** `s` splits at `k` into a register word and a class part `[A-G][#]?`. */
  ghost predicate IsSplit(s: string, k: nat) {
    k <= |s| && IsRegisterWord(s[..k]) && IsClassLiteral(s[k..])
  }

  /** The language of the register-word pattern. */
  ghost predicate InLanguage(s: string) {
    exists k: nat :: IsSplit(s, k)
  }

  /** Every string of the language starts with `l`, `m` or `h`. */
  lemma LanguageStart(s: string)
    requires InLanguage(s)
    ensures |s| > 0 && (s[0] == 'l' || s[0] == 'm' || s[0] == 'h')
  {
    var k: nat :| IsSplit(s, k);
    RegisterWordStart(s[..k]);
    assert s[..k][0] == s[0];
  }

  /** Where the class part must start: two from the end after a `#`, else one. */
  function ClassStart(s: string): (k: nat)
    requires |s| > 0
    ensures k < |s|
    ensures forall j: nat :: IsSplit(s, j) ==> j == k
  {
    if |s| >= 2 && s[|s| - 1] == '#' then |s| - 2 else |s| - 1
  }

  /** Match the pattern, decode the class, then correct the register level to
      a scientific octave: one lower for A, A# and B, which fails below
      `lowlowlow`, and failure above 255. */
  function Parse(s: string): (r: Result<Pitch>)
    ensures r.Ok? ==> InLanguage(s)
  {
    if |s| == 0 then Err
    else
      var k := ClassStart(s);
      var word, cls := s[..k], s[k..];
      if !IsClassLiteral(cls) then Err
      else
        match ParsePitchClass(cls)
        case Err => Err
        case Ok(pc) =>
          match BaseOctave(word)
          case Err => Err
          case Ok(base) =>
            if IsShiftedDown(pc) && base == 0 then Err
            else
              var octave := if IsShiftedDown(pc) then base - 1 else base;
              if octave > 255 then Err
              else
                assert IsSplit(s, k);
                Ok(Pitch(octave as u8, pc))
  }

  /** The register level of a pitch: its octave, one higher for A, A# and B.
      The program computes it in 16 bits, so 255 + 1 does not wrap. It is the
      number of whole octaves between the A below C0 (three semitones under it)
      and the pitch. */
  function Level(p: Pitch): (n: nat)
    ensures n == (Semitone(p) + 3) / 12
  {
    if IsShiftedDown(p.pitchClass) then p.octave as int + 1 else p.octave as int
  }

  /** The register word of the pitch's level followed by its class spelling. */
  function Render(p: Pitch): (s: string)
    ensures IsSplit(s, |RegisterWord(Level(p))|)
  {
    var word, cls := RegisterWord(Level(p)), AsStr(p.pitchClass);
    assert (word + cls)[..|word|] == word && (word + cls)[|word|..] == cls;
    word + cls
  }

  /** The renderer as the program runs it: pick the register, write `hi` once
      per level above `mid2`, then the class spelling. */
  method Display(p: Pitch) returns (s: string)
    ensures s == Render(p)
  {
    var o: nat := if IsShiftedDown(p.pitchClass) then p.octave as int + 1 else p.octave as int;
    s := "";
    if o == 0 {
      s := s + "lowlowlow";
    } else if o == 1 {
      s := s + "lowlow";
    } else if o == 2 {
      s := s + "low";
    } else if o == 3 {
      s := s + "mid1";
    } else if o == 4 {
      s := s + "mid2";
    } else {
      for i := 0 to o - 4
        invariant s == HiRun(i)
      {
        s := s + "hi";
      }
    }
    assert s == RegisterWord(Level(p));
    s := s + AsStr(p.pitchClass);
  }

  /** The octave correction: a register word of level `level` followed by the
      class `pc` is accepted exactly when the corrected octave lies in 0..255,
      and then it denotes that octave. */
  lemma OctaveCorrection(level: nat, pc: PitchClass)
    ensures Parse(RegisterWord(level) + AsStr(pc)).Ok? <==>
      if IsShiftedDown(pc) then 1 <= level <= 256 else level <= 255
    ensures Parse(RegisterWord(level) + AsStr(pc)).Ok? ==>
      Parse(RegisterWord(level) + AsStr(pc)).value.pitchClass == pc &&
      Parse(RegisterWord(level) + AsStr(pc)).value.octave as int ==
        if IsShiftedDown(pc) then level - 1 else level
  {
    var word, cls := RegisterWord(level), AsStr(pc);
    var s := word + cls;
    assert ClassStart(s) == |word|;
    assert s[..|word|] == word && s[|word|..] == cls;
    BaseOctaveOfWord(level);
    ParseAsStr(pc);
  }

  /** Parsing the rendering of any pitch gives the pitch back. */
  lemma ParseRender(p: Pitch)
    ensures Parse(Render(p)) == Ok(p)
  {
    OctaveCorrection(Level(p), p.pitchClass);
  }

  /** Every string that parses is the rendering of its result: the notation has
      one spelling per pitch. */
  lemma RenderParse(s: string, p: Pitch)
    requires Parse(s) == Ok(p)
    ensures Render(p) == s
  {
  }

  /** A, A# and B after `lowlowlow` would lie below octave 0 and are refused. */
  lemma RejectsUnderflow(pc: PitchClass)
    requires IsShiftedDown(pc)
    ensures Parse("lowlowlow" + AsStr(pc)).Err?
  {
  }

  /** The top of the range: at octave 255, C to G# take 251 `hi`, and A, A#
      and B take 252. */
  lemma TopOfRange(p: Pitch)
    requires p.octave == 255
    ensures Render(p) == HiRun(if IsShiftedDown(p.pitchClass) then 252 else 251) + AsStr(p.pitchClass)
  {
  }

  /** `k` repetitions of `hi` followed by a class are accepted exactly up to
      251 of them for C to G# and up to 252 for A, A# and B; one more is
      refused (252 `hi` before C, for one). */
  lemma HiRunBoundary(k: nat, pc: PitchClass)
    requires k >= 1
    ensures Parse(HiRun(k) + AsStr(pc)).Ok? <==> k <= if IsShiftedDown(pc) then 252 else 251
  {
    assert RegisterWord(k + 4) == HiRun(k);
    OctaveCorrection(k + 4, pc);
  }

  /** Lower-casing any string makes it unparsable ("hic", "mid2c", ...). */
  lemma LowercaseRejected(s: string)
    ensures Parse(ToLowercase(s)).Err?
  {
  }

  /** Fixture pairs in the named registers. */
  lemma NamedRegisterExamples()
    ensures Render(Pitch(0, C)) == "lowlowlowC"
    ensures Render(Pitch(0, A)) == "lowlowA"
    ensures Render(Pitch(4, C)) == "mid2C"
  {
  }

  /** Fixture pairs in the `hi` registers, the octave 6 C row among them. */
  lemma HiRegisterExamples()
    ensures Render(Pitch(4, A)) == "hiA"
    ensures Render(Pitch(5, A)) == "hihiA"
    ensures Render(Pitch(6, C)) == "hihiC"
    ensures Render(Pitch(7, CSharp)) == "hihihiC#"
  {
  }
}
