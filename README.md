# pitchconv in Dafny

A model of the pitch-name converter of `pitchconv`. It converts between two
notations for one concrete pitch (an octave in 0..255 and one of twelve
sharp-only pitch classes):

- **scientific notation**: the class spelling followed by the decimal octave, e.g. `C#4`;
- **register-word notation**: a register word (`lowlowlow`, `lowlow`, `low`, `mid1`,
  `mid2`, or `hi` repeated) followed by the class spelling, e.g. `mid2C`, `hihiA`.

The register words name levels 0, 1, 2, 3, 4, and `hi`×k names level k+4. A
pitch's level is its octave, except for A, A# and B
(`Alternative.Level` proves level = ⌊(semitone + 3) / 12⌋).

Modules, one per component of `src/pitch.rs`:

- `Results`: the single failure outcome.
- `Ascii`: digits, ASCII lower-casing.
- `PitchClasses`: the class enum and its codec.
- `Decimal`: octave numerals and `u8`.
- `Pitches`: the pitch and its derived order.
- `Scientific`: the scientific grammar.
- `Alternative`: the register-word grammar and its octave correction.
- `Format`: format detection and the convert-to-the-other-notation dispatch of `src/main.rs`.

Both regular expressions are modelled as recognisers. `IsSplit` and `InLanguage`
state each pattern's language, with ASCII digits for `\d`. `Parse` finds the one split point, and
`ClassLength` and `ClassStart` prove that the split point is unique. The main
results:

- In both grammars, parse and render are inverse bijections between pitches and
  accepted strings: `ParseRender` and `RenderParse`.
- The two languages are disjoint.
- Detection is order-independent.
- Converting twice gives back the input.

The register-word renderer is imperative in the program (it writes `hi` in a
loop). It is `Alternative.Display`, a method with a loop, proved equal to the
specification function `Alternative.Render`.

A, A# and B are filed one register up, so the register boundary sits between
G# and A, three semitones below C.

## Model

| member | source | states |
|---|---|---|
| `PitchClasses.AsStr` | src/pitch.rs:21-37 | every spelling has the shape `[A-G][#]?`, and it ends in `#` exactly when it has two characters |
| `PitchClasses.ParsePitchClass` | src/pitch.rs:54-72 | parsing succeeds only on the canonical spelling of the class it returns |
| `PitchClasses.ParseAsStr` | src/pitch.rs:1273-1277 | parsing the spelling of any class gives that class back |
| `PitchClasses.AsStrInjective` | src/pitch.rs:22-37 | distinct classes have distinct spellings |
| `PitchClasses.ParseExactly` | src/pitch.rs:54-69 | `ParsePitchClass(s) == Ok(pc)` if and only if `s` is the spelling of `pc`, so every other string fails |
| `PitchClasses.ClassLiteralParses` | src/pitch.rs:145-153 | of the strings matching `[A-G][#]?`, exactly `E#` and `B#` fail class parsing |
| `PitchClasses.IsShiftedDown` | src/pitch.rs:192-195 | the classes given the octave correction (A, A#, B, the arms at lines 193 and 223) are exactly those at chromatic index 9 or above |
| `PitchClasses.Index` | src/pitch.rs:5-19 | the derived order's position of a class is below 12 |
| `PitchClasses.IndexInjective` | src/pitch.rs:5-19 | distinct classes have distinct positions in the derived order |
| `PitchClasses.LowercaseRejected` | src/pitch.rs:1279-1285 | no lower-cased string parses as a class |
| `Decimal.DecimalString` | src/pitch.rs:213 | the decimal rendering of n is a lone `0` or has no leading zero, and denotes n |
| `Decimal.DecimalStringOfValue` | src/pitch.rs:145 | every digit string that is a lone `0` or has no leading zero is the rendering of its own value, so the shape allows one numeral per number |
| `Decimal.ParseU8` | src/pitch.rs:152 | a decoded numeral of the pattern's octave shape is the rendering of the decoded octave; `ParseU8OfDecimal` and `ParseU8RejectsAbove255` give the range |
| `Decimal.ParseU8OfDecimal` | src/pitch.rs:152 | decoding the numeral of any octave 0..255 gives that octave |
| `Decimal.ParseU8RejectsAbove255` | src/pitch.rs:152 | numerals of values above 255 fail to decode as an octave |
| `Pitches.Semitone` | src/pitch.rs:74-78 | a pitch's height is below 12·256; its remainder mod 12 is the class index and its quotient is the octave |
| `Pitches.Less` | src/pitch.rs:74-78 | the derived order (octave, then class) is the order of pitch height |
| `Pitches.LessIsStrictTotalOrder` | src/pitch.rs:74-78 | the derived order on pitches is asymmetric and total |
| `Pitches.SemitoneInjective` | src/pitch.rs:74-78 | two pitches of equal height are equal |
| `Scientific.ClassLength` | src/pitch.rs:145 | the scientific pattern can split a string into class and octave at one place only |
| `Scientific.Parse` | src/pitch.rs:144-159 | a string that parses belongs to the pattern's language |
| `Scientific.Render` | src/pitch.rs:211-215 | the rendering splits into the class spelling and an octave numeral of the pattern's shape |
| `Scientific.LanguageStart` | src/pitch.rs:145 | every string of the pattern starts with a letter A-G |
| `Scientific.ParseOfLanguage` | src/pitch.rs:144-159 | a string of the pattern's language (with ASCII digits) parses if and only if its class part is not `E#` or `B#` and its octave is at most 255 |
| `Scientific.ParseRender` | src/pitch.rs:1296-1302 | parsing the scientific rendering of any pitch gives the pitch back |
| `Scientific.RenderParse` | src/pitch.rs:144-159 | every string that parses is the rendering of its result |
| `Scientific.RejectsAbove255` | src/pitch.rs:152 | a class spelling followed by a numeral above 255 is refused |
| `Scientific.RejectsLeadingZero` | src/pitch.rs:145 | a class spelling followed by a numeral of two or more digits starting with `0` is refused |
| `Scientific.RejectsInvalidSharps` | src/pitch.rs:153 | `E#` and `B#` followed by anything are refused |
| `Scientific.AcceptedAlphabet` | src/pitch.rs:145 | an accepted string starts with A-G and holds only A-G, `#` and digits, so it has no sign, space or lower case |
| `Scientific.LowercaseRejected` | src/pitch.rs:1313-1318 | no lower-cased string parses |
| `Scientific.RejectedExamples` | src/pitch.rs:1304-1312 | `invalid`, `B-1`, `C256`, `C` and the empty string are refused |
| `Scientific.Examples` | src/pitch.rs:310-1271 | fixture renderings: `C0`, `A0`, `A4`, `C4`, `A5`, `A#255` |
| `Alternative.HiCount` | src/pitch.rs:182 | a successful count k means the string is `hi` repeated k times |
| `Alternative.HiCountOfRun` | src/pitch.rs:182 | counting `hi` repeated k times gives k |
| `Alternative.RegisterWord` | src/pitch.rs:227-238 | the word written for any level is a register word of the pattern |
| `Alternative.BaseOctave` | src/pitch.rs:175-190 | a register word maps to a level only if it is the word written for that level |
| `Alternative.RegisterWordStart` | src/pitch.rs:163 | every register word starts with `l`, `m` or `h` |
| `Alternative.BaseOctaveOfWord` | src/pitch.rs:175-190 | reading the word of any level gives that level (five named registers, then k `hi` for k+4) |
| `Alternative.BaseOctaveRecognises` | src/pitch.rs:163-190 | a base octave exists exactly for the register words: `low`, `lowlow`, `lowlowlow`, `mid1`, `mid2` and one or more `hi` |
| `Alternative.LanguageStart` | src/pitch.rs:163 | every string of the register-word pattern starts with `l`, `m` or `h` |
| `Alternative.ClassStart` | src/pitch.rs:163 | the register-word pattern can split a string into register and class at one place only |
| `Alternative.Parse` | src/pitch.rs:161-206 | a string that parses belongs to the pattern's language |
| `Alternative.Level` | src/pitch.rs:222-225 | the register level is ⌊(semitone + 3) / 12⌋ |
| `Alternative.Render` | src/pitch.rs:220-242 | the rendering splits into the register word of the pitch's level and the class spelling |
| `Alternative.Display` | src/pitch.rs:227-240 | the loop that writes `hi` once per level above `mid2` produces exactly the rendering |
| `Alternative.OctaveCorrection` | src/pitch.rs:172-200 | a level's word followed by a class is accepted if and only if the corrected octave lies in 0..255; the result is octave level−1 for A/A#/B, otherwise level |
| `Alternative.ParseRender` | src/pitch.rs:1331-1338 | parsing the register-word rendering of any pitch gives the pitch back |
| `Alternative.RenderParse` | src/pitch.rs:161-206 | every string that parses is the rendering of its result |
| `Alternative.RejectsUnderflow` | src/pitch.rs:192-200 | `lowlowlow` followed by A, A# or B is refused instead of going below octave 0 |
| `Alternative.TopOfRange` | src/pitch.rs:220-242 | at octave 255, C to G# are written with 251 `hi` and A, A#, B with 252 |
| `Alternative.HiRunBoundary` | src/pitch.rs:1344-1347 | k `hi` followed by a class parse exactly when k ≤ 251 for C to G# and k ≤ 252 for A, A#, B, so 252 `hi` before C is refused |
| `Alternative.LowercaseRejected` | src/pitch.rs:1348-1353 | no lower-cased string parses |
| `Alternative.NamedRegisterExamples` | src/pitch.rs:310-1271 | fixture renderings: C0 `lowlowlowC`, A0 `lowlowA`, C4 `mid2C` |
| `Alternative.HiRegisterExamples` | src/pitch.rs:310-1271 | fixture renderings: A4 `hiA`, A5 `hihiA`, C6 `hihiC`, C#7 `hihihiC#` |
| `Format.FromStr` | src/pitch.rs:122-142 | detection fails exactly when both parsers fail |
| `Format.ParsePitch` | src/pitch.rs:102-108 | parsing a pitch succeeds when detection does, and then returns what one of the two parsers returned |
| `Format.LanguagesDisjoint` | src/pitch.rs:145-163 | no string is in both patterns' languages |
| `Format.ParsersDisjoint` | src/pitch.rs:125-141 | at most one of the two parsers accepts any string |
| `Format.FromStrCharacterised` | src/pitch.rs:125-141 | detection returns a pitch tagged with a format if and only if that format's parser accepts the string and gives the pitch, so the order of the attempts does not matter |
| `Format.DetectScientific` | src/pitch.rs:125-131 | a scientific rendering is detected as scientific, with its pitch |
| `Format.DetectAlternative` | src/pitch.rs:133-138 | a register-word rendering is detected as register-word, with its pitch |
| `Format.LowercaseRejected` | src/pitch.rs:122-142 | no lower-cased string is detected as a pitch in either notation |
| `Format.Convert` | src/main.rs:15-22 | conversion fails exactly when detection fails; otherwise its output is detected as the same pitch in the other notation |
| `Format.ConvertInvolution` | src/main.rs:13-22 | if converting `s` gives `t`, then converting `t` gives `s` |
| `Format.ConvertScientific` | src/main.rs:15-18 | the scientific spelling of any pitch converts to its register-word spelling |
| `Format.ConvertAlternative` | src/main.rs:19-21 | the register-word spelling of any pitch converts to its scientific spelling |

## Left out

- The command-line shell in `src/main.rs` is left out: argument parsing, `unwrap` panicking on bad input, and printing. Only its "render in the other notation" dispatch is modelled, as `Format.Convert`.
- The two unit error structs and their `From` conversions in `src/error.rs` become the single `Err` outcome.
- The regular-expression engine is not modelled. Each pattern's language is stated directly, and the parsers are recognisers for it.
- Rust's `Formatter`, `write!` and `fmt::Result` are left out. Renderers are string-valued functions, plus the `Display` method for the register-word renderer.
- `Display` for `PitchClass` and `Pitch`, and `FromStr` for `PitchClass`, only delegate. They are `AsStr`, `Scientific.Render` and `ParsePitchClass`.
- `Pitch::scientific_pitch_notation` and `Pitch::alternative_pitch_notation` are borrowing wrappers and are not modelled separately.
- `Scientific.InLanguage` is the ASCII-digit part of the scientific pattern. The program's pattern is compiled in Unicode mode, where `\d` also matches other decimal digits (`\p{Nd}`, such as `٣`). Strings with such digits are refused by both: in the program by `str::parse::<u8>`, in the model by the pattern itself. So `Scientific.Parse` agrees with the program on every input, but `Scientific.ParseOfLanguage` describes only the ASCII-digit strings of the pattern.
- `Decimal.ParseU8` models `str::parse::<u8>` only on digit strings. Rust's acceptance of a leading `+` is not modelled, because the pattern never passes a sign through.
- The `count == 0` branch is unreachable behind the pattern. In the model it survives as `BaseOctave`'s refusal of the empty register word, with the same outcome.
- `lowlowlow` followed by A, A# or B makes the program subtract 1 from a `usize` 0: a debug build panics, and a release build wraps and then rejects the value as above 255. The model returns the parse failure directly and does not model the panic.
- `Ascii.ToLowercase` lower-cases ASCII letters only, whereas Rust's `to_lowercase` is Unicode-aware. The lower-case rejection properties hold for any mapping that leaves no letter A-G.
- The derived `PartialOrd`/`Ord` on `PitchClass` is modelled through `Index`, and on `Pitch` as `Pitches.Less`. Proved: `Less` is a strict total order and agrees with pitch height; the other comparison operators are not modelled.
