/** A concrete pitch: an 8-bit scientific octave and a pitch class. */
module Pitches {

  import opened PitchClasses
  import opened Decimal

  /** Octave 4 holds middle C; the octave type bounds it to 0..255. */
  datatype Pitch = Pitch(octave: u8, pitchClass: PitchClass)

  /** Semitones above C0. */
  function Semitone(p: Pitch): (n: nat)
    ensures n < 256 * 12
    ensures n % 12 == Index(p.pitchClass) && n / 12 == p.octave as int
  {
    12 * p.octave as int + Index(p.pitchClass)
  }

  /** The order `derive(PartialOrd, Ord)` gives the struct: by octave, then by class. */
  predicate Less(p: Pitch, q: Pitch)
    ensures Less(p, q) <==> Semitone(p) < Semitone(q)
  {
    p.octave < q.octave || (p.octave == q.octave && Index(p.pitchClass) < Index(q.pitchClass))
  }

  /** The derived order is a strict total order. */
  lemma LessIsStrictTotalOrder(p: Pitch, q: Pitch)
    ensures Less(p, q) ==> !Less(q, p)
    ensures p != q ==> Less(p, q) || Less(q, p)
  {
    if p != q && Semitone(p) == Semitone(q) {
      SemitoneInjective(p, q);
    }
  }

  /** A pitch is determined by its height. */
  lemma SemitoneInjective(p: Pitch, q: Pitch)
    requires Semitone(p) == Semitone(q)
    ensures p == q
  {
  }
}
