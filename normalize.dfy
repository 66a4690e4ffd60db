/** The normalisers that the deck's setters apply before storing a value
    (pyjay/deck.py). */
module Normalize {

  function Min(a: real, b: real): real { if a <= b then a else b }

  function Max(a: real, b: real): real { if a >= b then a else b }

  /** The two-branch normaliser of `set_volume` and `set_pan`: a value above
      the upper bound becomes the upper bound, else a value below the lower
      bound becomes the lower bound. */
  function Clamp(v: real, lo: real, hi: real): (r: real)
    requires lo <= hi
    ensures lo <= r <= hi
    ensures lo <= v <= hi ==> r == v
    ensures r == Max(lo, Min(hi, v))
  {
    if v > hi then hi else if v < lo then lo else v
  }

  /** The values `set_frequency` can store: exactly 10, or anything in
      [100, 200000]. */
  predicate FrequencyInRange(f: real)
  {
    f == 10.0 || 100.0 <= f <= 200000.0
  }

  /** `set_frequency`'s normaliser. It is not a clamp: a value above 200000
      falls back to 100000, and a value below 100 drops to 10. */
  function NormalizeFrequency(v: real): (r: real)
    ensures FrequencyInRange(r)
    ensures FrequencyInRange(v) ==> r == v
    ensures v > 200000.0 ==> r == 100000.0
    ensures v < 100.0 ==> r == 10.0
  {
    if v > 200000.0 then 100000.0 else if v < 100.0 then 10.0 else v
  }

  /** Normalising a normalised value changes nothing. */
  lemma ClampIdempotent(v: real, lo: real, hi: real)
    requires lo <= hi
    ensures Clamp(Clamp(v, lo, hi), lo, hi) == Clamp(v, lo, hi)
  {
  }

  lemma NormalizeFrequencyIdempotent(v: real)
    ensures NormalizeFrequency(NormalizeFrequency(v)) == NormalizeFrequency(v)
  {
  }

  /** Unlike a clamp, the frequency normaliser is not monotone: raising a
      request past 200000 lowers the stored frequency, and a request just
      below 100 is stored as far less than one just above it. */
  lemma NormalizeFrequencyNotMonotone()
    ensures NormalizeFrequency(200000.0) > NormalizeFrequency(200000.5)
    ensures NormalizeFrequency(99.0) == 10.0 && NormalizeFrequency(100.0) == 100.0
  {
  }
}
