/** The scalar unit converters of the weather pipeline (`f_to_c` ... `mm_to_cm`). */
module Convert {

  /** Fahrenheit to Celsius: the result is the temperature whose Fahrenheit reading is `f`. */
  function FToC(f: real): (c: real)
    ensures c * 9.0 / 5.0 + 32.0 == f
  {
    (f - 32.0) * 5.0 / 9.0
  }

  /** Inches to centimetres (2.54 cm per inch). */
  function InToCm(inches: real): (cm: real)
    ensures cm / 2.54 == inches
  {
    inches * 2.54
  }

  /** Inches to millimetres, computed through centimetres. */
  function InToMm(inches: real): (mm: real)
    ensures mm == 10.0 * InToCm(inches)
    ensures mm / 25.4 == inches
  {
    (inches * 2.54) * 10.0
  }

  /** Metres per second to miles per hour (factor 2.236936). */
  function MsToMph(ms: real): (mph: real)
    ensures mph / 2.236936 == ms
  {
    ms * 2.236936
  }

  /** Knots to miles per hour (factor 1.150779). */
  function KnToMph(kn: real): (mph: real)
    ensures mph / 1.150779 == kn
  {
    kn * 1.150779
  }

  /** Millimetres to centimetres. */
  function MmToCm(mm: real): (cm: real)
    ensures cm * 10.0 == mm
  {
    mm / 10.0
  }

  /** The reference points of the converters: freezing point, one inch, one knot. */
  lemma ReferencePoints()
    ensures FToC(32.0) == 0.0 && FToC(212.0) == 100.0 && FToC(-40.0) == -40.0
    ensures InToCm(1.0) == 2.54 && InToMm(1.0) == 25.4
    ensures KnToMph(1.0) == 1.150779 && MsToMph(1.0) == 2.236936
  {
  }

  /** Millimetres of a length, brought back to centimetres, are its centimetres. */
  lemma MmOfInchesToCm(inches: real)
    ensures MmToCm(InToMm(inches)) == InToCm(inches)
  {
  }

  /** Every converter is strictly increasing. */
  lemma ConvertersMonotone(x: real, y: real)
    requires x < y
    ensures FToC(x) < FToC(y) && InToCm(x) < InToCm(y) && InToMm(x) < InToMm(y)
    ensures MsToMph(x) < MsToMph(y) && KnToMph(x) < KnToMph(y) && MmToCm(x) < MmToCm(y)
  {
  }
}
