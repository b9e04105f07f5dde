/** Quantities with an uncertainty, and the time units they are measured in.
    The source keeps estimates and values as `ufloat` magnitudes converted to
    hours by a unit registry; here a quantity is its nominal value and its
    standard deviation, and only the three time units the backlog uses exist. */
module Units {

  type NonNegReal = r: real | 0.0 <= r

  /** A measured quantity: nominal value and standard deviation. */
  datatype Uncertain = Uncertain(nominal: real, std: NonNegReal)

  /** An exactly known quantity (`ufloat(x, 0)`). */
  function Exact(x: real): (u: Uncertain)
    ensures u.nominal == x && u.std == 0.0
  {
    Uncertain(x, 0.0)
  }

  datatype TimeUnit = Minute | Hour | Day

  /** How many hours one unit is. */
  function HoursPer(u: TimeUnit): (h: real)
    ensures h > 0.0
  {
    match u
    case Minute => 1.0 / 60.0
    case Hour => 1.0
    case Day => 24.0
  }

  /** A quantity together with the unit it was written in. */
  datatype Measurement = Measurement(magnitude: Uncertain, unit: TimeUnit)

  /** `m.to(ureg.hours).magnitude`: the same duration expressed in hours.
      Conversion scales the nominal value and the deviation by the same
      positive factor. */
  function ToHours(m: Measurement): (h: Uncertain)
    ensures m.unit == Hour ==> h == m.magnitude
    ensures h.nominal / HoursPer(m.unit) == m.magnitude.nominal
    ensures h.std / HoursPer(m.unit) == m.magnitude.std
    ensures (h.nominal < 0.0) == (m.magnitude.nominal < 0.0)
  {
    var k := HoursPer(m.unit);
    Uncertain(m.magnitude.nominal * k, m.magnitude.std * k)
  }

  /** The inverse conversion, from hours back into unit `u`. */
  function FromHours(h: Uncertain, u: TimeUnit): (m: Measurement)
    ensures m.unit == u
  {
    var k := HoursPer(u);
    Measurement(Uncertain(h.nominal / k, h.std / k), u)
  }

  /** Converting to hours and back gives the measurement that was written. */
  lemma ToHoursRoundTrip(m: Measurement)
    ensures FromHours(ToHours(m), m.unit) == m
  {
  }

  /** The same duration written in different units converts to the same
      number of hours: 90 minutes is 1.5 hours and one day is 24 hours. */
  lemma UnitsAgree()
    ensures ToHours(Measurement(Exact(90.0), Minute)) == Exact(1.5)
    ensures ToHours(Measurement(Exact(1.0), Day)) == ToHours(Measurement(Exact(24.0), Hour))
  {
  }
}
