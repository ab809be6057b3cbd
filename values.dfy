/** Scalar values a source row can hold, and the type dispatch applied to each
    value before the insert (migration.py, the body of the inner loop of
    migrate_data). */
module Values {
  import opened Wrappers

  /** A calendar date (the fields `year`, `month`, `day` of Python's
      `datetime.date`). */
  datatype Date = Date(year: int, month: int, day: int)

  /** The time-of-day part of a `datetime.datetime`. */
  datatype TimeOfDay = TimeOfDay(hour: int, minute: int, second: int, microsecond: int)

  const Midnight: TimeOfDay := TimeOfDay(0, 0, 0, 0)

  /** A fixed-point `decimal.Decimal`: coefficient * 10^exponent. */
  datatype Decimal = Decimal(coefficient: int, exponent: int)

  /** A Python `float`, kept as the bit pattern of an IEEE-754 binary64. */
  datatype Float = Float(bits: bv64)

  /** The value of one column of a fetched row. `DateTimeVal` is a
      `datetime.datetime`, which Python treats as a kind of `datetime.date`;
      `utcOffset` is its time zone (None for a naive datetime). */
  datatype Value =
    | NullVal
    | BoolVal(b: bool)
    | IntVal(i: int)
    | StrVal(s: string)
    | FloatVal(f: Float)
    | DecimalVal(dec: Decimal)
    | DateVal(date: Date)
    | DateTimeVal(date: Date, time: TimeOfDay, utcOffset: Option<int>)

  /** `isinstance(v, datetime.date)`: true of dates AND of datetimes. */
  predicate IsDateInstance(v: Value) {
    v.DateVal? || v.DateTimeVal?
  }

  /** A value the type dispatch leaves as it is: no decimal, no bare date,
      and a datetime only as a naive midnight. */
  predicate Normalized(v: Value) {
    !v.DecimalVal? && !v.DateVal? &&
    (v.DateTimeVal? ==> v.time == Midnight && v.utcOffset == None)
  }

  /** The type dispatch of migration.py:94-101. `toFloat` is Python's
      `float(Decimal)`, left uninterpreted. Tests are made in the source's
      order: Decimal first, then anything that is a date (datetimes
      included, so they lose their time of day), everything else unchanged. */
  function Normalize(v: Value, toFloat: Decimal -> Float): (r: Value)
    ensures Normalized(r)
    ensures Normalized(v) ==> r == v
    ensures v.DecimalVal? ==> r == FloatVal(toFloat(v.dec))
    ensures IsDateInstance(v) ==> r.DateTimeVal? && r.date == v.date
  {
    if v.DecimalVal? then FloatVal(toFloat(v.dec))
    else if IsDateInstance(v) then DateTimeVal(v.date, Midnight, None)
    else v
  }

  /** Normalising twice is normalising once. */
  lemma NormalizeIdempotent(v: Value, toFloat: Decimal -> Float)
    ensures Normalize(Normalize(v, toFloat), toFloat) == Normalize(v, toFloat)
  {
  }

  /** A datetime keeps only its calendar date: any two datetimes (or a date
      and a datetime) on the same day normalise to the same value. */
  lemma NormalizeForgetsTime(d: Date, t: TimeOfDay, z: Option<int>, toFloat: Decimal -> Float)
    ensures Normalize(DateTimeVal(d, t, z), toFloat) == Normalize(DateVal(d), toFloat)
    ensures Normalize(DateVal(d), toFloat) == DateTimeVal(d, Midnight, None)
  {
  }
}
