/** Small value types shared by every monitor of the liquidity report. */
module Common {

  /** Python's `None` versus a present value. */
  datatype Option<+T> = None | Some(value: T)

  /** A value or the exception the source raises instead. */
  datatype Result<+T, +E> = Ok(value: T) | Err(error: E)

  /** The `value` field of one provider observation: JSON null, the
      provider's "." placeholder, an empty string, or a number. */
  datatype RawValue = Null | Dot | Blank | Num(x: real)

  /** One observation as delivered, dated by its day number. */
  datatype RawObs = RawObs(date: int, value: RawValue)

  /** One usable observation. */
  datatype Obs = Obs(date: int, value: real)

  /** The sort key of an observation: its date (ISO date strings order like the days they name). */
  function DateOf(o: Obs): int { o.date }
}
