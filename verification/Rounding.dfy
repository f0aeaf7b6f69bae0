/** Conversions from reals to integers as the sources make them. */
module Rounding {
  /** A cast to int drops the fraction: it rounds towards zero. */
  function Trunc(r: real): int { if r >= 0.0 then r.Floor else -((-r).Floor) }
}
