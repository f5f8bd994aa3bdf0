/** The grpc-timeout header (crates/grpc-quic-client/src/channel.rs). Durations in nanoseconds. */
module Timeout {
  import opened Common
  import opened Errors
  import opened Retry

  // What `parse_grpc_timeout` comes to; a product beyond 64 bits panics or wraps, by build mode.
  datatype Parsed = Timeout(nanos: nat) | NoTimeout | Overflow

  // u64::from_str: an optional plus, then at least one digit, and the value must fit.
  function ParseU64(s: string): Option<nat> {
    var digits := if s != [] && s[0] == '+' then s[1..] else s;
    if AllDigits(digits) && DigitsValue(digits) <= U64_MAX then Some(DigitsValue(digits)) else None
  }

  function Checked(product: nat, nanosPer: nat): Parsed {
    if product <= U64_MAX then Timeout(product * nanosPer) else Overflow
  }

  function ParseGrpcTimeout(s: string): Parsed {
    if s == [] then NoTimeout
    else
      var n := |s| - 1;
      match ParseU64(s[..n])
      case None => NoTimeout
      case Some(v) =>
        if s[n] == 'H' then Checked(v * 3600, 1_000_000_000)
        else if s[n] == 'M' then Checked(v * 60, 1_000_000_000)
        else if s[n] == 'S' then Timeout(v * 1_000_000_000)
        else if s[n] == 'm' then Timeout(v * 1_000_000)
        else if s[n] == 'u' then Timeout(v * 1_000)
        else if s[n] == 'n' then Timeout(v)
        else NoTimeout
  }

  // Nanoseconds in one unit; 0 for what is no unit.
  function UnitNanos(unit: char): nat {
    match unit
    case 'H' => 3_600_000_000_000
    case 'M' => 60_000_000_000
    case 'S' => 1_000_000_000
    case 'm' => 1_000_000
    case 'u' => 1_000
    case 'n' => 1
    case _ => 0
  }

  /**
   A timeout printed as decimal value and unit is read back exactly, for every 64-bit value and
   every unit, unless its hours or minutes overflow 64 bits of seconds. Eight digits never do.
   */
  lemma TimeoutRoundTrip(v: nat, unit: char)
    requires v <= U64_MAX && UnitNanos(unit) > 0
    ensures ParseGrpcTimeout(Decimal(v) + [unit]) ==
            if (unit == 'H' && v > U64_MAX / 3600) || (unit == 'M' && v > U64_MAX / 60) then Overflow
            else Timeout(v * UnitNanos(unit))
    ensures v <= 99_999_999 ==> ParseGrpcTimeout(Decimal(v) + [unit]) == Timeout(v * UnitNanos(unit))
  {
    DecimalParses(v);
    var s := Decimal(v) + [unit];
    assert s[..|s| - 1] == Decimal(v);
    assert IsDigit(Decimal(v)[0]);
  }
}
