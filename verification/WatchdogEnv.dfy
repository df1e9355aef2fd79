/** Reading the watchdog's configuration from the environment, and arming the accept timeout with it. */
module WatchdogEnv {
  import opened Prelude
  import opened Text

  /** Digits accumulated left to right, giving up as soon as the value leaves the type. */
  function Accumulate(s: string, acc: nat, max: nat): Option<nat> {
    if s == "" then Some(acc)
    else if !IsDigit(s[0]) then None
    else
      var next := acc * 10 + DigitValue(s[0]);
      if next > max then None else Accumulate(s[1..], next, max)
  }

  /** What follows an optional plus sign. */
  function Digits(text: string): string {
    if text != "" && text[0] == '+' then text[1..] else text
  }

  /** `str::parse` for an unsigned type whose largest value is `max`. */
  function ParseUnsigned(text: string, max: nat): Option<nat> {
    if Digits(text) == "" then None else Accumulate(Digits(text), 0, max)
  }

  /** An optional plus sign and at least one decimal digit. */
  predicate Numeral(text: string) {
    Digits(text) != "" && AllDigits(Digits(text))
  }

  /** The interval in microseconds, or `None` when there is no watchdog for this process. */
  function HeartbeatFrom(usec: Option<string>, pid: Option<string>, current: U32): Option<nat> {
    if pid.Some? && ParseUnsigned(pid.value, U32_MAX) != Some(current) then None
    else if usec.None? then None
    else match ParseUnsigned(usec.value, U64_MAX)
      case None => None
      case Some(micros) => if micros > 0 then Some(micros / 2) else None
  }

  lemma Distribute(d: nat, p: nat)
    ensures d * p * 10 == d * (10 * p)
  {
  }

  lemma {:induction false} NumberFront(s: string)
    requires s != "" && AllDigits(s)
    ensures Number(s) == DigitValue(s[0]) * Pow10(|s| - 1) + Number(s[1..])
  {
    var n := |s|;
    if n == 1 {
      assert s[..0] == "";
    } else {
      var front := s[..n - 1];
      NumberFront(front);
      assert front[1..] == s[1..][..n - 2];
      assert Number(s[1..]) == Number(s[1..][..n - 2]) * 10 + DigitValue(s[n - 1]);
      assert Pow10(n - 1) == 10 * Pow10(n - 2);
      Distribute(DigitValue(s[0]), Pow10(n - 2));
    }
  }

  lemma AtLeastOnce(a: nat, p: nat)
    requires p > 0
    ensures a * p >= a
  {
  }

  lemma SplitProduct(a: nat, d: nat, p: nat)
    ensures (a + d) * p == a * p + d * p
  {
  }

  lemma Regroup(acc: nat, d: nat, p: nat)
    requires p > 0
    ensures acc * (10 * p) + d * p == (acc * 10 + d) * p >= acc * 10 + d
  {
    var a := acc * 10;
    assert acc * (10 * p) == a * p;
    SplitProduct(a, d, p);
    AtLeastOnce(a + d, p);
  }

  lemma {:induction false} AccumulateIs(s: string, acc: nat, max: nat, v: nat)
    requires acc <= max
    ensures Accumulate(s, acc, max) == Some(v) <==>
            AllDigits(s) && v == acc * Pow10(|s|) + Number(s) && v <= max
  {
    if s != "" && IsDigit(s[0]) {
      var d, rest := DigitValue(s[0]), s[1..];
      var next, p := acc * 10 + d, Pow10(|rest|);
      assert s == [s[0]] + rest;
      Regroup(acc, d, p);
      if AllDigits(s) {
        NumberFront(s);
        assert acc * Pow10(|s|) + Number(s) == next * p + Number(rest);
      }
      if next <= max {
        AccumulateIs(rest, next, max, v);
      }
    }
  }

  /** A text parses to `v` exactly when it is a numeral of value `v` that the type can hold. */
  lemma {:induction false} ParseExactly(text: string, max: nat, v: nat)
    ensures ParseUnsigned(text, max) == Some(v) <==>
            Numeral(text) && v == Number(Digits(text)) && v <= max
  {
    AccumulateIs(Digits(text), 0, max, v);
  }

  /** A heartbeat is configured exactly for a numeral between 1 and 2^64 - 1 aimed at this process. */
  lemma {:induction false} HeartbeatExactly(usec: Option<string>, pid: Option<string>, current: U32)
    ensures HeartbeatFrom(usec, pid, current).Some? <==>
            && (pid.None? || (Numeral(pid.value) && Number(Digits(pid.value)) == current))
            && usec.Some? && Numeral(usec.value) && 1 <= Number(Digits(usec.value)) <= U64_MAX
    ensures HeartbeatFrom(usec, pid, current).Some? ==>
              HeartbeatFrom(usec, pid, current).value == Number(Digits(usec.value)) / 2
  {
    if pid.Some? {
      ParseExactly(pid.value, U32_MAX, current);
    }
    if usec.Some? {
      if Numeral(usec.value) {
        ParseExactly(usec.value, U64_MAX, Number(Digits(usec.value)));
      }
      match ParseUnsigned(usec.value, U64_MAX)
      case None =>
      case Some(v) => ParseExactly(usec.value, U64_MAX, v);
    }
  }

  lemma {:induction false} DecimalIsNumeral(n: nat)
    ensures Numeral(Decimal(n)) && Number(Digits(Decimal(n))) == n
  {
    assert IsDigit(Decimal(n)[0]);
    NumberOfDecimal(n);
  }

  /** What systemd prints is what the daemon reads, and the pets are at half the timeout, rounded down. */
  lemma {:induction false} PrintedTimeoutIsHonoured(usec: nat, pid: Option<U32>, current: U32)
    requires 1 <= usec <= U64_MAX
    ensures var printedPid := if pid.Some? then Some(Decimal(pid.value)) else None;
            var interval := HeartbeatFrom(Some(Decimal(usec)), printedPid, current);
            if pid.None? || pid.value == current
            then interval.Some? && 2 * interval.value <= usec <= 2 * interval.value + 1
            else interval.None?
  {
    DecimalIsNumeral(usec);
    var printedPid := if pid.Some? then Some(Decimal(pid.value)) else None;
    if pid.Some? {
      DecimalIsNumeral(pid.value);
    }
    HeartbeatExactly(Some(Decimal(usec)), printedPid, current);
  }

  /** The conversion in `set_accept_timeout`: microseconds must fit a signed 64-bit integer. */
  function AcceptTimeoutMicros(timeout: nat): Result<nat, string> {
    if timeout <= I64_MAX then Ok(timeout) else Err("timeout out of range")
  }

  /** No interval the environment can configure is out of the accept timeout's range. */
  lemma {:induction false} IntervalAlwaysArms(usec: Option<string>, pid: Option<string>, current: U32)
    requires HeartbeatFrom(usec, pid, current).Some?
    ensures AcceptTimeoutMicros(HeartbeatFrom(usec, pid, current).value) == Ok(HeartbeatFrom(usec, pid, current).value)
  {
    HeartbeatExactly(usec, pid, current);
  }
}
