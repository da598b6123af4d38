/** Conversions the session object applies to acquisition settings before
    handing them to the driver: stream-mode names to driver codes, and an
    exposure time in seconds to whole microseconds. */
module Settings {
  import opened Types

  /** `QHYCCD_STREAM_SINGLE` and `QHYCCD_STREAM_LIVE`. */
  const QHYCCD_STREAM_SINGLE: nat := 0x00
  const QHYCCD_STREAM_LIVE: nat := 0x01

  /** The driver code `set_stream_mode` sends for `mode`: 'single' and
      'live' are the only names it accepts. */
  function StreamModeCode(mode: string): (code: Option<nat>)
    ensures code.Some? <==> mode == "single" || mode == "live"
    ensures code.Some? ==> code.value < 2
  {
    if mode == "single" then Some(QHYCCD_STREAM_SINGLE)
    else if mode == "live" then Some(QHYCCD_STREAM_LIVE)
    else None
  }

  /** The mode name of a driver code, the reverse of `StreamModeCode`. */
  function StreamModeName(code: nat): (mode: Option<string>)
    ensures mode.Some? <==> code < 2
  {
    if code == QHYCCD_STREAM_SINGLE then Some("single")
    else if code == QHYCCD_STREAM_LIVE then Some("live")
    else None
  }

  /** The two names are told apart: each accepted name is recovered from
      its code, and each code from its name. */
  lemma StreamModeRoundTrip(mode: string, code: nat)
    ensures StreamModeCode(mode).Some? ==> StreamModeName(StreamModeCode(mode).value) == Some(mode)
    ensures StreamModeName(code).Some? ==> StreamModeCode(StreamModeName(code).value) == Some(code)
  {
  }

  /** `int(exptime * 1.0e6)`: seconds scaled to microseconds and truncated
      toward zero, as Python's `int` does. */
  function Microseconds(seconds: real): (us: int)
    ensures 0.0 <= seconds ==> 0 <= us && us as real <= seconds * 1000000.0 < us as real + 1.0
    ensures seconds < 0.0 ==> us <= 0 && us as real - 1.0 < seconds * 1000000.0 <= us as real
  {
    var scaled := seconds * 1000000.0;
    if scaled >= 0.0 then scaled.Floor else -((-scaled).Floor)
  }

  /** A microsecond count in seconds, as `get_exptime` reports it. */
  function Seconds(us: int): (seconds: real)
    ensures seconds * 1000000.0 == us as real
  {
    us as real / 1000000.0
  }

  /** In exact arithmetic a whole number of microseconds survives the trip
      to seconds and back.  The doubles `get_exptime` and `set_exptime`
      compute with do not keep this: 100000 microseconds read back as
      0.09999999999999999 s are set again as 99999. */
  lemma MicrosecondsOfSeconds(us: int)
    ensures Microseconds(Seconds(us)) == us
  {
    var s := Seconds(us);
    var r := Microseconds(s);
    if 0 <= us {
      assert r as real <= us as real < r as real + 1.0;
    } else {
      assert r as real - 1.0 < us as real <= r as real;
    }
  }

  /** Truncation never moves the time away from zero: the seconds kept are
      within one microsecond of those asked for, and on the same side of 0. */
  lemma MicrosecondsTruncate(seconds: real)
    ensures 0.0 <= seconds ==> Seconds(Microseconds(seconds)) <= seconds < Seconds(Microseconds(seconds)) + 0.000001
    ensures seconds < 0.0 ==> Seconds(Microseconds(seconds)) - 0.000001 < seconds <= Seconds(Microseconds(seconds))
  {
  }

  /** A longer exposure never maps to fewer microseconds. */
  lemma MicrosecondsMonotonic(s: real, t: real)
    requires s <= t
    ensures Microseconds(s) <= Microseconds(t)
  {
  }

  /** The default exposure of 0.1 s is 100000 microseconds, and a time is
      truncated, not rounded, in either direction. */
  lemma MicrosecondsExamples()
    ensures Microseconds(0.1) == 100000
    ensures Microseconds(0.0001234) == 123
    ensures Microseconds(0.0000019) == 1
    ensures Microseconds(-0.0000019) == -1
  {
  }
}
