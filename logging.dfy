/**
 * The log records of backend/src/logging.rs: the level a finished request is
 * logged at, the request identifier, and the slow-query threshold.  Emitting
 * a record is the `tracing` subscriber's business; the model stops at the
 * record that is handed to it.  Durations are whole nanoseconds, as in
 * `std::time::Duration`.
 */
module Logging {
  import opened Text

  type U16 = x: int | 0 <= x < 0x1_0000
  type U64 = x: int | 0 <= x < 0x1_0000_0000_0000_0000

  datatype Level = Error | Warn | Info | Debug

  /** One record: its level, its message and its structured fields. */
  datatype Record = Record(level: Level, message: string, fields: seq<(string, string)>)

  const NanosPerMilli := 1_000_000
  /** `Duration::from_millis(100)`, the slow-query threshold. */
  const SlowQueryNanos := 100 * NanosPerMilli

  /** `Duration::as_millis`: whole milliseconds, rounded down. */
  function AsMillis(nanos: nat): (ms: nat)
    ensures ms * NanosPerMilli <= nanos < (ms + 1) * NanosPerMilli
  {
    nanos / NanosPerMilli
  }

  // ---------------------------------------------------------------------
  // Requests

  /** The level of a finished request: server errors, then client errors,
      then everything else. */
  function LevelFor(status: U16): (l: Level)
    ensures l == Error <==> status >= 500
    ensures l == Warn <==> 400 <= status < 500
    ensures l == Info <==> status < 400
  {
    if status >= 500 then Error else if status >= 400 then Warn else Info
  }

  /** The fallback arm of `log_request` is dead: no status is logged at
      debug level, and the level only rises with the status. */
  lemma LevelForIsNeverDebug(status: U16, other: U16)
    ensures LevelFor(status) != Debug
    ensures status <= other ==> Rank(LevelFor(status)) <= Rank(LevelFor(other))
  {
  }

  /** Severity order: Debug < Info < Warn < Error. */
  function Rank(l: Level): nat {
    match l
    case Debug => 0
    case Info => 1
    case Warn => 2
    case Error => 3
  }

  /** `log_request`. */
  function LogRequest(verb: string, path: string, status: U16, nanos: nat, requestId: string): (r: Record)
    ensures r.level == LevelFor(status) && r.message == "Request completed"
    ensures r.fields == [("request_id", requestId), ("method", verb), ("path", path),
                         ("status", NatToString(status)), ("duration_ms", NatToString(AsMillis(nanos)))]
  {
    var level := LevelFor(status);
    Record(level, "Request completed",
           [("request_id", requestId), ("method", verb), ("path", path),
            ("status", NatToString(status)), ("duration_ms", NatToString(AsMillis(nanos)))])
  }

  /** `log_error`: always at error level. */
  function LogError(error: string, context: string): (r: Record)
    ensures r.level == Error && r.message == "Error occurred"
    ensures r.fields == [("error", error), ("context", context)]
  {
    Record(Error, "Error occurred", [("error", error), ("context", context)])
  }

  /** `log_query`: a warning for a query strictly slower than 100 ms, a debug
      record otherwise. */
  function LogQuery(query: string, nanos: nat): (r: Record)
    ensures r.level == Warn <==> nanos > SlowQueryNanos
    ensures r.level == Debug <==> nanos <= SlowQueryNanos
    ensures r.message == (if nanos > SlowQueryNanos then "Slow query detected" else "Query executed")
    ensures r.fields == [("query", query), ("duration_ms", NatToString(AsMillis(nanos)))]
  {
    if nanos > SlowQueryNanos then
      Record(Warn, "Slow query detected", [("query", query), ("duration_ms", NatToString(AsMillis(nanos)))])
    else
      Record(Debug, "Query executed", [("query", query), ("duration_ms", NatToString(AsMillis(nanos)))])
  }

  /** The threshold compares full durations, while the record shows whole
      milliseconds: exactly 100 ms is not slow, yet one nanosecond more is
      reported as slow with the same `duration_ms` of 100. */
  lemma SlowQueryBoundary(query: string)
    ensures LogQuery(query, SlowQueryNanos).level == Debug
    ensures LogQuery(query, SlowQueryNanos + 1).level == Warn
    ensures AsMillis(SlowQueryNanos) == AsMillis(SlowQueryNanos + 1) == 100
  {
  }

  // ---------------------------------------------------------------------
  // Request identifiers

  predicate IsLowerHexDigit(c: char) { IsAsciiDigit(c) || 'a' <= c <= 'f' }

  function HexDigit(d: nat): (c: char)
    requires d < 16
    ensures IsLowerHexDigit(c)
  {
    if d < 10 then DigitChar(d) else ('a' as int + d - 10) as char
  }

  function HexValue(c: char): (d: nat)
    requires IsLowerHexDigit(c)
    ensures d < 16
  {
    if IsAsciiDigit(c) then c as int - '0' as int else c as int - 'a' as int + 10
  }

  /** `format!("{:x}", n)`: lower-case hexadecimal without leading zeros. */
  function Hex(n: nat): (s: string)
    ensures |s| >= 1
    ensures forall i :: 0 <= i < |s| ==> IsLowerHexDigit(s[i])
    ensures |s| > 1 ==> s[0] != '0'
  {
    if n < 16 then [HexDigit(n)] else Hex(n / 16) + [HexDigit(n % 16)]
  }

  /** Reading hexadecimal digits back, most significant first. */
  function ParseHex(s: string): nat
    requires forall i :: 0 <= i < |s| ==> IsLowerHexDigit(s[i])
  {
    if s == [] then 0 else 16 * ParseHex(s[..|s| - 1]) + HexValue(s[|s| - 1])
  }

  lemma {:induction false} ParseHexOfHex(n: nat)
    ensures ParseHex(Hex(n)) == n
  {
    if n >= 16 {
      ParseHexOfHex(n / 16);
      var s := Hex(n);
      assert s[..|s| - 1] == Hex(n / 16);
      assert HexValue(HexDigit(n % 16)) == n % 16;
    } else {
      assert HexValue(HexDigit(n)) == n;
    }
  }

  function Pow16(k: nat): (p: nat)
    ensures p >= 1
  {
    if k == 0 then 1 else 16 * Pow16(k - 1)
  }

  lemma {:induction false} HexLengthBound(n: nat, k: nat)
    requires 1 <= k && n < Pow16(k)
    ensures |Hex(n)| <= k
  {
    if n >= 16 {
      assert Pow16(1) == 16;
      HexLengthBound(n / 16, k - 1);
    }
  }

  lemma Pow16Of16()
    ensures Pow16(16) == 0x1_0000_0000_0000_0000
  {
    assert Pow16(4) == 0x1_0000 by {
      assert Pow16(0) == 1;
      assert Pow16(1) == 16;
      assert Pow16(2) == 256;
      assert Pow16(3) == 4096;
    }
    assert Pow16(8) == 0x1_0000_0000 by {
      assert Pow16(5) == 0x10_0000;
      assert Pow16(6) == 0x100_0000;
      assert Pow16(7) == 0x1000_0000;
    }
    assert Pow16(12) == 0x1_0000_0000_0000 by {
      assert Pow16(9) == 0x10_0000_0000;
      assert Pow16(10) == 0x100_0000_0000;
      assert Pow16(11) == 0x1000_0000_0000;
    }
    assert Pow16(13) == 0x10_0000_0000_0000;
    assert Pow16(14) == 0x100_0000_0000_0000;
    assert Pow16(15) == 0x1000_0000_0000_0000;
  }

  const RequestIdPrefix := "req-"

  /** `generate_request_id` for the random draw `draw`. */
  function RequestId(draw: U64): (id: string)
    ensures IsPrefix(RequestIdPrefix, id)
    ensures 5 <= |id| <= 20
    ensures forall i :: 4 <= i < |id| ==> IsLowerHexDigit(id[i])
    ensures id[4..] == Hex(draw)
  {
    Pow16Of16();
    HexLengthBound(draw, 16);
    RequestIdPrefix + Hex(draw)
  }

  /** Different draws give different identifiers: the identifier reads back
      as its draw. */
  lemma RequestIdInjective(a: U64, b: U64)
    ensures ParseHex(RequestId(a)[4..]) == a
    ensures RequestId(a) == RequestId(b) ==> a == b
  {
    ParseHexOfHex(a);
    ParseHexOfHex(b);
  }
}
