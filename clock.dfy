/** Timestamps and instants. `utils.timestamp_to_datetime` turns integer
    seconds into an aware UTC datetime; `datetime.now(timezone.utc)` has
    microsecond precision. Instants are therefore integer microseconds since
    the Unix epoch, within the range of Python's datetime (years 1 to 9999). */
module Clock {
  import opened Wrappers
  import opened PyValue
  import opened Text

  const MicrosPerSecond: int := 1000000
  const MicrosPerMinute: int := 60 * MicrosPerSecond

  /** 0001-01-01T00:00:00Z and 9999-12-31T23:59:59Z in seconds. */
  const MinTimestamp: int := -62135596800
  const MaxTimestamp: int := 253402300799

  const MinInstant: int := MinTimestamp * MicrosPerSecond
  const MaxInstant: int := MaxTimestamp * MicrosPerSecond + 999999

  predicate IsInstant(t: int) {
    MinInstant <= t <= MaxInstant
  }

  /** The C types CPython converts through, on a 64-bit platform: `time_t`
      for a timestamp, and `int` for the year of a `struct tm` and for the
      days of a `timedelta`. */
  const Int64Min: int := -0x8000_0000_0000_0000
  const Int64Max: int := 0x7FFF_FFFF_FFFF_FFFF
  const Int32Min: int := -0x8000_0000
  const Int32Max: int := 0x7FFF_FFFF

  /** `n` converted to a C `int`, wrapping around. */
  function CInt(n: int): (r: int)
    ensures Int32Min <= r <= Int32Max
    ensures Int32Min <= n <= Int32Max ==> r == n
  {
    (n - Int32Min) % 0x1_0000_0000 + Int32Min
  }

  const SecondsPerDay: int := 86400

  /** The proleptic Gregorian year, in UTC, of `ts` seconds since the epoch,
      counted in 400-year eras of 146097 days from 0000-03-01. */
  function YearOf(ts: int): int {
    var z := ts / SecondsPerDay + 719468;
    var era := z / 146097;
    var doe := z - era * 146097;
    var yoe := (doe - doe / 1460 + doe / 36524 - doe / 146096) / 365;
    var doy := doe - (365 * yoe + yoe / 4 - yoe / 100);
    var mp := (5 * doy + 2) / 153;
    yoe + era * 400 + (if mp >= 10 then 1 else 0)
  }

  /** `timestamp_to_datetime(ts)` (utils.py and configs.py): the instant of `ts`
      seconds, or the error `datetime.fromtimestamp` raises outside the range:
      a timestamp beyond `time_t` overflows, a year beyond the C `int` of
      `gmtime` is `EOVERFLOW`, and any other year outside 1..9999 is named in
      the message (converted to a C `int` after adding 1900 back). */
  function TimestampToDatetime(ts: int): (r: Result<int, Exc>)
    ensures r.Ok? <==> MinTimestamp <= ts <= MaxTimestamp
    ensures r.Ok? ==> r.value == ts * MicrosPerSecond && IsInstant(r.value)
  {
    if MinTimestamp <= ts <= MaxTimestamp then Ok(ts * MicrosPerSecond)
    else if ts < Int64Min || Int64Max < ts then Err(OverflowError("timestamp out of range for platform time_t"))
    else if YearOf(ts) - 1900 < Int32Min || Int32Max < YearOf(ts) - 1900 then
      Err(OSError("[Errno 75] Value too large for defined data type"))
    else Err(ValueError("year " + IntToString(CInt(YearOf(ts))) + " is out of range"))
  }

  /** The first second of the datetime range is in year 1. */
  lemma YearOfFirstSecond()
    ensures YearOf(-62135596800) == 1
  {
    assert -62135596800 / SecondsPerDay == -719162;
    assert 306 / 146097 == 0;
    assert 306 / 1460 == 0 && 306 / 36524 == 0 && 306 / 146096 == 0;
    assert 306 / 365 == 0;
    assert 0 / 4 == 0 && 0 / 100 == 0;
    assert 1532 / 153 == 10;
  }

  /** The last second of the datetime range is in year 9999. */
  lemma YearOfLastSecond()
    ensures YearOf(253402300799) == 9999
  {
    assert 253402300799 / SecondsPerDay == 2932896;
    assert 3652364 / 146097 == 24;
    assert 146036 / 1460 == 100 && 146036 / 36524 == 3 && 146036 / 146096 == 0;
    assert 145939 / 365 == 399;
    assert 399 / 4 == 99 && 399 / 100 == 3;
    assert 1527 / 153 == 9;
  }

  /** The second before the range is in year 0. */
  lemma YearBeforeRange()
    ensures YearOf(-62135596801) == 0
  {
    assert -62135596801 / SecondsPerDay == -719163;
    assert 305 / 146097 == 0;
    assert 305 / 1460 == 0 && 305 / 36524 == 0 && 305 / 146096 == 0;
    assert 305 / 365 == 0;
    assert 0 / 4 == 0 && 0 / 100 == 0;
    assert 1527 / 153 == 9;
  }

  /** The second after the range is in year 10000. */
  lemma YearAfterRange()
    ensures YearOf(253402300800) == 10000
  {
    assert 253402300800 / SecondsPerDay == 2932897;
    assert 3652365 / 146097 == 24;
    assert 146037 / 1460 == 100 && 146037 / 36524 == 3 && 146037 / 146096 == 0;
    assert 145940 / 365 == 399;
    assert 399 / 4 == 99 && 399 / 100 == 3;
    assert 1532 / 153 == 10;
  }

  /** `10**12` seconds, a millisecond timestamp read as seconds, fall in year 33658. */
  lemma YearOfMillisecondTimestamp()
    ensures YearOf(1000000000000) == 33658
  {
    assert 1000000000000 / SecondsPerDay == 11574074;
    assert 12293542 / 146097 == 84;
    assert 21394 / 1460 == 14 && 21394 / 36524 == 0 && 21394 / 146096 == 0;
    assert 21380 / 365 == 58;
    assert 58 / 4 == 14 && 58 / 100 == 0;
    assert 1052 / 153 == 6;
  }

  /** A timestamp in milliseconds read as seconds names its year in the error. */
  lemma MillisecondTimestampError()
    ensures TimestampToDatetime(1_000_000_000_000) == Err(ValueError("year 33658 is out of range"))
  {
    YearOfMillisecondTimestamp();
    assert CInt(33658) == 33658;
    assert IntToString(33658) == "33658" by {
      assert NatToString(3) == "3";
      assert NatToString(33) == "33";
      assert NatToString(336) == "336";
      assert NatToString(3365) == "3365";
    }
    var ts := 1_000_000_000_000;
    assert !(MinTimestamp <= ts <= MaxTimestamp) && Int64Min <= ts <= Int64Max;
    assert Int32Min <= YearOf(ts) - 1900 <= Int32Max;
    assert "year " + IntToString(CInt(YearOf(ts))) + " is out of range" == "year 33658 is out of range";
  }

  const MinutesPerDay: int := 1440
  const MaxDeltaDays: int := 999999999

  /** `now - timedelta(minutes=minutes)`. Building the `timedelta` fails first
      when its days do not fit a C `int` or exceed 999999999 in magnitude;
      otherwise the subtraction fails when it leaves the datetime range. */
  function Cutoff(now: int, minutes: int): (r: Result<int, Exc>)
    ensures r.Ok? <==> IsInstant(now - minutes * MicrosPerMinute)
    ensures r.Ok? ==> r.value == now - minutes * MicrosPerMinute
  {
    var t := now - minutes * MicrosPerMinute;
    var days := minutes / MinutesPerDay;
    if IsInstant(t) then Ok(t)
    else if days < Int32Min || Int32Max < days then Err(OverflowError("Python int too large to convert to C int"))
    else if days < -MaxDeltaDays || MaxDeltaDays < days then
      Err(OverflowError("days=" + IntToString(days) + "; must have magnitude <= 999999999"))
    else Err(OverflowError("date value out of range"))
  }

  /** From an instant, a `timedelta` too large to build would also have left
      the datetime range, so `Cutoff` may test the range first. */
  lemma OversizedDeltaLeavesRange(now: int, minutes: int)
    requires IsInstant(now)
    requires minutes / MinutesPerDay < -MaxDeltaDays || MaxDeltaDays < minutes / MinutesPerDay
    ensures !IsInstant(now - minutes * MicrosPerMinute)
    ensures Cutoff(now, minutes).Err? && Cutoff(now, minutes).error.OverflowError?
  {
  }
}
