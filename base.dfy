/** Value types shared by every service: optional values, the exceptions the
    services raise (as error kinds), timestamps, and the few string operations
    the services rely on (ASCII digit test, lower-casing, substring search and
    decimal rendering of an integer). */
module Base {

  /** A value that the source allows to be null. */
  datatype Option<T> = None | Some(value: T) {
    function GetOr(default: T): T {
      if Some? then value else default
    }
  }

  /** The exceptions that can escape an operation, by kind. */
  datatype Error =
    | InvalidBase64        // Convert.FromBase64String rejects the text
    | TripNotFound         // FindTrip gave null and the trip was dereferenced
    | ExtractorFailed      // the extraction call threw (no reply, "not-applicable", bad JSON)
    | UserNotFound         // FindById gave null and the user was dereferenced
    | LogoFetchFailed      // the logo HTTP request threw
    | GeocoderFailed       // the geocoding request threw or gave a null list
    | LocationNotFound     // the geocoder gave no usable first result
    | DateParseFailed      // DateTime.Parse rejected a timestamp
    | TimeConversionFailed // TimeZoneInfo.ConvertTimeToUtc rejected an invalid local time
    | TicketNotFound       // FindTicket gave null and the ticket was dereferenced
    | StatusProviderFailed // the flight-status request threw
    | MissingOperationalTimes // the mapper dereferenced a null OperationalTimes
    | MalformedEnvelope    // the message body did not deserialise to an envelope
    | NotImplemented       // the base consumer's ProcessMessage

  datatype Result<T> = Ok(value: T) | Err(error: Error)

  /** A calendar timestamp; the time of day is kept as one opaque number. */
  datatype DateTime = DateTime(year: int, month: int, day: int, timeOfDay: int)

  // ---------------------------------------------------------------------
  // Characters and strings (ASCII only)
  // ---------------------------------------------------------------------

  predicate IsDigit(c: char) {
    '0' <= c <= '9'
  }

  predicate AllDigits(s: string) {
    forall i :: 0 <= i < |s| ==> IsDigit(s[i])
  }

  function LowerChar(c: char): char {
    if 'A' <= c <= 'Z' then (c as int + 32) as char else c
  }

  /** Lower-cases the ASCII letters of s and leaves every other character. */
  function ToLower(s: string): (r: string)
    ensures |r| == |s|
    ensures forall i :: 0 <= i < |s| ==> r[i] == LowerChar(s[i])
  {
    if s == [] then [] else [LowerChar(s[0])] + ToLower(s[1..])
  }

  /** Ordinal substring search, as String.Contains: t occurs somewhere in s. */
  predicate Contains(s: string, t: string)
    decreases |s|
  {
    if |s| < |t| then false
    else s[..|t|] == t || (|s| > 0 && Contains(s[1..], t))
  }

  /** t occurs in s starting at index i. */
  predicate OccursAt(s: string, t: string, i: int) {
    0 <= i <= |s| - |t| && s[i..i + |t|] == t
  }

  /** Contains agrees with the positional definition of "t occurs in s". */
  lemma {:induction false} ContainsIff(s: string, t: string)
    ensures Contains(s, t) <==> exists i :: OccursAt(s, t, i)
    decreases |s|
  {
    if |s| < |t| {
    } else if s[..|t|] == t {
      assert OccursAt(s, t, 0);
    } else {
      ContainsIff(s[1..], t);
      if Contains(s[1..], t) {
        var k :| OccursAt(s[1..], t, k);
        assert s[k + 1..k + 1 + |t|] == s[1..][k..k + |t|];
        assert OccursAt(s, t, k + 1);
      } else {
        forall i | OccursAt(s, t, i)
          ensures false
        {
          if i > 0 {
            var rest := s[1..];
            assert rest[i - 1..i - 1 + |t|] == s[i..i + |t|];
            assert OccursAt(rest, t, i - 1);
          }
        }
      }
    }
  }

  // ---------------------------------------------------------------------
  // Decimal rendering, as long.ToString()
  // ---------------------------------------------------------------------

  function DigitChar(d: nat): char
    requires d < 10
  {
    ('0' as int + d) as char
  }

  function DigitValue(c: char): nat
    requires IsDigit(c)
  {
    c as int - '0' as int
  }

  /** The decimal numeral of n, most significant digit first, no leading zero. */
  function NatToString(n: nat): (r: string)
    ensures |r| > 0 && AllDigits(r)
    ensures |r| > 1 ==> r[0] != '0'
  {
    if n < 10 then [DigitChar(n)] else NatToString(n / 10) + [DigitChar(n % 10)]
  }

  /** The value of a numeral, read from its last digit. */
  function DecimalValue(s: string): nat
    requires AllDigits(s)
  {
    if s == [] then 0 else DecimalValue(s[..|s| - 1]) * 10 + DigitValue(s[|s| - 1])
  }

  function IntToString(i: int): (r: string)
  {
    if i < 0 then "-" + NatToString(-i) else NatToString(i)
  }

  /** Reading back the numeral of n gives n. */
  lemma {:induction false} NatToStringRoundTrip(n: nat)
    ensures DecimalValue(NatToString(n)) == n
  {
    if n >= 10 {
      NatToStringRoundTrip(n / 10);
      var s := NatToString(n);
      assert s[..|s| - 1] == NatToString(n / 10);
    }
  }

  /** Distinct numbers render to distinct numerals. */
  lemma NatToStringInjective(m: nat, n: nat)
    requires NatToString(m) == NatToString(n)
    ensures m == n
  {
    NatToStringRoundTrip(m);
    NatToStringRoundTrip(n);
  }

  /** IntToString loses no information. */
  lemma IntToStringInjective(a: int, b: int)
    requires IntToString(a) == IntToString(b)
    ensures a == b
  {
    if a < 0 && b < 0 {
      assert NatToString(-a) == IntToString(a)[1..];
      NatToStringInjective(-a, -b);
    } else if a >= 0 && b >= 0 {
      NatToStringInjective(a, b);
    } else {
      assert false;
    }
  }
}
