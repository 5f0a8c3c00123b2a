/**
 * `handleError`: the one message string a failed request turns into. A
 * client-side failure (`err.error instanceof ErrorEvent`) renders its event
 * message; any other failure renders the response status and the `error`
 * property of its body. `ParseErrorMessage` reads a message back, which shows
 * that the message keeps every part of the failure it describes.
 */
module HttpErrors {

  import opened Wrappers

  datatype HttpError =
    | ClientSide(message: string)
    | Backend(status: int, bodyError: string)

  const ClientPrefix: string := "An error occurred: "
  const BackendPrefix: string := "Backend returned code "
  const StatusSeparator: string := ": "

  predicate IsDigit(ch: char)
  {
    '0' <= ch <= '9'
  }

  predicate AllDigits(s: string)
  {
    forall i :: 0 <= i < |s| ==> IsDigit(s[i])
  }

  function DigitChar(d: nat): (ch: char)
    requires d < 10
    ensures IsDigit(ch) && ch as int - '0' as int == d
  {
    ('0' as int + d) as char
  }

  /** The decimal digits of `n`, as a template literal renders a non-negative integer in plain decimal form. */
  function NatToDecimal(n: nat): (r: string)
    ensures |r| > 0 && AllDigits(r)
    ensures r[0] == '0' <==> n == 0
  {
    if n < 10 then [DigitChar(n)] else NatToDecimal(n / 10) + [DigitChar(n % 10)]
  }

  /**
   * A template literal's rendering of an integer status in plain decimal
   * form: a minus sign before a negative one.
   */
  function IntToDecimal(n: int): (r: string)
    ensures |r| > 0 && ':' !in r
    ensures r[0] == '-' <==> n < 0
    ensures IsCanonicalDecimal(r)
  {
    if n < 0 then "-" + NatToDecimal(-n) else NatToDecimal(n)
  }

  function DecimalToNat(s: string): nat
    requires AllDigits(s)
  {
    if s == [] then 0 else DecimalToNat(s[..|s| - 1]) * 10 + (s[|s| - 1] as int - '0' as int)
  }

  predicate IsDecimalInt(s: string)
  {
    (|s| > 0 && AllDigits(s)) || (|s| > 1 && s[0] == '-' && AllDigits(s[1..]))
  }

  /** The only renderings of integers: no leading zero, and no minus sign before zero. */
  predicate IsCanonicalDecimal(s: string)
  {
    (|s| > 0 && AllDigits(s) && (s[0] == '0' ==> |s| == 1))
    || (|s| > 1 && s[0] == '-' && AllDigits(s[1..]) && s[1] != '0')
  }

  function DecimalToInt(s: string): int
    requires IsDecimalInt(s)
  {
    if |s| > 0 && AllDigits(s) then DecimalToNat(s) else -(DecimalToNat(s[1..]) as int)
  }

  lemma {:induction false} NatToDecimalRoundTrip(n: nat)
    ensures DecimalToNat(NatToDecimal(n)) == n
  {
    if n >= 10 {
      NatToDecimalRoundTrip(n / 10);
      var r := NatToDecimal(n);
      assert r[..|r| - 1] == NatToDecimal(n / 10);
    }
  }

  lemma {:induction false} LeadingDigitPositive(d: string)
    requires |d| > 0 && AllDigits(d) && d[0] != '0'
    ensures DecimalToNat(d) > 0
  {
    if |d| > 1 {
      LeadingDigitPositive(d[..|d| - 1]);
    }
  }

  /** Canonical digits are the rendering of their own value. */
  lemma {:induction false} DecimalToNatRoundTrip(d: string)
    requires |d| > 0 && AllDigits(d) && (d[0] == '0' ==> |d| == 1)
    ensures NatToDecimal(DecimalToNat(d)) == d
  {
    if |d| > 1 {
      var front := d[..|d| - 1];
      DecimalToNatRoundTrip(front);
      LeadingDigitPositive(front);
      var n := DecimalToNat(d);
      assert n / 10 == DecimalToNat(front) && n % 10 == d[|d| - 1] as int - '0' as int;
      assert d == front + [d[|d| - 1]];
    }
  }

  lemma {:induction false} CanonicalDecimalRoundTrip(s: string)
    requires IsCanonicalDecimal(s)
    ensures IntToDecimal(DecimalToInt(s)) == s
  {
    if |s| > 0 && AllDigits(s) {
      DecimalToNatRoundTrip(s);
    } else {
      var d := s[1..];
      DecimalToNatRoundTrip(d);
      LeadingDigitPositive(d);
      assert s == "-" + d;
    }
  }

  lemma {:induction false} IntToDecimalRoundTrip(n: int)
    ensures IsDecimalInt(IntToDecimal(n))
    ensures DecimalToInt(IntToDecimal(n)) == n
  {
    var r := IntToDecimal(n);
    if n < 0 {
      NatToDecimalRoundTrip(-n);
      assert r[1..] == NatToDecimal(-n);
      assert !IsDigit(r[0]);
    } else {
      NatToDecimalRoundTrip(n);
    }
  }

  /** The message `handleError` rethrows for `err`. */
  function HandleError(err: HttpError): (r: string)
    ensures err.ClientSide? ==> |r| >= |ClientPrefix| && r[..|ClientPrefix|] == ClientPrefix
                                && r[|ClientPrefix|..] == err.message
    ensures err.Backend? ==> r == BackendPrefix + IntToDecimal(err.status) + StatusSeparator + err.bodyError
  {
    match err
    case ClientSide(message) => ClientPrefix + message
    case Backend(status, bodyError) => BackendPrefix + IntToDecimal(status) + StatusSeparator + bodyError
  }

  /** The position of the first `':'` in `s`, if any. */
  function IndexOfColon(s: string): (r: Option<nat>)
    ensures r.Some? ==> r.value < |s| && s[r.value] == ':' && ':' !in s[..r.value]
    ensures r.None? ==> ':' !in s
  {
    if s == [] then None
    else if s[0] == ':' then Some(0)
    else match IndexOfColon(s[1..])
      case None => None
      case Some(k) => assert s[..k + 1] == [s[0]] + s[1..][..k]; Some(k + 1)
  }

  /** Reads a message of either shape back into the failure it describes. */
  function ParseErrorMessage(msg: string): Option<HttpError>
  {
    if |msg| >= |ClientPrefix| && msg[..|ClientPrefix|] == ClientPrefix then
      Some(ClientSide(msg[|ClientPrefix|..]))
    else if |msg| >= |BackendPrefix| && msg[..|BackendPrefix|] == BackendPrefix then
      var rest := msg[|BackendPrefix|..];
      match IndexOfColon(rest)
      case None => None
      case Some(k) =>
        if k + |StatusSeparator| <= |rest| && rest[k..k + |StatusSeparator|] == StatusSeparator
           && IsCanonicalDecimal(rest[..k])
        then Some(Backend(DecimalToInt(rest[..k]), rest[k + |StatusSeparator|..]))
        else None
    else None
  }

  lemma {:induction false} ColonAfterDigits(d: string, tail: string)
    requires ':' !in d
    ensures IndexOfColon(d + ":" + tail) == Some(|d|)
  {
    if d != [] {
      ColonAfterDigits(d[1..], tail);
      assert (d + ":" + tail)[1..] == d[1..] + ":" + tail;
    }
  }

  /** No failure is lost or confused with another: the message determines the failure. */
  lemma HandleErrorRoundTrip(err: HttpError)
    ensures ParseErrorMessage(HandleError(err)) == Some(err)
  {
    var msg := HandleError(err);
    match err
    case ClientSide(message) =>
    case Backend(status, bodyError) =>
      assert msg[..|ClientPrefix|] != ClientPrefix by {
        assert msg[0] == 'B';
      }
      var d := IntToDecimal(status);
      var rest := msg[|BackendPrefix|..];
      assert msg[..|BackendPrefix|] == BackendPrefix;
      assert rest == d + ":" + (" " + bodyError);
      ColonAfterDigits(d, " " + bodyError);
      assert IndexOfColon(rest) == Some(|d|);
      assert rest[..|d|] == d;
      assert rest[|d|..|d| + |StatusSeparator|] == StatusSeparator;
      assert IsCanonicalDecimal(rest[..|d|]);
      IntToDecimalRoundTrip(status);
      assert DecimalToInt(rest[..|d|]) == status;
      assert rest[|d| + |StatusSeparator|..] == bodyError;
  }

  /** Conversely, every message that reads back is exactly the message of what it reads back to. */
  lemma ParseErrorMessageInverse(msg: string)
    requires ParseErrorMessage(msg).Some?
    ensures HandleError(ParseErrorMessage(msg).value) == msg
  {
    if |msg| >= |ClientPrefix| && msg[..|ClientPrefix|] == ClientPrefix {
      assert msg == ClientPrefix + msg[|ClientPrefix|..];
    } else {
      var rest := msg[|BackendPrefix|..];
      var k := IndexOfColon(rest).value;
      var d := rest[..k];
      CanonicalDecimalRoundTrip(d);
      assert rest == d + rest[k..k + |StatusSeparator|] + rest[k + |StatusSeparator|..];
      assert msg == BackendPrefix + rest;
    }
  }

  /** A client-side failure and a backend failure never produce the same message. */
  lemma HandleErrorKindsDistinct(message: string, status: int, bodyError: string)
    ensures HandleError(ClientSide(message)) != HandleError(Backend(status, bodyError))
  {
    HandleErrorRoundTrip(ClientSide(message));
    HandleErrorRoundTrip(Backend(status, bodyError));
  }
}
