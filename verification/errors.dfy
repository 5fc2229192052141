/** The errors the client reports and the result type its operations return. */
module Errors {

  /** Every way an operation of the client can fail. The text each one
      prints is given by `Message`. */
  datatype Error =
    | AssistantIdRequired                      // no assistant id was given
    | CallFailed(cause: string)                // the HTTP round trip itself failed
    | UnexpectedStatus(code: int)              // the API answered with another status
    | ReadFailed(cause: string)                // the response body could not be read
    | DecodeFailed(cause: string)              // the response body did not decode
    | PutFailed(url: string, cause: string)    // the upload PUT could not be sent
    | PutUnexpectedStatus(code: int)           // the upload PUT was not answered 200
    | RunFailed(reason: string)                // the run reached the failed state
    | ToolResponseRequired                     // the run waits for a tool response
    | ScriptExhausted                          // the scripted network has no reply left
  {
    /** The error text, in the source's wording. Whatever the error carries
        (the cause, the failure reason, the status code) ends the text, and
        an upload PUT's URL follows "Do(PUT ". */
    function Message(): (text: string)
      ensures text != ""
      ensures CallFailed? || ReadFailed? || DecodeFailed? || PutFailed? ==> EndsWith(text, cause)
      ensures RunFailed? ==> EndsWith(text, reason)
      ensures UnexpectedStatus? || PutUnexpectedStatus? ==> EndsWith(text, Decimal(code))
      ensures PutFailed? ==> |text| >= 7 + |url| && text[..7] == "Do(PUT " && text[7..7 + |url|] == url
    {
      match this
      case AssistantIdRequired => "assistant id (-a) is required"
      case CallFailed(cause) => "callAPI:Do: " + cause
      case UnexpectedStatus(code) => "callAPI: unexpected status code: " + Decimal(code)
      case ReadFailed(cause) => "callAPI:io.ReadAll: " + cause
      case DecodeFailed(cause) => "callAPI:json.Unmarshal: " + cause
      case PutFailed(url, cause) => "Do(PUT " + url + "): " + cause
      case PutUnexpectedStatus(code) => "unexpected status code: " + Decimal(code)
      case RunFailed(reason) => "run failed: " + reason
      case ToolResponseRequired => "tool response required"
      case ScriptExhausted => "no scripted reply left"
    }
  }

  datatype Result<T> = Success(value: T) | Failure(error: Error)

  /** `tail` is the end of `text`. */
  predicate EndsWith(text: string, tail: string) {
    |tail| <= |text| && text[|text| - |tail|..] == tail
  }

  datatype Option<T> = None | Some(value: T)

  function DigitChar(d: nat): (c: char)
    requires d < 10
    ensures '0' <= c <= '9' && c as int - '0' as int == d
  {
    ('0' as int + d) as char
  }

  /** The decimal digits of `n`, most significant first, as `%d` prints them. */
  function NatDecimal(n: nat): (s: string)
    ensures 1 <= |s|
    ensures forall i :: 0 <= i < |s| ==> '0' <= s[i] <= '9'
    ensures s[0] == '0' <==> n == 0
  {
    if n < 10 then [DigitChar(n)] else NatDecimal(n / 10) + [DigitChar(n % 10)]
  }

  /** `%d` of an integer: a minus sign before the digits of a negative number. */
  function Decimal(n: int): string {
    if n < 0 then "-" + NatDecimal(-n) else NatDecimal(n)
  }

  /** The number a string of decimal digits denotes. */
  function DigitsValue(s: string): nat
    requires forall i :: 0 <= i < |s| ==> '0' <= s[i] <= '9'
  {
    if s == [] then 0
    else DigitsValue(s[..|s| - 1]) * 10 + (s[|s| - 1] as int - '0' as int)
  }

  /** The digits `%d` prints denote the number printed. */
  lemma {:induction false} NatDecimalRoundTrip(n: nat)
    ensures DigitsValue(NatDecimal(n)) == n
  {
    if n >= 10 {
      var s := NatDecimal(n);
      assert s[..|s| - 1] == NatDecimal(n / 10);
      NatDecimalRoundTrip(n / 10);
    }
  }

  /** A string of decimal digits with no leading zero (or "0" itself) is
      what `%d` prints for the number it denotes: the printed text is the
      only canonical spelling of the number. */
  lemma {:induction false} NatDecimalUnique(s: string)
    requires s != [] && forall i :: 0 <= i < |s| ==> '0' <= s[i] <= '9'
    requires |s| > 1 ==> s[0] != '0'
    ensures NatDecimal(DigitsValue(s)) == s
    decreases |s|
  {
    var n := DigitsValue(s);
    if |s| > 1 {
      var init := s[..|s| - 1];
      assert init[0] == s[0];
      LeadingDigitBound(init);
      NatDecimalUnique(init);
      assert n / 10 == DigitsValue(init) && n % 10 == s[|s| - 1] as int - '0' as int;
      assert s == init + [s[|s| - 1]];
    } else {
      assert s == [s[0]];
    }
  }

  /** A digit string whose first digit is not zero denotes at least 1. */
  lemma {:induction false} LeadingDigitBound(s: string)
    requires s != [] && forall i :: 0 <= i < |s| ==> '0' <= s[i] <= '9'
    requires s[0] != '0'
    ensures DigitsValue(s) >= 1
    decreases |s|
  {
    if |s| > 1 {
      LeadingDigitBound(s[..|s| - 1]);
    }
  }

  /** A status error names the status: the digits ending its text denote
      the status code, for the API's status check and the upload PUT's
      alike. */
  lemma StatusTextDenotesCode(code: nat)
    ensures var a, b := UnexpectedStatus(code).Message(), PutUnexpectedStatus(code).Message();
      var digits := NatDecimal(code);
      && EndsWith(a, digits) && DigitsValue(a[|a| - |digits|..]) == code
      && EndsWith(b, digits) && DigitsValue(b[|b| - |digits|..]) == code
  {
    NatDecimalRoundTrip(code);
  }
}
