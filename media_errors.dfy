/** Text shown for an audio element error (src/App.jsx, audioEl.onerror).

    The codes are those of the MediaError interface of the WHATWG HTML Standard
    (section 4.8.11.1, "Error codes"). */
module MediaErrors {
  import opened Wrappers

  const MediaErrAborted: nat := 1
  const MediaErrNetwork: nat := 2
  const MediaErrDecode: nat := 3
  const MediaErrSrcNotSupported: nat := 4

  predicate IsDigit(c: char) {
    '0' <= c <= '9'
  }

  /** Decimal text of a number, as a JavaScript template literal prints it. */
  function DecimalString(n: nat): (r: string)
    ensures |r| > 0
    ensures forall k :: 0 <= k < |r| ==> IsDigit(r[k])
    ensures |r| > 1 ==> r[0] != '0'
    decreases n
  {
    if n < 10 then ['0' + n as char]
    else DecimalString(n / 10) + ['0' + (n % 10) as char]
  }

  /** Value of a string of decimal digits. */
  function DecimalValue(s: string): nat
    requires forall k :: 0 <= k < |s| ==> IsDigit(s[k])
  {
    if s == [] then 0
    else
      assert IsDigit(s[|s| - 1]);
      DecimalValue(s[..|s| - 1]) * 10 + (s[|s| - 1] as int - '0' as int) as nat
  }

  /** Reading back the printed code gives the code. */
  lemma {:induction false} DecimalRoundTrip(n: nat)
    ensures DecimalValue(DecimalString(n)) == n
    decreases n
  {
    var s := DecimalString(n);
    if n >= 10 {
      DecimalRoundTrip(n / 10);
      assert s[..|s| - 1] == DecimalString(n / 10);
    }
  }

  /** Printing is injective: different codes print differently. */
  lemma DecimalStringInjective(a: nat, b: nat)
    requires DecimalString(a) == DecimalString(b)
    ensures a == b
  {
    DecimalRoundTrip(a);
    DecimalRoundTrip(b);
  }

  /** The details text for the element's error, or for no error object. */
  function ErrorDetails(error: Option<nat>): string
  {
    match error
    case None => "Unknown error"
    case Some(code) =>
      if code == MediaErrAborted then "Aborted"
      else if code == MediaErrNetwork then "Network error"
      else if code == MediaErrDecode then "Decode error"
      else if code == MediaErrSrcNotSupported then "Source not supported"
      else "Code " + DecimalString(code)
  }

  /** The message the component shows for an audio element error. */
  function AudioErrorMessage(error: Option<nat>): (r: string)
    ensures |r| > 13 && r[..13] == "Audio Error: "
    ensures r[13..] == ErrorDetails(error)
  {
    "Audio Error: " + ErrorDetails(error)
  }

  /** The shown message identifies the error. */
  lemma AudioErrorMessageInjective(e1: Option<nat>, e2: Option<nat>)
    requires AudioErrorMessage(e1) == AudioErrorMessage(e2)
    ensures e1 == e2
  {
    assert ErrorDetails(e1) == AudioErrorMessage(e1)[13..];
    assert ErrorDetails(e2) == AudioErrorMessage(e2)[13..];
    ErrorDetailsInjective(e1, e2);
  }

  /** The four standard codes get their names; every other code is shown as
      "Code " followed by its decimal value; a missing error object is unknown. */
  lemma ErrorDetailsCases(error: Option<nat>)
    ensures error == Some(MediaErrAborted) ==> ErrorDetails(error) == "Aborted"
    ensures error == Some(MediaErrNetwork) ==> ErrorDetails(error) == "Network error"
    ensures error == Some(MediaErrDecode) ==> ErrorDetails(error) == "Decode error"
    ensures error == Some(MediaErrSrcNotSupported) ==> ErrorDetails(error) == "Source not supported"
    ensures error.Some? && !(1 <= error.value <= 4) ==>
      var r := ErrorDetails(error);
      |r| > 5 && r[..5] == "Code " && DecimalValue(r[5..]) == error.value
    ensures error.None? ==> ErrorDetails(error) == "Unknown error"
  {
    if error.Some? && !(1 <= error.value <= 4) {
      DecimalRoundTrip(error.value);
      assert ErrorDetails(error)[5..] == DecimalString(error.value);
    }
  }

  /** Only the texts of non-standard codes start with 'C'. */
  lemma NumericTextIsDistinct(error: Option<nat>)
    ensures ErrorDetails(error)[0] == 'C' <==> error.Some? && !(1 <= error.value <= 4)
  {
  }

  /** The details text identifies the error: distinct codes, or a code and a
      missing error object, never share a text. */
  lemma ErrorDetailsInjective(e1: Option<nat>, e2: Option<nat>)
    requires ErrorDetails(e1) == ErrorDetails(e2)
    ensures e1 == e2
  {
    var r1, r2 := ErrorDetails(e1), ErrorDetails(e2);
    NumericTextIsDistinct(e1);
    NumericTextIsDistinct(e2);
    if e1.Some? && e2.Some? && !(1 <= e1.value <= 4) && !(1 <= e2.value <= 4) {
      assert r1[5..] == DecimalString(e1.value);
      assert r2[5..] == DecimalString(e2.value);
      DecimalStringInjective(e1.value, e2.value);
    }
  }
}
