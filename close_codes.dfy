/**
 * `closeCodeToString` of src/index.js: a label for the RST_STREAM / GOAWAY
 * error code of a closed stream. Codes 0x0 to 0xd are the error codes of
 * section 7 of RFC 9113; every other code is printed in decimal.
 */
module CloseCodes {

  const NO_ERROR: nat := 0x0
  const PROTOCOL_ERROR: nat := 0x1
  const INTERNAL_ERROR: nat := 0x2
  const FLOW_CONTROL_ERROR: nat := 0x3
  const SETTINGS_TIMEOUT: nat := 0x4
  const STREAM_CLOSED: nat := 0x5
  const FRAME_SIZE_ERROR: nat := 0x6
  const REFUSED_STREAM: nat := 0x7
  const CANCEL: nat := 0x8
  const COMPRESSION_ERROR: nat := 0x9
  const CONNECT_ERROR: nat := 0xa
  const ENHANCE_YOUR_CALM: nat := 0xb
  const INADEQUATE_SECURITY: nat := 0xc
  const HTTP_1_1_REQUIRED: nat := 0xd

  /** The labels of the fourteen registered codes, indexed by code. */
  const LABELS: seq<string> := [
    "(No Error)", "(Protocol Error)", "(Internal Error)", "(Flow Control Error)",
    "(Settings Timeout)", "(Closed)", "(Frame Size Error)", "(Refused)", "(Cancel)",
    "(Compression Error)", "(Connect Error)", "(Chill)", "(Inadequate Security)",
    "(HTTP 1.1 Requested)"]

  /** The label of a stream close code. */
  function CloseCodeToString(code: nat): (r: string)
    ensures |r| >= 2 && r[0] == '(' && r[|r| - 1] == ')'
    ensures code < |LABELS| ==> r == LABELS[code]
    ensures code >= |LABELS| ==> r == "(" + Decimal(code) + ")"
  {
    if code == NO_ERROR then "(No Error)"
    else if code == PROTOCOL_ERROR then "(Protocol Error)"
    else if code == INTERNAL_ERROR then "(Internal Error)"
    else if code == FLOW_CONTROL_ERROR then "(Flow Control Error)"
    else if code == SETTINGS_TIMEOUT then "(Settings Timeout)"
    else if code == STREAM_CLOSED then "(Closed)"
    else if code == FRAME_SIZE_ERROR then "(Frame Size Error)"
    else if code == REFUSED_STREAM then "(Refused)"
    else if code == CANCEL then "(Cancel)"
    else if code == COMPRESSION_ERROR then "(Compression Error)"
    else if code == CONNECT_ERROR then "(Connect Error)"
    else if code == ENHANCE_YOUR_CALM then "(Chill)"
    else if code == INADEQUATE_SECURITY then "(Inadequate Security)"
    else if code == HTTP_1_1_REQUIRED then "(HTTP 1.1 Requested)"
    else "(" + Decimal(code) + ")"
  }

  predicate IsDigit(c: char) { '0' <= c <= '9' }

  /** The value of a decimal digit. */
  function DigitValue(c: char): (d: nat)
    requires IsDigit(c)
    ensures d < 10
  {
    (c as int - '0' as int) as nat
  }

  /** The decimal digit of a value below ten. */
  function DigitChar(d: nat): (c: char)
    requires d < 10
    ensures IsDigit(c) && DigitValue(c) == d
  {
    (d + '0' as int) as char
  }

  /** JavaScript's decimal rendering of a non-negative integer. */
  function Decimal(n: nat): (r: string)
    ensures |r| >= 1
    ensures forall i :: 0 <= i < |r| ==> IsDigit(r[i])
    ensures |r| > 1 ==> r[0] != '0'
  {
    if n < 10 then [DigitChar(n)] else Decimal(n / 10) + [DigitChar(n % 10)]
  }

  /** The number a string of decimal digits denotes; the inverse of Decimal. */
  function DecimalValue(s: string): nat
    requires forall i :: 0 <= i < |s| ==> IsDigit(s[i])
  {
    if s == [] then 0 else DecimalValue(s[..|s| - 1]) * 10 + DigitValue(s[|s| - 1])
  }

  /** Reading back a rendered number gives the number. */
  lemma {:induction false} DecimalRoundTrip(n: nat)
    ensures DecimalValue(Decimal(n)) == n
  {
    if n >= 10 {
      var r := Decimal(n);
      assert r[..|r| - 1] == Decimal(n / 10);
      DecimalRoundTrip(n / 10);
    }
  }

  /** The fourteen registered labels are pairwise distinct. */
  lemma LabelsDistinct(a: nat, b: nat)
    requires a < |LABELS| && b < |LABELS| && a != b
    ensures LABELS[a] != LABELS[b]
  {
    // Labels of different lengths differ; same-length pairs differ in their second character.
    assert LABELS[a][1] != LABELS[b][1] || |LABELS[a]| != |LABELS[b]| || LABELS[a][2] != LABELS[b][2];
  }

  /** No registered label holds only digits between its parentheses. */
  lemma LabelsAreNotNumbers(code: nat)
    requires code < |LABELS|
    ensures !IsDigit(LABELS[code][1])
  {
  }

  /**
   * Different close codes get different labels: the label identifies the
   * code, so a logged label can be read back.
   */
  lemma CloseCodeToStringInjective(a: nat, b: nat)
    requires a != b
    ensures CloseCodeToString(a) != CloseCodeToString(b)
  {
    var ra, rb := CloseCodeToString(a), CloseCodeToString(b);
    if a < |LABELS| && b < |LABELS| {
      LabelsDistinct(a, b);
    } else if a < |LABELS| {
      LabelsAreNotNumbers(a);
      assert IsDigit(rb[1]);
    } else if b < |LABELS| {
      LabelsAreNotNumbers(b);
      assert IsDigit(ra[1]);
    } else if ra == rb {
      var da, db := Decimal(a), Decimal(b);
      assert da == ra[1..|ra| - 1];
      assert db == rb[1..|rb| - 1];
      DecimalRoundTrip(a);
      DecimalRoundTrip(b);
    }
  }
}
