/** agent/probe/dns.go and agent/probe/http.go: what the agent sends fits the limits the server checks. */
module AgentBounds {
  import opened Basics
  import opened Tables

  const MAX_VALUES: nat := 20
  const MAX_VALUE_BYTES: nat := 4096
  const MAX_DIAGNOSTIC: nat := 512

  // -------------------------------------------------------------- Observed values

  predicate ValuesFit(values: seq<string>) {
    |values| <= MAX_VALUES && TotalBytes(values) <= MAX_VALUE_BYTES
  }

  lemma {:induction false} TotalBytesAppend(values: seq<string>, n: nat)
    requires n < |values|
    ensures TotalBytes(values[..n + 1]) == TotalBytes(values[..n]) + |values[n]|
  {
    if n == 0 {
      assert values[..1][1..] == [];
    } else {
      TotalBytesAppend(values[1..], n - 1);
      assert values[..n + 1][1..] == values[1..][..n] && values[..n][1..] == values[1..][..n - 1];
    }
  }

  lemma {:induction false} TotalBytesGrows(values: seq<string>, m: nat, n: nat)
    requires m <= n <= |values|
    ensures TotalBytes(values[..m]) <= TotalBytes(values[..n])
  {
    if m < n {
      TotalBytesGrows(values, m, n - 1);
      TotalBytesAppend(values, n - 1);
    }
  }

  function Joined(values: seq<string>): string {
    if values == [] then "" else values[0] + Joined(values[1..])
  }

  /** The bytes that count are those of all the values together. */
  lemma {:induction false} TotalBytesMeaning(values: seq<string>)
    ensures TotalBytes(values) == |Joined(values)|
  {
    if values != [] {
      TotalBytesMeaning(values[1..]);
    }
  }

  /** The longest prefix of the values within both limits. */
  ghost predicate LongestFit(values: seq<string>, bounded: seq<string>) {
    && bounded <= values && ValuesFit(bounded)
    && forall n :: |bounded| < n <= |values| ==> !ValuesFit(values[..n])
  }

  method BoundDnsValues(values: seq<string>) returns (bounded: seq<string>)
    ensures LongestFit(values, bounded)
  {
    bounded := [];
    var total := 0;
    for i := 0 to |values|
      invariant bounded == values[..i] && total == TotalBytes(bounded) && ValuesFit(bounded)
    {
      TotalBytesAppend(values, i);
      if |bounded| == MAX_VALUES || total + |values[i]| > MAX_VALUE_BYTES {
        forall n | i < n <= |values| ensures !ValuesFit(values[..n]) {
          TotalBytesGrows(values, i + 1, n);
        }
        break;
      }
      bounded := bounded + [values[i]];
      total := total + |values[i]|;
    }
  }

  // ---------------------------------------------------------- Diagnostic samples

  /** What decoding finds next in a Go string: a code point, or one byte that is not part of any. */
  datatype Decoded = Scalar(rune: Rune) | BadByte

  type Rune = n: nat | n < 0xD800 || 0xDFFF < n < 0x11_0000

  const REPLACEMENT: Rune := 0xFFFD
  const SPACE: Rune := 0x20

  predicate IsControl(r: Rune) {
    r < 0x20 || 0x7F <= r < 0xA0
  }

  function RuneLen(r: Rune): nat {
    if r < 0x80 then 1 else if r < 0x800 then 2 else if r < 0x1_0000 then 3 else 4
  }

  /** strings.ToValidUTF8: each run of bad bytes becomes one replacement character. */
  function ToValid(text: seq<Decoded>): seq<Rune> {
    if text == [] then []
    else
      match Last(text)
      case Scalar(r) => ToValid(Front(text)) + [r]
      case BadByte =>
        if |text| >= 2 && text[|text| - 2] == BadByte then ToValid(Front(text)) else ToValid(Front(text)) + [REPLACEMENT]
  }

  function Scalars(runes: seq<Rune>): seq<Decoded> {
    if runes == [] then [] else Scalars(Front(runes)) + [Scalar(Last(runes))]
  }

  /** Text without bad bytes is kept as it is. */
  lemma {:induction false} ScalarsAreKept(runes: seq<Rune>)
    ensures ToValid(Scalars(runes)) == runes
  {
    if runes != [] {
      ScalarsAreKept(Front(runes));
      assert Front(Scalars(runes)) == Scalars(Front(runes));
    }
  }

  function BadRun(k: nat): (bytes: seq<Decoded>)
    ensures |bytes| == k && forall b <- bytes :: b == BadByte
  {
    if k == 0 then [] else BadRun(k - 1) + [BadByte]
  }

  lemma ToValidStep(text: seq<Decoded>)
    requires text != []
    ensures ToValid(text)
            == if Last(text).Scalar? then ToValid(Front(text)) + [Last(text).rune]
               else if |text| >= 2 && text[|text| - 2] == BadByte then ToValid(Front(text))
               else ToValid(Front(text)) + [0xFFFD]
  {
  }

  lemma ToValidFirstBad(before: seq<Decoded>)
    requires before == [] || Last(before) != BadByte
    ensures ToValid(before + [BadByte]) == ToValid(before) + [0xFFFD]
  {
    var text := before + [BadByte];
    assert Front(text) == before && Last(text) == BadByte;
    assert before != [] ==> text[|text| - 2] == Last(before);
  }

  lemma ToValidNextBad(before: seq<Decoded>)
    requires before != [] && Last(before) == BadByte
    ensures ToValid(before + [BadByte]) == ToValid(before)
  {
    var text := before + [BadByte];
    assert Front(text) == before && text[|text| - 2] == Last(before);
  }

  lemma {:induction false} ToValidRun(before: seq<Decoded>, k: nat)
    requires k >= 1 && (before == [] || Last(before) != BadByte)
    ensures ToValid(before + BadRun(k)) == ToValid(before) + [0xFFFD]
  {
    hide ToValid;
    if k == 1 {
      assert BadRun(1) == [BadByte];
      ToValidFirstBad(before);
    } else {
      ToValidRun(before, k - 1);
      assert before + BadRun(k) == before + BadRun(k - 1) + [BadByte];
      assert Last(before + BadRun(k - 1)) == BadByte;
      ToValidNextBad(before + BadRun(k - 1));
    }
  }

  /** A whole run of bad bytes, however long, becomes one replacement character, and what is around it is not touched. */
  lemma {:induction false} RunBecomesOne(before: seq<Decoded>, k: nat, after: seq<Decoded>)
    requires k >= 1 && (before == [] || Last(before) != BadByte) && (after == [] || after[0] != BadByte)
    ensures ToValid(before + BadRun(k) + after) == ToValid(before) + [0xFFFD] + ToValid(after)
    decreases |after|
  {
    if after == [] {
      ToValidRun(before, k);
      assert before + BadRun(k) + after == before + BadRun(k);
      assert ToValid(before) + [0xFFFD] + ToValid(after) == ToValid(before) + [0xFFFD];
    } else {
      hide ToValid;
      var text := before + BadRun(k) + after;
      RunBecomesOne(before, k, Front(after));
      assert Front(text) == before + BadRun(k) + Front(after) && Last(text) == Last(after);
      assert |after| >= 2 ==> text[|text| - 2] == after[|after| - 2];
      ToValidStep(text);
      ToValidStep(after);
    }
  }

  function Blank(r: Rune): Rune {
    if IsControl(r) then SPACE else r
  }

  function Sanitized(runes: seq<Rune>): (r: seq<Rune>)
    ensures |r| == |runes|
    ensures forall i :: 0 <= i < |runes| ==> r[i] == Blank(runes[i])
  {
    if runes == [] then [] else Sanitized(Front(runes)) + [Blank(Last(runes))]
  }

  /** Exactly the control characters, those of the category Cc, become spaces. */
  lemma SanitizedMeaning(runes: seq<Rune>, i: nat)
    requires i < |runes|
    ensures Sanitized(runes)[i] == if runes[i] <= 0x1F || 0x7F <= runes[i] <= 0x9F then 0x20 else runes[i]
  {
  }

  /** UTF-8, one character standing for each byte. */
  function EncodeRune(r: Rune): (bytes: string)
    ensures |bytes| == RuneLen(r)
  {
    if r < 0x80 then [r as char]
    else if r < 0x800 then [(0xC0 + r / 0x40) as char, (0x80 + r % 0x40) as char]
    else if r < 0x1_0000 then
      [(0xE0 + r / 0x1000) as char, (0x80 + r / 0x40 % 0x40) as char, (0x80 + r % 0x40) as char]
    else
      [(0xF0 + r / 0x4_0000) as char, (0x80 + r / 0x1000 % 0x40) as char,
       (0x80 + r / 0x40 % 0x40) as char, (0x80 + r % 0x40) as char]
  }

  predicate Continuation(c: char) {
    0x80 <= c as int <= 0xBF
  }

  /** The code point of one encoded character, by section 3 of RFC 3629. */
  function DecodeRune(bytes: string): int
    requires 1 <= |bytes| <= 4
  {
    var b := (i: int) requires 0 <= i < |bytes| => bytes[i] as int;
    if |bytes| == 1 then b(0)
    else if |bytes| == 2 then (b(0) - 0xC0) * 0x40 + (b(1) - 0x80)
    else if |bytes| == 3 then ((b(0) - 0xE0) * 0x40 + (b(1) - 0x80)) * 0x40 + (b(2) - 0x80)
    else (((b(0) - 0xF0) * 0x40 + (b(1) - 0x80)) * 0x40 + (b(2) - 0x80)) * 0x40 + (b(3) - 0x80)
  }

  /** Six bits at a time. */
  lemma Sextets(n: nat)
    ensures n == (n / 0x40) * 0x40 + n % 0x40
    ensures n / 0x1000 == n / 0x40 / 0x40 && n / 0x4_0000 == n / 0x1000 / 0x40
  {
  }

  /** What is encoded is UTF-8: the first byte tells the length, the others are continuation bytes, and the code point
      can be read back. */
  lemma EncodedRune(r: Rune)
    ensures var bytes := EncodeRune(r);
            && 1 <= |bytes| <= 4 && DecodeRune(bytes) == r
            && (forall i :: 1 <= i < |bytes| ==> Continuation(bytes[i]))
            && FirstByte(|bytes|, bytes[0] as int)
  {
    var low, middle, high := r % 0x40, r / 0x40 % 0x40, r / 0x1000 % 0x40;
    Sextets(r);
    Sextets(r / 0x40);
    Sextets(r / 0x1000);
    var bytes := EncodeRune(r);
    if |bytes| == 3 {
      assert DecodeRune(bytes) == (r / 0x1000 * 0x40 + middle) * 0x40 + low;
    } else if |bytes| == 4 {
      assert DecodeRune(bytes) == ((r / 0x4_0000 * 0x40 + high) * 0x40 + middle) * 0x40 + low;
    }
  }

  /** The range of the first byte of a character that takes this many. */
  predicate FirstByte(length: nat, b: int) {
    match length
    case 1 => b < 0x80
    case 2 => 0xC2 <= b <= 0xDF
    case 3 => 0xE0 <= b <= 0xEF
    case _ => 0xF0 <= b <= 0xF4
  }

  function Encode(runes: seq<Rune>): string {
    if runes == [] then "" else Encode(Front(runes)) + EncodeRune(Last(runes))
  }

  lemma {:induction false} EncodeGrows(runes: seq<Rune>, m: nat, n: nat)
    requires m <= n <= |runes|
    ensures |Encode(runes[..m])| <= |Encode(runes[..n])|
  {
    if m < n {
      EncodeGrows(runes, m, n - 1);
      assert Front(runes[..n]) == runes[..n - 1];
    }
  }

  /** The text with its control characters blanked, as far as whole characters of it fit. */
  ghost predicate SampleOf(text: seq<Decoded>, sample: string) {
    exists n :: Fits(Sanitized(ToValid(text)), n, sample)
  }

  /** The sample encodes the first n characters, none of them a control character, and no more would fit. */
  ghost predicate Fits(runes: seq<Rune>, n: nat, sample: string) {
    && n <= |runes| && sample == Encode(runes[..n]) && |sample| <= MAX_DIAGNOSTIC
    && (forall r <- runes[..n] :: 0x20 <= r && !(0x7F <= r <= 0x9F))
    && (forall k :: n < k <= |runes| ==> |Encode(runes[..k])| > MAX_DIAGNOSTIC)
  }

  /** diagnostic: control characters become spaces, and the longest run of whole characters that fits is kept. */
  method Diagnostic(text: seq<Decoded>) returns (sample: string)
    ensures SampleOf(text, sample) && |sample| <= MAX_DIAGNOSTIC
  {
    hide EncodeRune;
    var value := ToValid(text);
    ghost var all := Sanitized(value);
    sample := "";
    var i := 0;
    while i < |value|
      invariant i <= |value| && sample == Encode(all[..i]) && |sample| <= MAX_DIAGNOSTIC
    {
      var r := value[i];
      if IsControl(r) {
        r := SPACE;
      }
      assert Front(all[..i + 1]) == all[..i] && Last(all[..i + 1]) == r;
      if |sample| + RuneLen(r) > MAX_DIAGNOSTIC {
        forall n | i < n <= |all| ensures |Encode(all[..n])| > MAX_DIAGNOSTIC {
          EncodeGrows(all, i + 1, n);
        }
        break;
      }
      sample := sample + EncodeRune(r);
      i := i + 1;
    }
    assert Fits(all, i, sample);
  }

  // ------------------------------------------------------------- The server's view

  /** The agent's limits are the server's: the server rejects a text for its size exactly if it exceeds them. */
  lemma LimitsAreTheServers(command: Command, run: Run, agent: AgentId, receivedAt: Time)
    ensures ObservedValuesField in ResultErrors(command, run, agent, receivedAt)
            <==> !ValuesFit(command.measurement.observedValues)
    ensures DiagnosticField in ResultErrors(command, run, agent, receivedAt)
            <==> |command.measurement.diagnosticSample| > MAX_DIAGNOSTIC
  {
  }

  /** Whatever a probe observed and has to say, the server finds nothing wrong with how much of it arrives. */
  method Report(values: seq<string>, text: seq<Decoded>, run: Run, agent: AgentId, receivedAt: Time, command: Command)
    returns (sent: Command)
    ensures sent == command.(measurement := command.measurement.(
                      observedValues := sent.measurement.observedValues,
                      diagnosticSample := sent.measurement.diagnosticSample))
    ensures LongestFit(values, sent.measurement.observedValues)
    ensures SampleOf(text, sent.measurement.diagnosticSample)
    ensures {ObservedValuesField, DiagnosticField} !! ResultErrors(sent, run, agent, receivedAt)
  {
    var bounded := BoundDnsValues(values);
    var sample := Diagnostic(text);
    sent := command.(measurement := command.measurement.(observedValues := bounded, diagnosticSample := sample));
    LimitsAreTheServers(sent, run, agent, receivedAt);
  }
}
