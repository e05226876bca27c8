/**
 * Field decoding and health classification of ONU telemetry (app/snmp_utils.py):
 * the health categories, the receive-power parser, the power, serial, status,
 * uptime and temperature renderings.
 *
 * Optical power is carried as an integer number of hundredths of a dBm, the unit
 * in which the OLT reports it; the two thresholds are -28.00 and -35.00 dBm.
 */
module SnmpDecode {
  import opened Wrappers
  import opened PyText

  /** −28.0 dBm: below this the signal is low/critical. */
  const RxPowerCriticalThreshold: int := -2800
  /** −35.0 dBm: below this the signal may indicate a physical fault. */
  const RxPowerVeryLowThreshold: int := -3500

  // ---------------------------------------------------------------------------
  // Health categories
  // ---------------------------------------------------------------------------

  datatype Category =
    | AwaitingProvisioning
    | Offline
    | VeryLowSignal
    | LowCriticalSignal
    | OnlineSignalOk
    | OnlineSignalUnknown
    | Unknown

  /** The category names the dashboard shows and the API filters on. */
  function Label(c: Category): string {
    match c
    case AwaitingProvisioning => "Esperando Provisionamento"
    case Offline => "Offline"
    case VeryLowSignal => "Sinal Muito Baixo (Falha?)"
    case LowCriticalSignal => "Sinal Baixo/Crítico"
    case OnlineSignalOk => "Online (Sinal OK)"
    case OnlineSignalUnknown => "Online (Sinal Desconhecido)"
    case Unknown => "Desconhecido"
  }

  lemma LabelInjective(a: Category, b: Category)
    requires Label(a) == Label(b)
    ensures a == b
  {
  }

  datatype LinkStatus = LinkOnline | LinkOffline | LinkUnknown | LinkInvalid
  datatype RegStatus = Registered | Unregistered | RegUnknown | RegInvalid

  /**
   * categorize_ont: registration "unregistered" wins over everything, then link
   * "offline"; only online and registered ONUs are graded by receive power
   * (absent power: signal unknown); every other combination is Unknown.
   */
  function Categorize(link: LinkStatus, reg: RegStatus, rx: Option<int>): Category {
    if reg == Unregistered then AwaitingProvisioning
    else if link == LinkOffline then Offline
    else if link == LinkOnline && reg == Registered then
      match rx
      case Some(p) =>
        if p < RxPowerVeryLowThreshold then VeryLowSignal
        else if p < RxPowerCriticalThreshold then LowCriticalSignal
        else OnlineSignalOk
      case None => OnlineSignalUnknown
    else Unknown
  }

  /**
   * Priority: registration "unregistered" decides whatever the link or power, then link
   * "offline"; every combination other than online and registered is Unknown.
   */
  lemma CategorizePriority(link: LinkStatus, reg: RegStatus, rx: Option<int>)
    ensures reg == Unregistered ==> Categorize(link, reg, rx) == AwaitingProvisioning
    ensures reg != Unregistered && link == LinkOffline ==> Categorize(link, reg, rx) == Offline
    ensures (reg != Unregistered && link != LinkOffline && !(link == LinkOnline && reg == Registered))
              ==> Categorize(link, reg, rx) == Unknown
  {
  }

  /**
   * Online and registered ONUs are graded by the thresholds: below −35.00 dBm very low,
   * from −35.00 to below −28.00 low/critical, from −28.00 up fine, no reading unknown.
   */
  lemma CategorizeSignalBands(rx: Option<int>)
    ensures var c := Categorize(LinkOnline, Registered, rx);
            && (rx.None? <==> c == OnlineSignalUnknown)
            && (rx.Some? && rx.value < RxPowerVeryLowThreshold <==> c == VeryLowSignal)
            && (rx.Some? && RxPowerVeryLowThreshold <= rx.value < RxPowerCriticalThreshold <==> c == LowCriticalSignal)
            && (rx.Some? && RxPowerCriticalThreshold <= rx.value <==> c == OnlineSignalOk)
  {
  }

  /** How bad a graded signal is: 0 fine, 1 low, 2 very low. */
  function Severity(c: Category): nat {
    match c
    case VeryLowSignal => 2
    case LowCriticalSignal => 1
    case _ => 0
  }

  /** A weaker received signal is never graded better than a stronger one. */
  lemma CategorizeMonotone(p: int, q: int)
    requires p <= q
    ensures Severity(Categorize(LinkOnline, Registered, Some(p)))
            >= Severity(Categorize(LinkOnline, Registered, Some(q)))
  {
  }

  /** Only online and registered ONUs ever get a signal grade or an "Online" category. */
  lemma GradedOnlyWhenOnlineRegistered(link: LinkStatus, reg: RegStatus, rx: Option<int>)
    requires Categorize(link, reg, rx) in {VeryLowSignal, LowCriticalSignal, OnlineSignalOk, OnlineSignalUnknown}
    ensures link == LinkOnline && reg == Registered
  {
  }

  // ---------------------------------------------------------------------------
  // Power rendering and parsing
  // ---------------------------------------------------------------------------

  function TwoDigits(d: nat): string
    requires d < 100
  {
    [DigitChar(d / 10), DigitChar(d % 10)]
  }

  function Abs(n: int): nat { if n < 0 then -n else n }

  /**
   * f"{n / 100:.2f} dBm" for a power of n hundredths of a dBm: sign, whole dBm,
   * a point, two decimals, " dBm".
   */
  function FormatPower(n: int): string {
    PowerSign(n) + PowerNumber(n) + " dBm"
  }

  function PowerSign(n: int): string { if n < 0 then "-" else "" }

  /** Whole dBm, a point and two decimals of |n| hundredths. */
  function PowerNumber(n: int): string {
    NatToString(Abs(n) / 100) + "." + TwoDigits(Abs(n) % 100)
  }

  /** The rxPower / txPower field for a raw walked value: formatted, or 'Invalid Value'. */
  function PowerField(value: string): string {
    match ParseInt(value)
    case Some(n) => FormatPower(n)
    case None => "Invalid Value"
  }

  /** Length of the longest prefix of `s` made of digits and points (the class [0-9.]). */
  function NumberSpan(s: string): (k: nat)
    ensures k <= |s|
  {
    if s != [] && (IsDigit(s[0]) || s[0] == '.') then 1 + NumberSpan(s[1..]) else 0
  }

  function CountLeading(s: string, c: char): (k: nat)
    ensures k <= |s|
  {
    if s != [] && s[0] == c then 1 + CountLeading(s[1..], c) else 0
  }

  /** `s` with its leading white space removed (the regex's `\s*`). */
  function SkipSpaces(s: string): string {
    StripLeft(s)
  }

  /** Hundredths in a fractional part of at most two digits ("5" is 50, "05" is 5). */
  function FracHundredths(f: string): nat
    requires AllDigits(f) && |f| <= 2
  {
    if |f| == 0 then 0
    else if |f| == 1 then DigitsValue(f) * 10
    else DigitsValue(f)
  }

  /**
   * float(g) on decimal text, in hundredths: an optional '-', digits with at most one
   * point and at most two decimals. None stands for float's ValueError.
   */
  function DecimalHundredths(g: string): Option<int> {
    var neg := |g| > 0 && g[0] == '-';
    var body := if neg then g[1..] else g;
    var k := IndexOf(body, '.');
    var whole := body[..k];
    var frac := if k < |body| then body[k + 1..] else "";
    if AllDigits(whole) && AllDigits(frac) && (|whole| > 0 || |frac| > 0) && |frac| <= 2 then
      var v := DigitsValue(whole) * 100 + FracHundredths(frac);
      Some(if neg then 0 - v else v)
    else None
  }

  /** The group captured by the intended pattern `(-?[0-9\.]+)\s*dBm`, matched at the start. */
  function IntendedGroup(s: string): Option<string> {
    var neg := |s| > 0 && s[0] == '-';
    var body := if neg then s[1..] else s;
    var k := NumberSpan(body);
    if k > 0 && StartsWith(SkipSpaces(body[k..]), "dBm") then
      Some((if neg then "-" else "") + body[..k])
    else None
  }

  /**
   * The group captured by the pattern as written, `(-?\[0-9\.]+)\s*dBm`: the escaped
   * bracket makes it a literal, so the group is an optional '-', the text "[0-9." and
   * one or more ']'.
   */
  function AsWrittenGroup(s: string): Option<string> {
    var neg := |s| > 0 && s[0] == '-';
    var body := if neg then s[1..] else s;
    if !StartsWith(body, "[0-9.") then None
    else
      var k := 5 + CountLeading(body[5..], ']');
      if k > 5 && StartsWith(SkipSpaces(body[k..]), "dBm") then
        Some((if neg then "-" else "") + body[..k])
      else None
  }

  /**
   * parse_rx_power as written: the 'dBm' guard, then the escaped pattern. Every
   * group it captures contains '[', which float() rejects, so the handler returns None.
   */
  function ParseRxPowerAsWritten(s: string): Option<int> {
    if !Contains(s, "dBm") then None
    else
      match AsWrittenGroup(s)
      case Some(g) => DecimalHundredths(g)
      case None => None
  }

  /** parse_rx_power as intended: the 'dBm' guard, then `(-?[0-9\.]+)\s*dBm`. */
  function ParseRxPower(s: string): (r: Option<int>)
    ensures !Contains(s, "dBm") ==> r == None
  {
    if !Contains(s, "dBm") then None
    else
      match IntendedGroup(s)
      case Some(g) => DecimalHundredths(g)
      case None => None
  }

  lemma BracketNotDecimal(g: string)
    requires exists i :: 0 <= i < |g| && g[i] == '['
    ensures DecimalHundredths(g) == None
  {
    var i :| 0 <= i < |g| && g[i] == '[';
    var neg := |g| > 0 && g[0] == '-';
    var body := if neg then g[1..] else g;
    var k := IndexOf(body, '.');
    var j := if neg then i - 1 else i;
    assert 0 <= j < |body| && body[j] == '[';
    if j < k {
      assert body[..k][j] == '[';
    } else {
      assert j != k;
      assert body[k + 1..][j - k - 1] == '[';
    }
  }

  /** As written, parse_rx_power never yields a number, whatever the text. */
  lemma AsWrittenNeverParses(s: string)
    ensures ParseRxPowerAsWritten(s) == None
  {
    var g := AsWrittenGroup(s);
    if g.Some? {
      var neg := |s| > 0 && s[0] == '-';
      var body := if neg then s[1..] else s;
      var idx := if neg then 1 else 0;
      assert g.value[idx] == '[';
      BracketNotDecimal(g.value);
    }
  }

  lemma {:induction false} NumberSpanAppend(x: string, y: string)
    requires forall i :: 0 <= i < |x| ==> IsDigit(x[i]) || x[i] == '.'
    ensures NumberSpan(x + y) == |x| + NumberSpan(y)
    decreases |x|
  {
    if x == [] {
      assert x + y == y;
    } else {
      assert (x + y)[0] == x[0];
      assert (x + y)[1..] == x[1..] + y;
      NumberSpanAppend(x[1..], y);
    }
  }

  lemma {:induction false} ContainsSuffix(s: string, p: string)
    requires EndsWith(s, p)
    ensures Contains(s, p)
    decreases |s|
  {
    if |s| > |p| {
      assert s[1..][|s| - 1 - |p|..] == s[|s| - |p|..];
      ContainsSuffix(s[1..], p);
    } else {
      assert s[..|p|] == s[|s| - |p|..];
    }
  }

  lemma DigitCharValue(d: nat)
    requires d < 10
    ensures DigitChar(d) as int - '0' as int == d
  {
  }

  lemma TwoDigitsFacts(d: nat)
    requires d < 100
    ensures AllDigits(TwoDigits(d)) && |TwoDigits(d)| == 2
    ensures DigitsValue(TwoDigits(d)) == d
  {
    var dd := TwoDigits(d);
    DigitCharValue(d / 10);
    DigitCharValue(d % 10);
    assert dd[..1] == [DigitChar(d / 10)];
    assert [DigitChar(d / 10)][..0] == [];
    assert DigitsValue(dd[..1]) == d / 10;
    assert DigitsValue(dd) == (d / 10) * 10 + d % 10;
  }

  lemma PowerNumberFacts(n: int)
    ensures var whole := NatToString(Abs(n) / 100);
            var num := PowerNumber(n);
            && IsDigitString(whole)
            && (forall i :: 0 <= i < |num| ==> IsDigit(num[i]) || num[i] == '.')
            && IsDigit(num[0])
            && IndexOf(num, '.') == |whole|
            && num[..|whole|] == whole
            && num[|whole| + 1..] == TwoDigits(Abs(n) % 100)
  {
    var whole := NatToString(Abs(n) / 100);
    var dd := TwoDigits(Abs(n) % 100);
    var num := PowerNumber(n);
    NatToStringDigits(Abs(n) / 100);
    TwoDigitsFacts(Abs(n) % 100);
    assert num == whole + "." + dd;
    forall i | 0 <= i < |num| ensures IsDigit(num[i]) || num[i] == '.' {
      if i < |whole| {
        assert num[i] == whole[i];
      } else if i > |whole| {
        assert num[i] == dd[i - |whole| - 1];
      }
    }
    assert num[0] == whole[0];
    forall i | 0 <= i < |whole| ensures num[i] != '.' {
      assert num[i] == whole[i];
    }
    assert num[|whole|] == '.';
    IndexOfFirst(num, '.', |whole|);
    assert num[..|whole|] == whole;
    assert num[|whole| + 1..] == dd;
  }

  lemma SpanBeforeUnit(num: string)
    requires forall i :: 0 <= i < |num| ==> IsDigit(num[i]) || num[i] == '.'
    ensures NumberSpan(num + " dBm") == |num|
  {
    NumberSpanAppend(num, " dBm");
  }

  lemma SkipToUnit()
    ensures StartsWith(SkipSpaces(" dBm"), "dBm")
  {
    assert " dBm"[1..] == "dBm";
    assert SkipSpaces(" dBm") == "dBm";
    assert "dBm"[..3] == "dBm";
  }

  lemma SignDetected(sign: string, num: string)
    requires sign == "" || sign == "-"
    requires |num| > 0 && IsDigit(num[0])
    ensures var s := sign + num + " dBm";
            && ((|s| > 0 && s[0] == '-') <==> sign == "-")
            && (if sign == "-" then s[1..] else s) == num + " dBm"
  {
    var s := sign + num + " dBm";
    if sign == "" { assert s[0] == num[0]; }
  }

  lemma IntendedGroupOf(sign: string, num: string)
    requires sign == "" || sign == "-"
    requires |num| > 0 && IsDigit(num[0])
    requires forall i :: 0 <= i < |num| ==> IsDigit(num[i]) || num[i] == '.'
    ensures IntendedGroup(sign + num + " dBm") == Some(sign + num)
  {
    var body := num + " dBm";
    SignDetected(sign, num);
    SpanBeforeUnit(num);
    assert body[|num|..] == " dBm";
    SkipToUnit();
    assert body[..|num|] == num;
  }

  lemma IntendedGroupOfPower(n: int)
    ensures IntendedGroup(FormatPower(n)) == Some(PowerSign(n) + PowerNumber(n))
  {
    PowerNumberFacts(n);
    IntendedGroupOf(PowerSign(n), PowerNumber(n));
  }

  lemma DecimalOfPowerNumber(n: int)
    ensures DecimalHundredths(PowerSign(n) + PowerNumber(n)) == Some(n)
  {
    var g := PowerSign(n) + PowerNumber(n);
    var num := PowerNumber(n);
    var whole := NatToString(Abs(n) / 100);
    PowerNumberFacts(n);
    TwoDigitsFacts(Abs(n) % 100);
    NatToStringDigits(Abs(n) / 100);
    if n < 0 {
      assert g[0] == '-' && g[1..] == num;
    } else {
      assert g == num;
      assert g[0] == num[0];
    }
  }

  /**
   * The intended parser inverts the power rendering: the field written for a raw
   * value of n hundredths of a dBm parses back to n.
   */
  lemma ParseFormatPower(n: int)
    ensures ParseRxPower(FormatPower(n)) == Some(n)
  {
    var s := FormatPower(n);
    assert s[|s| - 3..] == "dBm";
    ContainsSuffix(s, "dBm");
    IntendedGroupOfPower(n);
    DecimalOfPowerNumber(n);
  }

  /** The as-written and intended parsers disagree on every rendered power value. */
  lemma RxParsersDisagree(n: int)
    ensures ParseRxPowerAsWritten(FormatPower(n)) == None
    ensures ParseRxPower(FormatPower(n)) == Some(n)
  {
    AsWrittenNeverParses(FormatPower(n));
    ParseFormatPower(n);
  }

  /**
   * With the parser as written, an online and registered ONU is always graded
   * "Online (Sinal Desconhecido)", whatever power it reports.
   */
  lemma AsWrittenGradeIsAlwaysUnknown(rxField: string)
    ensures Categorize(LinkOnline, Registered, ParseRxPowerAsWritten(rxField)) == OnlineSignalUnknown
  {
    AsWrittenNeverParses(rxField);
  }

  // ---------------------------------------------------------------------------
  // Status codes
  // ---------------------------------------------------------------------------

  /** Link-status table: 1 online, 2 offline, 3 unknown, any other code invalid. */
  function LinkStatusOf(code: int): LinkStatus {
    if code == 1 then LinkOnline
    else if code == 2 then LinkOffline
    else if code == 3 then LinkUnknown
    else LinkInvalid
  }

  /** Registration-status table: 1 registered, 2 unregistered, 3 unknown, any other invalid. */
  function RegStatusOf(code: int): RegStatus {
    if code == 1 then Registered
    else if code == 2 then Unregistered
    else if code == 3 then RegUnknown
    else RegInvalid
  }

  lemma StatusTablesOutside(code: int)
    requires code !in {1, 2, 3}
    ensures LinkStatusOf(code) == LinkInvalid && RegStatusOf(code) == RegInvalid
  {
  }

  // ---------------------------------------------------------------------------
  // Serial numbers
  // ---------------------------------------------------------------------------

  type byte = x: int | 0 <= x < 256

  /** Python's `s.replace(pat, '')`: every non-overlapping occurrence, left to right. */
  function RemoveAll(s: string, pat: string): string
    requires |pat| > 0
    decreases |s|
  {
    if StartsWith(s, pat) then RemoveAll(s[|pat|..], pat)
    else if s == [] then []
    else [s[0]] + RemoveAll(s[1..], pat)
  }

  /** ASCII white space, which bytes.fromhex skips between byte pairs. */
  predicate IsAsciiSpace(c: char) {
    c == ' ' || c == '\t' || c == '\n' || c == '\r' || c == '\U{000B}' || c == '\U{000C}'
  }

  function HexValue(c: char): Option<nat> {
    if '0' <= c <= '9' then Some(c as int - '0' as int)
    else if 'a' <= c <= 'f' then Some(c as int - 'a' as int + 10)
    else if 'A' <= c <= 'F' then Some(c as int - 'A' as int + 10)
    else None
  }

  /** bytes.fromhex: pairs of hex digits, white space allowed between pairs; None for ValueError. */
  function FromHex(s: string): Option<seq<byte>>
    decreases |s|
  {
    if s == [] then Some([])
    else if IsAsciiSpace(s[0]) then FromHex(s[1..])
    else if |s| >= 2 && HexValue(s[0]).Some? && HexValue(s[1]).Some? then
      match FromHex(s[2..])
      case Some(rest) => Some([(HexValue(s[0]).value * 16 + HexValue(s[1]).value) as byte] + rest)
      case None => None
    else None
  }

  /** .decode('ascii', errors='ignore'): bytes above 127 are dropped. */
  function AsciiIgnore(b: seq<byte>): (r: string)
    ensures |r| <= |b|
  {
    if b == [] then []
    else (if b[0] < 128 then [b[0] as char] else []) + AsciiIgnore(b[1..])
  }

  /** The hex text of a serial value with every "0x" and every space removed. */
  function HexText(value: string): string {
    RemoveAll(RemoveAll(value, "0x"), " ")
  }

  /** A vendor-prefixed serial: more than 4 characters, the first 4 alphanumeric and upper case. */
  predicate VendorPrefixed(a: string) {
    |a| > 4 && IsAlnumString(a[..4]) && IsUpperString(a[..4])
  }

  /**
   * The serialNumber field: the ASCII decoding when it is vendor-prefixed, otherwise
   * the hex text; the raw value when the hex text does not decode.
   */
  function DecodeSerial(value: string): string {
    var h := HexText(value);
    match FromHex(h)
    case None => value
    case Some(b) =>
      var a := AsciiIgnore(b);
      if VendorPrefixed(a) then a else h
  }

  /**
   * The three outcomes of the serial decoding: the raw value when the hex text does not
   * decode, the ASCII text when it is vendor-prefixed, the hex text otherwise.
   */
  lemma DecodeSerialCases(value: string)
    ensures FromHex(HexText(value)).None? ==> DecodeSerial(value) == value
    ensures FromHex(HexText(value)).Some? ==>
              var a := AsciiIgnore(FromHex(HexText(value)).value);
              (VendorPrefixed(a) ==> DecodeSerial(value) == a)
              && (!VendorPrefixed(a) ==> DecodeSerial(value) == HexText(value))
  {
  }

  /** A serial whose ASCII text starts with digits is never taken as text ("1234…" fails). */
  lemma DigitLedSerialNotText(a: string)
    requires |a| >= 4 && forall i :: 0 <= i < 4 ==> IsDigit(a[i])
    ensures !VendorPrefixed(a)
  {
    forall i | 0 <= i < |a[..4]|
      ensures !IsUpperLetter(a[..4][i])
    {
      assert a[..4][i] == a[i];
    }
  }

  function HexDigit(d: nat): char
    requires d < 16
  {
    if d < 10 then DigitChar(d) else (d - 10 + 'a' as int) as char
  }

  /** The lowercase hex rendering of a byte string, as the agent prints a binary octet string. */
  function HexEncode(b: seq<byte>): (s: string)
    ensures |s| == 2 * |b|
  {
    if b == [] then [] else [HexDigit(b[0] / 16), HexDigit(b[0] % 16)] + HexEncode(b[1..])
  }

  lemma HexDigitValue(d: nat)
    requires d < 16
    ensures HexValue(HexDigit(d)) == Some(d) && !IsAsciiSpace(HexDigit(d))
  {
  }

  lemma {:induction false} FromHexEncode(b: seq<byte>)
    ensures FromHex(HexEncode(b)) == Some(b)
    decreases |b|
  {
    if b != [] {
      var s := HexEncode(b);
      HexDigitValue(b[0] / 16);
      HexDigitValue(b[0] % 16);
      assert s[0] == HexDigit(b[0] / 16) && s[1] == HexDigit(b[0] % 16);
      assert s[2..] == HexEncode(b[1..]);
      FromHexEncode(b[1..]);
      assert [b[0]] + b[1..] == b;
    }
  }

  lemma {:induction false} RemoveAllAbsent(s: string, pat: string)
    requires |pat| > 0
    requires forall i :: 0 <= i < |s| ==> s[i] != pat[0]
    ensures RemoveAll(s, pat) == s
    decreases |s|
  {
    if s != [] {
      assert !StartsWith(s, pat) by { assert s[0] != pat[0]; }
      RemoveAllAbsent(s[1..], pat);
    }
  }

  lemma {:induction false} HexEncodeChars(b: seq<byte>)
    ensures forall i :: 0 <= i < |HexEncode(b)| ==> HexValue(HexEncode(b)[i]).Some?
    decreases |b|
  {
    if b != [] {
      HexEncodeChars(b[1..]);
      var s := HexEncode(b);
      forall i | 0 <= i < |s| ensures HexValue(s[i]).Some? {
        if i >= 2 {
          assert s[i] == HexEncode(b[1..])[i - 2];
        }
      }
    }
  }

  lemma {:induction false} AsciiOfAsciiBytes(b: seq<byte>)
    requires forall i :: 0 <= i < |b| ==> b[i] < 128
    ensures |AsciiIgnore(b)| == |b|
    ensures forall i :: 0 <= i < |b| ==> AsciiIgnore(b)[i] == b[i] as char
    decreases |b|
  {
    if b != [] {
      AsciiOfAsciiBytes(b[1..]);
    }
  }

  /**
   * Serial round trip: a binary octet string printed as "0x" + hex decodes to its ASCII
   * text when that text is vendor-prefixed, and to the bare hex otherwise.
   */
  lemma SerialRoundTrip(b: seq<byte>)
    ensures var a := AsciiIgnore(b);
            DecodeSerial("0x" + HexEncode(b)) == (if VendorPrefixed(a) then a else HexEncode(b))
  {
    var h := HexEncode(b);
    HexEncodeChars(b);
    assert RemoveAll("0x" + h, "0x") == RemoveAll(h, "0x") by {
      assert StartsWith("0x" + h, "0x");
      assert ("0x" + h)[2..] == h;
    }
    assert RemoveAll(h, "0x") == h by {
      RemoveZeroXAbsent(h);
    }
    RemoveAllAbsent(h, " ");
    FromHexEncode(b);
  }

  /** Text of hex digits holds no "0x", so removing "0x" leaves it as it is. */
  lemma {:induction false} RemoveZeroXAbsent(h: string)
    requires forall i :: 0 <= i < |h| ==> HexValue(h[i]).Some?
    ensures RemoveAll(h, "0x") == h
    decreases |h|
  {
    if h != [] {
      assert !StartsWith(h, "0x") by {
        if |h| >= 2 { assert HexValue(h[1]).Some?; }
      }
      RemoveZeroXAbsent(h[1..]);
    }
  }

  // ---------------------------------------------------------------------------
  // Uptime and temperature
  // ---------------------------------------------------------------------------

  const TicksPerDay: int := 8640000
  const TicksPerHour: int := 360000
  const TicksPerMinute: int := 6000

  /**
   * "{d}d {h}h {m}m" for a sysUpTime of t TimeTicks (hundredths of a second,
   * section 7.1.8 of RFC 2578), with Python's floor division.
   */
  function FormatUptime(t: int): string {
    IntToString(t / TicksPerDay) + "d "
    + IntToString((t % TicksPerDay) / TicksPerHour) + "h "
    + IntToString((t % TicksPerHour) / TicksPerMinute) + "m"
  }

  /**
   * The three numbers the uptime shows are a proper days/hours/minutes split of t:
   * hours below 24, minutes below 60, and together they account for t up to the
   * sub-minute remainder.
   */
  lemma UptimeFields(t: int)
    ensures 0 <= (t % TicksPerDay) / TicksPerHour < 24
    ensures 0 <= (t % TicksPerHour) / TicksPerMinute < 60
    ensures (t / TicksPerDay) * TicksPerDay + ((t % TicksPerDay) / TicksPerHour) * TicksPerHour
            + ((t % TicksPerHour) / TicksPerMinute) * TicksPerMinute + t % TicksPerMinute == t
  {
    var r := t % 8640000;
    assert r % 360000 == t % 360000;
    var q := t % 360000;
    assert q % 6000 == t % 6000;
  }

  /**
   * The temperature field: " °C" appended exactly when the value is all digits
   * (the placeholder "N/A", which the source also excludes, is not).
   */
  function FormatTemperature(temp: string): string {
    if IsDigitString(temp) then temp + " °C" else temp
  }

  /** " °C" is appended exactly to all-digit readings; anything else, "N/A" included, is kept. */
  lemma TemperatureUnit(temp: string)
    ensures IsDigitString(temp) <==> FormatTemperature(temp) == temp + " °C"
    ensures !IsDigitString(temp) ==> FormatTemperature(temp) == temp
    ensures !IsDigitString("N/A")
  {
    assert !IsDigit("N/A"[0]);
    if !IsDigitString(temp) {
      assert |temp + " °C"| != |temp|;
    }
  }
}
