/**
 Plug-in device ids, printed and scanned with the format "apqn-%d-%d-%d".

 The printer follows fmt.Sprintf and the scanner follows fmt.Sscanf: a scanned number may be
 preceded by blanks and a sign, must fit 64 bits, and text behind the last number is ignored.
 */
module DeviceIds {
  import opened Wrappers

  const PREFIX := "apqn-"

  datatype Triple = Triple(adapter: int, domain: int, index: int)

  predicate IsDigit(c: char) {
    '0' <= c <= '9'
  }

  function DigitValue(c: char): int {
    c as int - '0' as int
  }

  function Digit(n: nat): (c: char)
    requires n < 10
    ensures IsDigit(c) && DigitValue(c) == n
  {
    ('0' as int + n) as char
  }

  /** The verb %d for a non-negative number: its decimal digits without leading zeros. */
  function FormatNat(n: nat): string {
    if n < 10 then [Digit(n)] else FormatNat(n / 10) + [Digit(n % 10)]
  }

  /** The verb %d. */
  function FormatInt(i: int): string {
    if i < 0 then ['-'] + FormatNat(-i) else FormatNat(i)
  }

  /** Printing a device id. */
  function DeviceId(adapter: int, domain: int, index: int): string {
    PREFIX + FormatInt(adapter) + "-" + FormatInt(domain) + "-" + FormatInt(index)
  }

  /** The number of digits a string starts with. */
  function DigitRun(s: string): (n: nat)
    ensures n <= |s|
  {
    if s != "" && IsDigit(s[0]) then 1 + DigitRun(s[1..]) else 0
  }

  /** The number a string of digits denotes. */
  function DigitsValue(s: string): int {
    if s == "" then 0 else 10 * DigitsValue(s[..|s| - 1]) + DigitValue(s[|s| - 1])
  }

  /** White space in front of a number; a newline is an error to the scanner and so not blank. */
  predicate IsBlank(c: char) {
    var n := c as int;
    n == 9 || 11 <= n <= 13 || n == 32 || n == 0x85 || n == 0xA0
  }

  datatype Scanned = NoNumber | Number(value: int, rest: string)

  function ScanNat(s: string): Scanned {
    var n := DigitRun(s);
    if n == 0 then NoNumber else Number(DigitsValue(s[..n]), s[n..])
  }

  function ScanSigned(s: string): Scanned {
    if s != "" && s[0] == '-' then
      match ScanNat(s[1..])
      case NoNumber => NoNumber
      case Number(v, rest) => Number(-v, rest)
    else if s != "" && s[0] == '+' then
      ScanNat(s[1..])
    else
      ScanNat(s)
  }

  /** Scanning one %d: blanks in front of the number are skipped. */
  function ScanInt(s: string): Scanned {
    if s != "" && IsBlank(s[0]) then ScanInt(s[1..]) else ScanSigned(s)
  }

  /** Scanning n numbers with dashes in between. */
  function ScanNumbers(s: string, n: nat): (r: Option<seq<int>>)
    ensures r.Some? ==> |r.value| == n
    decreases n
  {
    if n == 0 then Some([])
    else
      match ScanInt(s)
      case NoNumber => None
      case Number(v, rest) =>
        if n == 1 then Some([v])
        else if rest == "" || rest[0] != '-' then None
        else
          var more := ScanNumbers(rest[1..], n - 1);
          if more.None? then None else Some([v] + more.value)
  }

  /** The three numbers of a device id, whatever their size. */
  function ScanTriple(id: string): Option<Triple> {
    if !(PREFIX <= id) then None
    else
      var ns := ScanNumbers(id[|PREFIX|..], 3);
      if ns.None? then None else Some(Triple(ns.value[0], ns.value[1], ns.value[2]))
  }

  predicate IsInt64(i: int) {
    -0x8000_0000_0000_0000 <= i < 0x8000_0000_0000_0000
  }

  /** Scanning a device id; a number that does not fit the machine's integer is an error. */
  function Scan(id: string): Option<Triple> {
    var t := ScanTriple(id);
    if t.Some? && IsInt64(t.value.adapter) && IsInt64(t.value.domain) && IsInt64(t.value.index)
    then t else None
  }

  predicate AllDigits(s: string) {
    forall k :: 0 <= k < |s| ==> IsDigit(s[k])
  }

  lemma {:induction false} FormatNatIsDigits(n: nat)
    ensures |FormatNat(n)| > 0 && AllDigits(FormatNat(n))
  {
    if n < 10 {
    } else {
      FormatNatIsDigits(n / 10);
    }
  }

  lemma {:induction false} DigitsOfFormatNat(n: nat)
    ensures DigitsValue(FormatNat(n)) == n
  {
    var s := FormatNat(n);
    if n < 10 {
      assert s[..|s| - 1] == "";
    } else {
      DigitsOfFormatNat(n / 10);
      assert s[..|s| - 1] == FormatNat(n / 10);
    }
  }

  lemma {:induction false} DigitRunStops(s: string, rest: string)
    requires AllDigits(s)
    requires rest == "" || !IsDigit(rest[0])
    ensures DigitRun(s + rest) == |s|
  {
    if s == "" {
      assert s + rest == rest;
    } else {
      assert (s + rest)[1..] == s[1..] + rest;
      DigitRunStops(s[1..], rest);
    }
  }

  /** A printed natural number is scanned back, up to the next character that is no digit. */
  lemma ScanFormatNat(n: nat, rest: string)
    requires rest == "" || !IsDigit(rest[0])
    ensures ScanNat(FormatNat(n) + rest) == Number(n, rest)
  {
    var s := FormatNat(n);
    FormatNatIsDigits(n);
    DigitRunStops(s, rest);
    DigitsOfFormatNat(n);
    assert (s + rest)[..|s|] == s && (s + rest)[|s|..] == rest;
  }

  lemma ScanMinus(t: string)
    ensures ScanSigned(['-'] + t) ==
            match ScanNat(t)
            case NoNumber => NoNumber
            case Number(v, rest) => Number(-v, rest)
  {
    assert (['-'] + t)[1..] == t;
  }

  lemma ScanDigits(t: string)
    requires t != "" && IsDigit(t[0])
    ensures ScanSigned(t) == ScanNat(t)
  {
  }

  lemma PrependToConcat(c: char, s: string, rest: string)
    ensures [c] + s + rest == [c] + (s + rest)
  {
  }

  lemma ScanSignedFormatInt(i: int, rest: string)
    requires rest == "" || !IsDigit(rest[0])
    ensures ScanSigned(FormatInt(i) + rest) == Number(i, rest)
  {
    var n := if i < 0 then -i else i;
    var s := FormatNat(n);
    ScanFormatNat(n, rest);
    if i < 0 {
      PrependToConcat('-', s, rest);
      ScanMinus(s + rest);
    } else {
      FormatNatIsDigits(n);
      assert (s + rest)[0] == s[0];
      ScanDigits(s + rest);
    }
  }

  lemma ScanFormatInt(i: int, rest: string)
    requires rest == "" || !IsDigit(rest[0])
    ensures ScanInt(FormatInt(i) + rest) == Number(i, rest)
  {
    ScanSignedFormatInt(i, rest);
    FormatNatIsDigits(if i < 0 then -i else i);
    var c := (FormatInt(i) + rest)[0];
    assert c == '-' || IsDigit(c);
    assert !IsBlank(c);
  }

  /** The numbers behind the prefix of a printed id. */
  function Dashed(ns: seq<int>): string
    requires ns != []
  {
    if |ns| == 1 then FormatInt(ns[0]) else FormatInt(ns[0]) + ("-" + Dashed(ns[1..]))
  }

  lemma ScanFirst(n: int, rest: string, count: nat)
    requires count > 1
    ensures ScanNumbers(FormatInt(n) + ("-" + rest), count) ==
            match ScanNumbers(rest, count - 1)
            case None => None
            case Some(more) => Some([n] + more)
  {
    ScanFormatInt(n, "-" + rest);
    assert ("-" + rest)[1..] == rest;
  }

  lemma ScanLast(n: int)
    ensures ScanNumbers(FormatInt(n), 1) == Some([n])
  {
    ScanFormatInt(n, "");
    assert FormatInt(n) + "" == FormatInt(n);
  }

  lemma ScanDashedStep(n: int, ns: seq<int>)
    requires ns != [] && ScanNumbers(Dashed(ns), |ns|) == Some(ns)
    ensures ScanNumbers(Dashed([n] + ns), |ns| + 1) == Some([n] + ns)
  {
    ScanFirst(n, Dashed(ns), |ns| + 1);
    assert ([n] + ns)[1..] == ns;
  }

  lemma {:induction false} ScanDashed(ns: seq<int>)
    requires ns != []
    ensures ScanNumbers(Dashed(ns), |ns|) == Some(ns)
  {
    if |ns| == 1 {
      ScanLast(ns[0]);
      assert [ns[0]] == ns;
    } else {
      ScanDashed(ns[1..]);
      ScanDashedStep(ns[0], ns[1..]);
      assert [ns[0]] + ns[1..] == ns;
    }
  }

  lemma Regroup(p: string, a: string, b: string, c: string)
    ensures p + a + "-" + b + "-" + c == p + (a + ("-" + (b + ("-" + c))))
  {
  }

  lemma DeviceIdIsDashed(adapter: int, domain: int, index: int)
    ensures DeviceId(adapter, domain, index) == PREFIX + Dashed([adapter, domain, index])
  {
    Regroup(PREFIX, FormatInt(adapter), FormatInt(domain), FormatInt(index));
    assert [adapter, domain, index][1..] == [domain, index];
    assert [domain, index][1..] == [index];
    assert Dashed([index]) == FormatInt(index);
  }

  /** Print then scan, for all integers. */
  lemma ScanTripleOfDeviceId(adapter: int, domain: int, index: int)
    ensures ScanTriple(DeviceId(adapter, domain, index)) == Some(Triple(adapter, domain, index))
  {
    var ns := [adapter, domain, index];
    DeviceIdIsDashed(adapter, domain, index);
    ScanDashed(ns);
    assert (PREFIX + Dashed(ns))[|PREFIX|..] == Dashed(ns);
  }

  /** Scanning a printed id gives back its three numbers exactly when they fit the machine's integer. */
  lemma RoundTrip(adapter: int, domain: int, index: int)
    ensures Scan(DeviceId(adapter, domain, index)) ==
            if IsInt64(adapter) && IsInt64(domain) && IsInt64(index)
            then Some(Triple(adapter, domain, index)) else None
  {
    ScanTripleOfDeviceId(adapter, domain, index);
  }

  /** Different triples have different ids. */
  lemma DeviceIdInjective(a: int, d: int, i: int, a': int, d': int, i': int)
    requires DeviceId(a, d, i) == DeviceId(a', d', i')
    ensures a == a' && d == d' && i == i'
  {
    ScanTripleOfDeviceId(a, d, i);
    ScanTripleOfDeviceId(a', d', i');
  }

  /** What an id looks like. */
  lemma DeviceIdLooks()
    ensures DeviceId(3, 17, 0) == "apqn-3-17-0"
  {
    assert FormatNat(17) == FormatNat(1) + [Digit(7)];
    assert FormatInt(3) == "3" && FormatInt(17) == "17" && FormatInt(0) == "0";
  }
}
