/** The string handling that the scanner's code relies on: digits, fields, and host:port targets. */
module Text {
  import opened Common

  // ---- Decimal numbers ----

  function Digit(d: nat): char
    requires d < 10
  {
    '0' + d as char
  }

  predicate IsDigit(c: char) {
    '0' <= c <= '9'
  }

  function DigitValue(c: char): nat
    requires IsDigit(c)
  {
    (c - '0') as nat
  }

  /** The decimal digits of a number. */
  function Decimal(n: nat): (r: string)
    ensures r != [] && forall i | 0 <= i < |r| :: IsDigit(r[i])
  {
    if n < 10 then [Digit(n)] else Decimal(n / 10) + [Digit(n % 10)]
  }

  /** The value of a string of digits. */
  function Value(s: string): nat
    requires forall i | 0 <= i < |s| :: IsDigit(s[i])
  {
    if s == [] then 0 else 10 * Value(s[..|s| - 1]) + DigitValue(s[|s| - 1])
  }

  lemma {:induction false} ValueOfDecimal(n: nat)
    ensures Value(Decimal(n)) == n
  {
    if n >= 10 {
      ValueOfDecimal(n / 10);
      var r := Decimal(n);
      assert r[..|r| - 1] == Decimal(n / 10);
    }
  }

  function Pow10(n: nat): nat {
    if n == 0 then 1 else 10 * Pow10(n - 1)
  }

  lemma {:induction false} DecimalLength(n: nat, k: nat)
    requires n < Pow10(k) && k > 0
    ensures |Decimal(n)| <= k
  {
    if n >= 10 && k > 1 {
      DecimalLength(n / 10, k - 1);
    }
  }

  /** Fills a buffer of 20 bytes from the right; a negative number gives the empty string. */
  method Itoa(n: int) returns (s: string)
    requires n < 0x8000_0000_0000_0000
    ensures s == if n >= 0 then Decimal(n) else ""
  {
    if n == 0 {
      return "0";
    }
    var buf := new char[20](_ => '0');
    var i := buf.Length;
    var rest := n;
    if n > 0 {
      assert 0x8000_0000_0000_0000 <= Pow10(19) by {
        assert Pow10(10) == 1_00000_00000;
        assert Pow10(19) == 1_000_000_000 * Pow10(10);
      }
      DecimalLength(n, 19);
    }
    while rest > 0
      invariant 0 <= i <= buf.Length == 20
      invariant n > 0 ==> 0 <= rest && Decimal(n) == (if rest > 0 then Decimal(rest) else "") + buf[i..]
      invariant n < 0 ==> i == buf.Length && rest == n
      decreases rest
    {
      assert i > 0 by {
        assert |Decimal(rest)| >= 1;
      }
      i := i - 1;
      ghost var tail := buf[i + 1..];
      buf[i] := '0' + (rest % 10) as char;
      assert buf[i..] == [Digit(rest % 10)] + tail;
      rest := rest / 10;
    }
    s := buf[i..];
  }

  /** `strconv.Atoi`: an optional sign and digits only, within an int64. */
  function Atoi(s: string): Option<int> {
    var d := if s != [] && (s[0] == '-' || s[0] == '+') then s[1..] else s;
    if d == [] || DigitRun(d) != d then None
    else if s[0] == '-' then Fitting(-(Value(DigitRun(d)) as int))
    else Fitting(Value(DigitRun(d)))
  }

  lemma AtoiOfDecimal(n: nat)
    requires n < 0x8000_0000_0000_0000
    ensures Atoi(Decimal(n)) == Some(n)
  {
    var d := Decimal(n);
    DigitRunAll(d);
    ValueOfDecimal(n);
    assert IsDigit(d[0]);
  }

  // ---- Fields of a line ----

  predicate IsSpace(c: char) {
    c == ' ' || '\t' <= c <= '\r'
  }

  /** The leading characters up to the first blank. */
  function Word(s: string): (r: string)
    ensures |r| <= |s|
  {
    if s == [] || IsSpace(s[0]) then [] else [s[0]] + Word(s[1..])
  }

  /** `strings.Fields`, for ASCII blanks. */
  function Fields(s: string): (r: seq<string>)
    ensures forall i | 0 <= i < |r| :: r[i] != []
  {
    if s == [] then []
    else if IsSpace(s[0]) then Fields(s[1..])
    else [Word(s)] + Fields(s[|Word(s)|..])
  }

  predicate IsWord(w: string) {
    w != [] && forall i | 0 <= i < |w| :: !IsSpace(w[i])
  }

  lemma {:induction false} WordPrefix(w: string, rest: string)
    requires (forall i | 0 <= i < |w| :: !IsSpace(w[i])) && (rest == [] || IsSpace(rest[0]))
    ensures Word(w + rest) == w
  {
    if w != [] {
      assert (w + rest)[1..] == w[1..] + rest;
      WordPrefix(w[1..], rest);
    } else {
      assert w + rest == rest;
    }
  }

  lemma FieldsCons(w: string, rest: string)
    requires IsWord(w)
    ensures Fields(w + " " + rest) == [w] + Fields(rest)
  {
    var s := w + " " + rest;
    assert s == w + (" " + rest);
    WordPrefix(w, " " + rest);
    assert s[|w|..] == " " + rest;
    assert (" " + rest)[1..] == rest;
  }

  lemma TwoFields(a: string, b: string, rest: string)
    requires IsWord(a) && IsWord(b)
    ensures Fields(a + " " + (b + " " + rest)) == [a, b] + Fields(rest)
  {
    FieldsCons(a, b + " " + rest);
    FieldsCons(b, rest);
  }

  lemma FourFields(a: string, b: string, c: string, d: string, rest: string)
    requires IsWord(a) && IsWord(b) && IsWord(c) && IsWord(d)
    ensures Fields(a + " " + (b + " " + (c + " " + (d + " " + rest)))) == [a, b, c, d] + Fields(rest)
  {
    var tail := c + " " + (d + " " + rest);
    TwoFields(a, b, tail);
    TwoFields(c, d, rest);
  }

  // ---- host:port ----

  /**
   `fmt.Sscanf(s, "%d", &port)` on what follows the last colon: leading blanks and a sign are taken,
   then the longest run of digits; no digits, or a number outside an int64, is an error.
   */
  function ScanInt(s: string): Option<int> {
    if s != [] && (s[0] == ' ' || s[0] == '\t') then ScanInt(s[1..])
    else if s != [] && (s[0] == '-' || s[0] == '+') then
      var d := DigitRun(s[1..]);
      if d == [] then None
      else if s[0] == '-' then Fitting(-(Value(d) as int)) else Fitting(Value(d))
    else
      var d := DigitRun(s);
      if d == [] then None else Fitting(Value(d))
  }

  function Fitting(n: int): Option<int> {
    if -0x8000_0000_0000_0000 <= n < 0x8000_0000_0000_0000 then Some(n) else None
  }

  function DigitRun(s: string): (r: string)
    ensures forall i | 0 <= i < |r| :: IsDigit(r[i])
  {
    if s == [] || !IsDigit(s[0]) then [] else [s[0]] + DigitRun(s[1..])
  }

  datatype Target = Target(ip: string, port: int)

  /** Everything before the last colon, and the number after it. */
  function TargetOf(s: string): Option<Target> {
    TargetFrom(s, |s|)
  }

  function TargetFrom(s: string, n: nat): Option<Target>
    requires n <= |s|
  {
    if n == 0 then None
    else if s[n - 1] == ':' then
      var port := ScanInt(s[n..]);
      if port.None? then None else Some(Target(s[..n - 1], port.value))
    else TargetFrom(s, n - 1)
  }

  method ParseTarget(s: string) returns (r: Option<Target>)
    ensures r == TargetOf(s)
  {
    var i := |s| - 1;
    while i >= 0
      invariant -1 <= i < |s|
      invariant TargetOf(s) == TargetFrom(s, i + 1)
    {
      if s[i] == ':' {
        var port := ScanInt(s[i + 1..]);
        if port.None? {
          return None;
        }
        return Some(Target(s[..i], port.value));
      }
      i := i - 1;
    }
    r := None;
  }

  function Joined(ip: string, port: nat): string {
    ip + ":" + Decimal(port)
  }

  lemma {:induction false} DigitRunAll(s: string)
    requires forall i | 0 <= i < |s| :: IsDigit(s[i])
    ensures DigitRun(s) == s
  {
    if s != [] {
      DigitRunAll(s[1..]);
    }
  }

  lemma {:induction false} TargetSkipsDigits(s: string, n: nat, m: nat)
    requires m <= n <= |s| && forall i | m <= i < n :: s[i] != ':'
    ensures TargetFrom(s, n) == TargetFrom(s, m)
    decreases n
  {
    if m < n {
      TargetSkipsDigits(s, n - 1, m);
    }
  }

  lemma ScanIntOfDecimal(n: nat)
    requires n < 0x8000_0000_0000_0000
    ensures ScanInt(Decimal(n)) == Some(n)
  {
    var d := Decimal(n);
    DigitRunAll(d);
    ValueOfDecimal(n);
    assert IsDigit(d[0]);
  }

  /** A target built from a host and a port is taken apart into the same host and port, colons in the host included. */
  lemma TargetRoundTrip(ip: string, port: nat)
    requires port < 0x8000_0000_0000_0000
    ensures TargetOf(Joined(ip, port)) == Some(Target(ip, port))
  {
    var s := Joined(ip, port);
    LastColon(ip, Decimal(port));
    assert s[|ip|] == ':' && s[|ip| + 1..] == Decimal(port) && s[..|ip|] == ip;
    ScanIntOfDecimal(port);
  }

  lemma LastColon(ip: string, d: string)
    requires forall i | 0 <= i < |d| :: IsDigit(d[i])
    ensures var s := ip + ":" + d; TargetOf(s) == TargetFrom(s, |ip| + 1)
  {
    var s := ip + ":" + d;
    assert forall i | |ip| < i < |s| :: s[i] == d[i - |ip| - 1];
    TargetSkipsDigits(s, |s|, |ip| + 1);
  }

  /** Different hosts or ports give different targets. */
  lemma JoinedInjective(ip: string, port: nat, ip': string, port': nat)
    requires port < 0x8000_0000_0000_0000 && port' < 0x8000_0000_0000_0000
    requires Joined(ip, port) == Joined(ip', port')
    ensures ip == ip' && port == port'
  {
    TargetRoundTrip(ip, port);
    TargetRoundTrip(ip', port');
  }
}
