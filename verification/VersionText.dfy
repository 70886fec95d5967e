/** How a version number travels: printed by the hub, scanned by the agent, narrowed to 32 bits in
    its request, and printed again. */
module VersionText {
  import opened HubTypes

  predicate IsDigit(c: char) {
    '0' <= c <= '9'
  }

  function DigitValue(c: char): nat
    requires IsDigit(c)
  {
    (c - '0') as nat
  }

  function DigitOf(d: nat): (c: char)
    requires d < 10
    ensures IsDigit(c) && DigitValue(c) == d
  {
    '0' + d as char
  }

  /** `%d` of a number that is not negative. */
  function Print(n: nat): string {
    if n < 10 then [DigitOf(n)] else Print(n / 10) + [DigitOf(n % 10)]
  }

  /** `%d` of any number. */
  function PrintInt(x: int): string {
    if x < 0 then "-" + Print(-x) else Print(x)
  }

  /** Length of the run of digits at the front. */
  function Digits(s: string): (n: nat)
    ensures n <= |s| && forall i :: 0 <= i < n ==> IsDigit(s[i])
    ensures n < |s| ==> !IsDigit(s[n])
  {
    if s == "" || !IsDigit(s[0]) then 0 else 1 + Digits(s[1..])
  }

  /** The number that a string of digits stands for. */
  function Value(s: string): nat
    requires forall i :: 0 <= i < |s| ==> IsDigit(s[i])
  {
    if s == "" then 0 else 10 * Value(s[..|s| - 1]) + DigitValue(s[|s| - 1])
  }

  /** What `Sscanf("%d")` stores over a zero: a sign and a run of digits are read, and zero stays when
      there are none or their value does not fit in 64 bits. */
  function Scan(s: string): (v: int)
    ensures MIN_INT <= v <= MAX_INT
  {
    var signed := s != "" && (s[0] == '-' || s[0] == '+');
    var rest := if signed then s[1..] else s;
    var magnitude: int := Value(rest[..Digits(rest)]);
    var v := if signed && s[0] == '-' then -magnitude else magnitude;
    if MIN_INT <= v <= MAX_INT then v else 0
  }

  lemma {:induction false} PrintedDigits(n: nat)
    ensures Print(n) != "" && forall i :: 0 <= i < |Print(n)| ==> IsDigit(Print(n)[i])
    ensures Value(Print(n)) == n
  {
    if n < 10 {
      assert Print(n)[..0] == "";
    } else {
      PrintedDigits(n / 10);
      assert Print(n)[..|Print(n)| - 1] == Print(n / 10);
    }
  }

  lemma {:induction false} AllDigits(s: string)
    requires forall i :: 0 <= i < |s| ==> IsDigit(s[i])
    ensures Digits(s) == |s|
  {
    if s != "" {
      AllDigits(s[1..]);
    }
  }

  /** Scanning a printed number gives it back, for every 64-bit number. */
  lemma ScanPrint(x: int)
    requires MIN_INT <= x <= MAX_INT
    ensures Scan(PrintInt(x)) == x
  {
    var magnitude := if x < 0 then -x else x;
    PrintedDigits(magnitude);
    AllDigits(Print(magnitude));
    var digits := Print(magnitude);
    assert digits[..|digits|] == digits;
    if x < 0 {
      assert PrintInt(x)[1..] == digits;
    } else {
      assert IsDigit(digits[0]);
    }
  }

  /** A printed number is its decimal digits, without leading zeros. */
  lemma {:induction false} PrintsDecimals(n: nat)
    ensures |Print(n)| >= 1 && (n > 0 ==> Print(n)[0] != '0')
    ensures Print(n)[|Print(n)| - 1] as int == '0' as int + n % 10
    ensures n >= 10 ==> Print(n)[..|Print(n)| - 1] == Print(n / 10)
  {
    if n >= 10 {
      PrintsDecimals(n / 10);
    }
  }

  /** Scanning reads the digits in front and leaves the rest; without a digit in front it reads nothing. */
  lemma ScanReadsPrefix(n: nat, rest: string)
    requires n <= MAX_INT && (rest != "" ==> !IsDigit(rest[0]))
    ensures Scan(Print(n) + rest) == n
    ensures (rest != "" ==> rest[0] != '-' && rest[0] != '+') ==> Scan(rest) == 0
  {
    PrintedDigits(n);
    DigitsThen(Print(n), rest);
    var text := Print(n) + rest;
    assert text[0] == Print(n)[0] && IsDigit(text[0]);
    assert text[..|Print(n)|] == Print(n);
    assert rest[..0] == "";
  }

  lemma {:induction false} DigitsThen(s: string, rest: string)
    requires forall i :: 0 <= i < |s| ==> IsDigit(s[i])
    requires rest != "" ==> !IsDigit(rest[0])
    ensures Digits(s + rest) == |s|
  {
    if s == "" {
      assert s + rest == rest;
    } else {
      assert (s + rest)[1..] == s[1..] + rest;
      DigitsThen(s[1..], rest);
    }
  }

  /** Different versions have different texts. */
  lemma PrintInjective(a: nat, b: nat)
    requires Print(a) == Print(b)
    ensures a == b
  {
    PrintedDigits(a);
    PrintedDigits(b);
  }

  /** The version that the hub looks up when an agent fetches the one it was told to deploy. */
  function Fetched(version: int): int {
    Int32(Scan(PrintInt(version)))
  }

  /** An agent fetches exactly the deployed version, and then calls it by the hub's name, for the
      versions that fit in 32 bits and no others. */
  lemma FetchedIffFits(version: nat)
    requires version <= MAX_INT
    ensures Fetched(version) == version <==> version <= 2147483647
    ensures PrintInt(Int32(version)) == PrintInt(version) <==> version <= 2147483647
  {
    ScanPrint(version);
    ScanPrint(Int32(version));
  }
}
