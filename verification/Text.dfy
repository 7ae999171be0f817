/** The few string operations the import and export code relies on. */
module Text {
  import opened Common

  /** White space as trimming understands it. */
  predicate IsSpace(c: char) {
    || c == '\t' || c == '\n' || c == '\U{0B}' || c == '\U{0C}' || c == '\r' || c == ' '
    || c == '\U{85}' || c == '\U{A0}' || c == '\U{1680}' || '\U{2000}' <= c <= '\U{200A}'
    || c == '\U{2028}' || c == '\U{2029}' || c == '\U{202F}' || c == '\U{205F}' || c == '\U{3000}'
  }

  /** The characters Unicode calls white space. */
  const WHITE_SPACE :=
    "\t\n\U{0B}\U{0C}\r \U{85}\U{A0}\U{1680}"
    + "\U{2000}\U{2001}\U{2002}\U{2003}\U{2004}\U{2005}\U{2006}\U{2007}\U{2008}\U{2009}\U{200A}"
    + "\U{2028}\U{2029}\U{202F}\U{205F}\U{3000}"

  lemma SpaceIsWhiteSpace(c: char)
    ensures IsSpace(c) <==> c in WHITE_SPACE
  {
  }

  function TrimLeft(s: string): string {
    if s != [] && IsSpace(s[0]) then TrimLeft(s[1..]) else s
  }

  function TrimRight(s: string): string {
    if s != [] && IsSpace(s[|s| - 1]) then TrimRight(s[..|s| - 1]) else s
  }

  function Trim(s: string): string {
    TrimRight(TrimLeft(s))
  }

  /** No white space at either end. */
  predicate Trimmed(s: string) {
    s != [] ==> !IsSpace(s[0]) && !IsSpace(s[|s| - 1])
  }

  lemma {:induction false} TrimLeftCut(s: string) returns (i: nat)
    ensures i <= |s| && TrimLeft(s) == s[i..]
    ensures forall k :: 0 <= k < i ==> IsSpace(s[k])
    ensures i < |s| ==> !IsSpace(s[i])
  {
    if s != [] && IsSpace(s[0]) {
      var j := TrimLeftCut(s[1..]);
      i := j + 1;
      assert s[1..][j..] == s[i..];
      assert forall k :: 1 <= k < i ==> s[k] == s[1..][k - 1];
    } else {
      i := 0;
    }
  }

  lemma {:induction false} TrimRightCut(s: string) returns (j: nat)
    ensures j <= |s| && TrimRight(s) == s[..j]
    ensures forall k :: j <= k < |s| ==> IsSpace(s[k])
    ensures j > 0 ==> !IsSpace(s[j - 1])
  {
    if s != [] && IsSpace(s[|s| - 1]) {
      j := TrimRightCut(s[..|s| - 1]);
      assert s[..|s| - 1][..j] == s[..j];
    } else {
      j := |s|;
      assert s[..j] == s;
    }
  }

  /** Trimming removes exactly the white space around the longest trimmed middle part. */
  lemma TrimCut(s: string) returns (i: nat, j: nat)
    ensures i <= j <= |s| && Trim(s) == s[i..j] && Trimmed(Trim(s))
    ensures forall k :: 0 <= k < i || j <= k < |s| ==> IsSpace(s[k])
  {
    i := TrimLeftCut(s);
    var left := s[i..];
    var n := TrimRightCut(left);
    j := i + n;
    assert left[..n] == s[i..j];
    assert forall k :: j <= k < |s| ==> s[k] == left[k - i];
  }

  /** Exactly the trimmed strings are left alone. */
  lemma TrimFixed(s: string)
    ensures Trim(s) == s <==> Trimmed(s)
    ensures |Trim(s)| <= |s| && Trimmed(Trim(s))
  {
    var i, j := TrimCut(s);
  }

  // ---------- lower case ----------

  function LowerChar(c: char): char {
    if 'A' <= c <= 'Z' then (c as int + 32) as char else c
  }

  function Lower(s: string): (r: string)
    ensures |r| == |s|
  {
    seq(|s|, i requires 0 <= i < |s| => LowerChar(s[i]))
  }

  const CAPITALS := "ABCDEFGHIJKLMNOPQRSTUVWXYZ"
  const SMALL := "abcdefghijklmnopqrstuvwxyz"

  /** Capital letters become small ones; everything else stays. */
  lemma LowerIsSmall(c: char, v: nat)
    requires v < 26
    ensures LowerChar(CAPITALS[v]) == SMALL[v]
    ensures c !in CAPITALS ==> LowerChar(c) == c
  {
    match v
    case 0 => case 1 => case 2 => case 3 => case 4 => case 5 => case 6 => case 7 => case 8 => case 9 => case 10 =>
    case 11 => case 12 => case 13 => case 14 => case 15 => case 16 => case 17 => case 18 => case 19 => case 20 =>
    case 21 => case 22 => case 23 => case 24 => case 25 =>
  }

  lemma LowerTrim(s: string)
    ensures Trim(Lower(s)) == Lower(Trim(s))
  {
    var i, j := TrimCut(s);
    var t := Lower(s);
    assert forall k :: 0 <= k < |s| ==> (IsSpace(t[k]) <==> IsSpace(s[k]));
    var m, n := TrimCut(t);
    assert Trimmed(s[i..j]);
    CutsAgree(t, i, j, m, n);
    assert t[i..j] == Lower(s[i..j]);
  }

  lemma CutsAgree(s: string, i: nat, j: nat, m: nat, n: nat)
    requires i <= j <= |s| && m <= n <= |s|
    requires i < j ==> !IsSpace(s[i]) && !IsSpace(s[j - 1])
    requires m < n ==> !IsSpace(s[m]) && !IsSpace(s[n - 1])
    requires forall k :: 0 <= k < i || j <= k < |s| ==> IsSpace(s[k])
    requires forall k :: 0 <= k < m || n <= k < |s| ==> IsSpace(s[k])
    ensures s[i..j] == s[m..n]
  {
    if i < j && m < n {
      assert i == m && j == n;
    }
  }

  // ---------- searching ----------

  predicate Has(s: string, c: char) {
    exists i :: 0 <= i < |s| && s[i] == c
  }

  /** The last position of a character, or -1. */
  function LastIndex(s: string, c: char): (r: int)
    ensures -1 <= r < |s|
    ensures r >= 0 ==> s[r] == c
    ensures forall i :: r < i < |s| ==> s[i] != c
  {
    if s == [] then -1
    else if s[|s| - 1] == c then |s| - 1
    else LastIndex(s[..|s| - 1], c)
  }

  // ---------- numbers ----------

  predicate IsDigit(c: char) {
    '0' <= c <= '9'
  }

  predicate AllDigits(s: string) {
    forall i :: 0 <= i < |s| ==> IsDigit(s[i])
  }

  function Digit(n: nat): (c: char)
    requires n < 10
    ensures IsDigit(c) && DigitValue(c) == n
  {
    ('0' as int + n) as char
  }

  function DigitValue(c: char): nat
    requires IsDigit(c)
  {
    c as int - '0' as int
  }

  function Natural(n: nat): (s: string)
    ensures s != [] && AllDigits(s)
  {
    if n < 10 then [Digit(n)] else Natural(n / 10) + [Digit(n % 10)]
  }

  function NaturalValue(s: string): nat
    requires AllDigits(s)
  {
    if s == [] then 0 else 10 * NaturalValue(s[..|s| - 1]) + DigitValue(s[|s| - 1])
  }

  lemma {:induction false} NaturalRoundTrip(n: nat)
    ensures NaturalValue(Natural(n)) == n
  {
    if n < 10 {
      assert Natural(n)[..0] == [];
    } else {
      NaturalRoundTrip(n / 10);
      assert Natural(n)[..|Natural(n)| - 1] == Natural(n / 10);
    }
  }

  function Itoa(n: int): string {
    if n < 0 then "-" + Natural(-n) else Natural(n)
  }

  /** An optional sign and at least one digit. */
  function Atoi(s: string): Option<int> {
    if s == [] then None
    else
      var digits := if s[0] == '+' || s[0] == '-' then s[1..] else s;
      if digits == [] || !AllDigits(digits) then None
      else
        var value: int := NaturalValue(digits);
        Some(if s[0] == '-' then -value else value)
  }

  /** Numbers are an optional sign and digits. */
  lemma NumbersAreRead(s: string)
    ensures Atoi(s).Some? <==>
              var digits := if s != "" && (s[0] == '+' || s[0] == '-') then s[1..] else s;
              digits != "" && forall i :: 0 <= i < |digits| ==> '0' <= digits[i] <= '9'
  {
  }

  /** A plus sign and leading zeros do not count, a minus sign does. */
  lemma SignsAndZeros(s: string)
    requires s != "" && AllDigits(s)
    ensures Atoi("+" + s) == Atoi(s) && Atoi("0" + s) == Atoi(s) && Atoi(s).Some? && Atoi("-" + s) == Some(-Atoi(s).value)
  {
    assert ("+" + s)[1..] == s && ("-" + s)[1..] == s;
    assert IsDigit(s[0]);
    ZeroInFront(s);
  }

  lemma {:induction false} ZeroInFront(s: string)
    requires AllDigits(s)
    ensures AllDigits("0" + s) && NaturalValue("0" + s) == NaturalValue(s)
  {
    if s != "" {
      assert ("0" + s)[..|s|] == "0" + s[..|s| - 1];
      ZeroInFront(s[..|s| - 1]);
    }
  }

  lemma DigitIsWritten(n: nat)
    requires n < 10
    ensures Digit(n) == "0123456789"[n] && Itoa(n) == ["0123456789"[n]]
  {
    match n
    case 0 => case 1 => case 2 => case 3 => case 4 => case 5 => case 6 => case 7 => case 8 => case 9 =>
  }

  lemma DigitsAreNotSpace(s: string)
    requires s != "" && AllDigits(s)
    ensures Trimmed(s) && IsDigit(s[|s| - 1]) && s[0] != '-' && s[0] != '+'
  {
    assert IsDigit(s[0]) && IsDigit(s[|s| - 1]);
  }

  lemma ItoaRoundTrip(n: int)
    ensures Atoi(Itoa(n)) == Some(n)
    ensures Itoa(n) != [] && Trimmed(Itoa(n)) && IsDigit(Itoa(n)[|Itoa(n)| - 1])
  {
    var digits := Natural(if n < 0 then -n else n);
    NaturalRoundTrip(if n < 0 then -n else n);
    DigitsAreNotSpace(digits);
    if n < 0 {
      assert Itoa(n)[1..] == digits;
    }
  }
}
