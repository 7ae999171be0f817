/**
 * The lenient reader of base64 mail bodies (pkg/mailer/imapx/base64.go), for the alphabet of section 4 of
 * RFC 4648 and the 76-column folding of section 6.8 of RFC 2045. Text is one character per byte.
 */
module LenientBase64 {
  import opened Common

  type Byte = b: nat | b < 256

  const MAX_ATTACHMENT_BYTES: nat := 26214400

  // ---------- the alphabet ----------

  predicate InAlphabet(c: char) {
    'A' <= c <= 'Z' || 'a' <= c <= 'z' || '0' <= c <= '9' || c == '+' || c == '/'
  }

  /** The six bits of a letter (only letters of the alphabet are ever decoded). */
  function Value(c: char): (v: nat)
    ensures v < 64
  {
    if 'A' <= c <= 'Z' then c as int - 'A' as int
    else if 'a' <= c <= 'z' then c as int - 'a' as int + 26
    else if '0' <= c <= '9' then c as int - '0' as int + 52
    else if c == '+' then 62
    else 63
  }

  function Letter(v: nat): (c: char)
    requires v < 64
    ensures InAlphabet(c) && Value(c) == v
  {
    if v < 26 then ('A' as int + v) as char
    else if v < 52 then ('a' as int + (v - 26)) as char
    else if v < 62 then ('0' as int + (v - 52)) as char
    else if v == 62 then '+'
    else '/'
  }

  predicate AllAlphabet(s: string) {
    forall i :: 0 <= i < |s| ==> InAlphabet(s[i])
  }

  // ---------- encoding ----------

  /** The letters of the encoding, without padding. */
  function Letters(data: seq<Byte>): (s: string)
    ensures AllAlphabet(s)
  {
    if data == [] then ""
    else if |data| == 1 then [Letter(data[0] / 4), Letter(data[0] % 4 * 16)]
    else if |data| == 2 then
      [Letter(data[0] / 4), Letter(data[0] % 4 * 16 + data[1] / 16), Letter(data[1] % 16 * 4)]
    else
      [Letter(data[0] / 4), Letter(data[0] % 4 * 16 + data[1] / 16),
       Letter(data[1] % 16 * 4 + data[2] / 64), Letter(data[2] % 64)] + Letters(data[3..])
  }

  function Padding(n: nat): string {
    if n % 3 == 1 then "==" else if n % 3 == 2 then "=" else ""
  }

  function Encode(data: seq<Byte>): string {
    Letters(data) + Padding(|data|)
  }

  // ---------- the standard's alphabet, bits and padding ----------

  const UPPER := "ABCDEFGHIJKLMNOPQRSTUVWXYZ"
  const LOWER := "abcdefghijklmnopqrstuvwxyz"
  const OTHERS := "0123456789+/"
  const ALPHABET := UPPER + LOWER + OTHERS

  lemma UpperLetters(v: nat)
    requires v < 26
    ensures Letter(v) == UPPER[v] && Value(UPPER[v]) == v
  {
    match v
    case 0 => case 1 => case 2 => case 3 => case 4 => case 5 => case 6 => case 7 => case 8 => case 9 => case 10 => case 11 => case 12 =>
    case 13 => case 14 => case 15 => case 16 => case 17 => case 18 => case 19 => case 20 => case 21 => case 22 => case 23 => case 24 => case 25 =>
  }

  lemma LowerLetters(v: nat)
    requires v < 26
    ensures Letter(26 + v) == LOWER[v] && Value(LOWER[v]) == 26 + v
  {
    match v
    case 0 => case 1 => case 2 => case 3 => case 4 => case 5 => case 6 => case 7 => case 8 => case 9 => case 10 => case 11 => case 12 =>
    case 13 => case 14 => case 15 => case 16 => case 17 => case 18 => case 19 => case 20 => case 21 => case 22 => case 23 => case 24 => case 25 =>
  }

  lemma OtherLetters(v: nat)
    requires v < 12
    ensures Letter(52 + v) == OTHERS[v] && Value(OTHERS[v]) == 52 + v
  {
    match v
    case 0 => case 1 => case 2 => case 3 => case 4 => case 5 => case 6 => case 7 => case 8 => case 9 => case 10 => case 11 =>
  }

  /** Table 1 of RFC 4648. */
  lemma LetterIsTheStandards(v: nat)
    requires v < 64
    ensures |ALPHABET| == 64 && Letter(v) == ALPHABET[v] && Value(ALPHABET[v]) == v
  {
    if v < 26 {
      UpperLetters(v);
    } else if v < 52 {
      LowerLetters(v - 26);
    } else {
      OtherLetters(v - 52);
    }
  }

  lemma AlphabetIsTheStandards(c: char)
    ensures InAlphabet(c) <==> c in ALPHABET
  {
    if InAlphabet(c) {
      LetterIsTheStandards(Value(c));
      assert Letter(Value(c)) == c;
    } else if c in ALPHABET {
      var v :| 0 <= v < 64 && ALPHABET[v] == c;
      LetterIsTheStandards(v);
    }
  }

  /** Three bytes are four letters, both read as one number of 24 bits, highest first. */
  lemma GroupIsOneNumber(data: seq<Byte>)
    requires |data| == 3
    ensures |Letters(data)| == 4
    ensures var s := Letters(data);
            var a: int, b: int, c: int := data[0], data[1], data[2];
            a * 65536 + b * 256 + c
            == Value(s[0]) * 262144 + Value(s[1]) * 4096 + Value(s[2]) * 64 + Value(s[3])
  {
    assert data[3..] == [];
  }

  lemma PaddingFills(n: nat)
    ensures |Padding(n)| == (if n % 3 == 0 then 0 else 3 - n % 3)
    ensures n / 3 * 4 + (if n % 3 == 0 then 0 else n % 3 + 1) + |Padding(n)| == (n + 2) / 3 * 4
    ensures forall i :: 0 <= i < |Padding(n)| ==> Padding(n)[i] == '='
  {
  }

  /** Encodings are letters in groups of four, the last one filled with `=`. */
  lemma EncodingIsPadded(data: seq<Byte>)
    ensures |Encode(data)| == (|data| + 2) / 3 * 4
    ensures var pad := if |data| % 3 == 0 then 0 else 3 - |data| % 3;
            forall i :: 0 <= i < |Encode(data)| ==>
              if i < |Encode(data)| - pad then Encode(data)[i] in ALPHABET else Encode(data)[i] == '='
  {
    LettersCount(data);
    PaddingFills(|data|);
    var letters := Letters(data);
    forall i | 0 <= i < |letters| ensures Encode(data)[i] in ALPHABET {
      AlphabetIsTheStandards(letters[i]);
    }
  }

  lemma {:induction false} LettersCount(data: seq<Byte>)
    ensures |Letters(data)| == |data| / 3 * 4 + (if |data| % 3 == 0 then 0 else |data| % 3 + 1)
  {
    if |data| >= 3 {
      LettersCount(data[3..]);
    }
  }

  /** Some test vectors of section 10 of RFC 4648: f, fo and foo. */
  lemma OneByteVector()
    ensures Encode([102]) == "Zg=="
  {
    assert Letters([102]) == [Letter(25), Letter(32)];
  }

  lemma TwoByteVector()
    ensures Encode([102, 111]) == "Zm8="
  {
    assert Letters([102, 111]) == [Letter(25), Letter(38), Letter(60)];
  }

  lemma ThreeByteVector()
    ensures Encode([102, 111, 111]) == "Zm9v"
  {
    assert [102 as Byte, 111, 111][3..] == [];
    assert Letters([102, 111, 111]) == [Letter(25), Letter(38), Letter(61), Letter(47)];
  }

  // ---------- strict decoding, as the standard decoder without padding does it ----------

  /** Whole groups of four, then two or three letters more; left-over bits are ignored. */
  function Bytes(s: string): seq<Byte> {
    if |s| < 2 then []
    else
      var v, w := Value(s[0]), Value(s[1]);
      var first := v * 4 + w / 16;
      if |s| == 2 then [first]
      else
        var x := Value(s[2]);
        var second := w % 16 * 16 + x / 4;
        if |s| == 3 then [first, second]
        else [first, second, x % 4 * 64 + Value(s[3])] + Bytes(s[4..])
  }

  /** How many letters of the alphabet come before anything else. */
  function Good(s: string): (n: nat)
    ensures n <= |s|
    ensures forall i :: 0 <= i < n ==> InAlphabet(s[i])
    ensures n < |s| ==> !InAlphabet(s[n])
  {
    if s == "" || !InAlphabet(s[0]) then 0 else 1 + Good(s[1..])
  }

  /** Fails at the first byte outside the alphabet, or at a letter that cannot stand alone. */
  function Decode(s: string): (r: Result<seq<Byte>, nat>)
    ensures r.Err? ==> r.error < |s|
  {
    if Good(s) < |s| then Err(Good(s))
    else if |s| % 4 == 1 then Err(|s| - 1)
    else Ok(Bytes(s))
  }

  // ---------- what the lenient reader yields ----------

  /** A single left-over letter is not counted. */
  function Whole(n: nat): nat {
    if n % 4 == 1 then n - 1 else n
  }

  /** The decoding of the leading letters, less one that stands alone. */
  function Salvage(s: string): seq<Byte> {
    Bytes(s[..Whole(Good(s))])
  }

  predicate IsBlank(c: char) {
    c == '\r' || c == '\n' || c == ' ' || c == '\t'
  }

  function Squeeze(s: string): string {
    if s == "" then ""
    else Squeeze(s[..|s| - 1]) + if IsBlank(s[|s| - 1]) then "" else [s[|s| - 1]]
  }

  /** Squeezing drops exactly carriage returns, line feeds, spaces and tabs. */
  lemma {:induction false} SqueezeDropsBlanks(s: string)
    ensures forall c :: c in Squeeze(s) <==> c in s && c != '\r' && c != '\n' && c != ' ' && c != '\t'
    ensures (forall c :: c in s ==> c != '\r' && c != '\n' && c != ' ' && c != '\t') ==> Squeeze(s) == s
  {
    if s != "" {
      var init, last := s[..|s| - 1], s[|s| - 1];
      SqueezeDropsBlanks(init);
      assert s == init + [last];
      assert last in s && forall c :: c in init ==> c in s;
      assert forall c :: c in s ==> c in init || c == last;
    }
  }

  function TrimPadding(s: string): (r: string)
    ensures r <= s
    ensures forall i :: |r| <= i < |s| ==> s[i] == '='
  {
    if s != "" && s[|s| - 1] == '=' then TrimPadding(s[..|s| - 1]) else s
  }

  function Head(s: string, n: nat): string {
    if n < |s| then s[..n] else s
  }

  lemma GoodIs(s: string, n: nat)
    requires n <= |s| && (forall i :: 0 <= i < n ==> InAlphabet(s[i]))
    requires n < |s| ==> !InAlphabet(s[n])
    ensures Good(s) == n
  {
  }

  lemma GoodOfPrefix(s: string, n: nat)
    requires n <= |s|
    ensures Good(s[..n]) == if n < Good(s) then n else Good(s)
  {
    GoodIs(s[..n], if n < Good(s) then n else Good(s));
  }

  lemma WholeOfCut(g: nat, n: nat, len: nat)
    requires g <= len && n <= len && (g <= n || (n == len - 1 && len % 4 == 1))
    ensures Whole(if n < g then n else g) == Whole(g) <= n
  {
  }

  /** Cutting a stray last byte, padding, or everything from the first bad byte on loses nothing. */
  lemma CutKeepsSalvage(s: string, n: nat)
    requires n <= |s| && (Good(s) <= n || (n == |s| - 1 && |s| % 4 == 1))
    ensures Salvage(s[..n]) == Salvage(s)
  {
    var g, t := Good(s), s[..n];
    GoodOfPrefix(s, n);
    WholeOfCut(g, n, |s|);
    var m := Whole(g);
    assert t[..m] == s[..m];
    assert Salvage(t) == Bytes(t[..m]);
  }

  lemma PaddingDoesNotMatter(s: string)
    ensures Salvage(TrimPadding(s)) == Salvage(s)
  {
    var t := TrimPadding(s);
    assert |t| < |s| ==> s[|t|] == '=';
    assert t == s[..|t|];
    CutKeepsSalvage(s, |t|);
  }

  lemma AcceptedIsSalvaged(s: string)
    requires Decode(s).Ok?
    ensures Decode(s).value == Salvage(s)
  {
    assert s[..|s|] == s;
  }

  /** The reader: squeeze out blanks, trim padding, then shrink until the strict decoder accepts. */
  method Read(input: string) returns (out: seq<Byte>)
    ensures out == Salvage(Squeeze(Head(input, 25 * 1024 * 1024)))
  {
    var raw := Head(input, MAX_ATTACHMENT_BYTES);
    var cleaned := "";
    for i := 0 to |raw|
      invariant cleaned == Squeeze(raw[..i])
    {
      assert raw[..i + 1][..i] == raw[..i];
      if !IsBlank(raw[i]) {
        cleaned := cleaned + [raw[i]];
      }
    }
    assert raw[..|raw|] == raw;
    var trimmed := TrimPadding(cleaned);
    PaddingDoesNotMatter(cleaned);
    while |trimmed| > 0
      invariant Salvage(trimmed) == Salvage(cleaned)
      decreases |trimmed|
    {
      if |trimmed| % 4 == 1 {
        CutKeepsSalvage(trimmed, |trimmed| - 1);
        trimmed := trimmed[..|trimmed| - 1];
        continue;
      }
      var decoded := Decode(trimmed);
      if decoded.Ok? {
        AcceptedIsSalvaged(trimmed);
        return decoded.value;
      }
      CutKeepsSalvage(trimmed, decoded.error);
      trimmed := trimmed[..decoded.error];
    }
    return [];
  }

  // ---------- round trips ----------

  lemma GroupRoundTrip(a: Byte, b: Byte, c: Byte)
    ensures a / 4 * 4 + (a % 4 * 16 + b / 16) / 16 == a
    ensures (a % 4 * 16 + b / 16) % 16 * 16 + (b % 16 * 4 + c / 64) / 4 == b
    ensures (b % 16 * 4 + c / 64) % 4 * 64 + c % 64 == c
    ensures a / 4 < 64 && a % 4 * 16 + b / 16 < 64 && b % 16 * 4 + c / 64 < 64
  {
  }

  lemma SmallGroup(data: seq<Byte>, n: nat)
    requires n <= |Letters(data)| && n % 4 != 1 && (|data| < 3 || n < 4)
    ensures Bytes(Letters(data)[..n]) <= data
    ensures n == |Letters(data)| ==> Bytes(Letters(data)[..n]) == data
  {
    if |data| > 0 && n > 0 {
      GroupRoundTrip(data[0], if |data| > 1 then data[1] else 0, if |data| > 2 then data[2] else 0);
    }
  }

  lemma GroupOfLetters(data: seq<Byte>)
    requires |data| >= 3
    ensures var s := Letters(data);
            && |s| == 4 + |Letters(data[3..])| && s[4..] == Letters(data[3..])
            && Value(s[0]) == data[0] / 4 && Value(s[1]) == data[0] % 4 * 16 + data[1] / 16
            && Value(s[2]) == data[1] % 16 * 4 + data[2] / 64 && Value(s[3]) == data[2] % 64
  {
  }

  lemma FourLetters(s: string, a: Byte, b: Byte, c: Byte)
    requires |s| >= 4 && Value(s[0]) == a / 4 && Value(s[1]) == a % 4 * 16 + b / 16
    requires Value(s[2]) == b % 16 * 4 + c / 64 && Value(s[3]) == c % 64
    ensures Bytes(s) == [a, b, c] + Bytes(s[4..])
  {
    GroupRoundTrip(a, b, c);
  }

  /** A whole group decodes on its own. */
  lemma FirstGroup(data: seq<Byte>, n: nat)
    requires |data| >= 3 && 4 <= n <= |Letters(data)|
    ensures |Letters(data)| == 4 + |Letters(data[3..])|
    ensures Bytes(Letters(data)[..n]) == data[..3] + Bytes(Letters(data[3..])[..n - 4])
  {
    GroupOfLetters(data);
    FourLetters(Letters(data)[..n], data[0], data[1], data[2]);
    assert Letters(data)[..n][4..] == Letters(data)[4..][..n - 4];
    assert data[..3] == [data[0], data[1], data[2]];
  }

  lemma PrefixAfter(data: seq<Byte>, rest: seq<Byte>)
    requires |data| >= 3 && rest <= data[3..]
    ensures data[..3] + rest <= data
    ensures rest == data[3..] ==> data[..3] + rest == data
  {
  }

  lemma FourFewer(n: nat)
    requires n >= 4
    ensures (n - 4) % 4 == n % 4
  {
  }

  /** Letters cut anywhere decode to a prefix of the data, all of them to all of it. */
  lemma {:induction false} CutLettersDecode(data: seq<Byte>, n: nat)
    requires n <= |Letters(data)| && n % 4 != 1
    ensures Bytes(Letters(data)[..n]) <= data
    ensures n == |Letters(data)| ==> Bytes(Letters(data)[..n]) == data
  {
    if |data| < 3 || n < 4 {
      SmallGroup(data, n);
    } else {
      FirstGroup(data, n);
      FourFewer(n);
      CutLettersDecode(data[3..], n - 4);
      PrefixAfter(data, Bytes(Letters(data[3..])[..n - 4]));
    }
  }

  lemma {:induction false} LettersLength(data: seq<Byte>)
    ensures |Letters(data)| % 4 != 1
  {
    if |data| >= 3 {
      LettersLength(data[3..]);
      GroupOfLetters(data);
      FourFewer(|Letters(data)|);
    }
  }

  /** Whatever of an encoding is left, what is salvaged is a prefix of the data; nothing missing, all of it. */
  lemma SalvageOfEncoding(data: seq<Byte>, n: nat)
    requires n <= |Encode(data)|
    ensures Salvage(Encode(data)[..n]) <= data
    ensures n == |Encode(data)| ==> Salvage(Encode(data)[..n]) == data
  {
    var text, letters := Encode(data), Letters(data);
    assert |letters| < |text| ==> text[|letters|] == '=';
    GoodIs(text, |letters|);
    GoodOfPrefix(text, n);
    LettersLength(data);
    var m := Whole(Good(text[..n]));
    assert text[..n][..m] == letters[..m];
    CutLettersDecode(data, m);
  }

  // ---------- folding ----------

  lemma {:induction false} SqueezeConcat(a: string, b: string)
    ensures Squeeze(a + b) == Squeeze(a) + Squeeze(b)
  {
    if b == "" {
      assert a + b == a;
    } else {
      assert (a + b)[..|a + b| - 1] == a + b[..|b| - 1];
      SqueezeConcat(a, b[..|b| - 1]);
    }
  }

  /** Text in lines of at most `width` characters, each line ended by CR LF. */
  function Fold(s: string, width: nat): string
    requires width > 0
  {
    if |s| <= width then s else s[..width] + "\r\n" + Fold(s[width..], width)
  }

  lemma {:induction false} SqueezeFold(s: string, width: nat)
    requires width > 0
    ensures Squeeze(Fold(s, width)) == Squeeze(s)
  {
    if |s| > width {
      SqueezeFold(s[width..], width);
      SqueezeConcat(s[..width], "\r\n");
      SqueezeConcat(s[..width] + "\r\n", Fold(s[width..], width));
      SqueezeConcat(s[..width], s[width..]);
      assert s[..width] + s[width..] == s;
      assert Squeeze("\r\n") == "" by {
        assert "\r\n"[..1] == "\r" && "\r"[..0] == "";
      }
    }
  }

  lemma {:induction false} SqueezeOfText(s: string)
    requires forall i :: 0 <= i < |s| ==> !IsBlank(s[i])
    ensures Squeeze(s) == s
  {
    if s == "" {
    } else {
      SqueezeOfText(s[..|s| - 1]);
    }
  }

  /** Cutting folded text cuts the text in it. */
  lemma SqueezeOfCut(s: string, width: nat, n: nat)
    requires width > 0 && n <= |Fold(s, width)| && forall i :: 0 <= i < |s| ==> !IsBlank(s[i])
    ensures Squeeze(Fold(s, width)[..n]) <= s
    ensures n == |Fold(s, width)| ==> Squeeze(Fold(s, width)[..n]) == s
  {
    var text := Fold(s, width);
    SqueezeFold(s, width);
    SqueezeOfText(s);
    assert text[..n] + text[n..] == text;
    SqueezeConcat(text[..n], text[n..]);
    assert n == |text| ==> text[..n] == text;
  }

  /**
   * The reader undoes folded encoding: of any bytes encoded, folded, cut at any point and limited in
   * size it yields a prefix, and uncut and within the limit exactly those bytes.
   */
  lemma ReaderUndoesEncoding(data: seq<Byte>, width: nat, cut: nat)
    requires width > 0 && cut <= |Fold(Encode(data), width)|
    ensures var text := Fold(Encode(data), width);
            var out := Salvage(Squeeze(Head(text[..cut], 25 * 1024 * 1024)));
            out <= data && (cut == |text| <= 25 * 1024 * 1024 ==> out == data)
  {
    var text := Fold(Encode(data), width);
    var n := if cut < MAX_ATTACHMENT_BYTES then cut else MAX_ATTACHMENT_BYTES;
    assert Head(text[..cut], MAX_ATTACHMENT_BYTES) == text[..n];
    SqueezeOfCut(Encode(data), width, n);
    var left := Squeeze(text[..n]);
    assert left == Encode(data)[..|left|];
    SalvageOfEncoding(data, |left|);
  }
}
