/**
 Certificate fingerprints: how the agent prints one, how the controller normalises what was
 typed, and which texts the web interface lets through. Texts are ASCII.
 */
module Fingerprint {
  import opened Wrappers

  type Byte = b: int | 0 <= b < 256

  predicate IsAscii(s: string) { forall i | 0 <= i < |s| :: s[i] as int < 128 }

  predicate IsUpper(c: char) { 'A' <= c <= 'Z' }

  predicate IsAlnum(c: char) { '0' <= c <= '9' || 'a' <= c <= 'z' || IsUpper(c) }

  predicate IsLowerHex(c: char) { '0' <= c <= '9' || 'a' <= c <= 'f' }

  predicate IsHex(c: char) { IsLowerHex(c) || 'A' <= c <= 'F' }

  /** What the interface removes: colons, white space and dashes. */
  predicate IsSeparator(c: char) { c == ':' || c == '-' || c == ' ' || 9 <= c as int <= 13 }

  function Keep(s: string, p: char -> bool): string {
    if s == [] then [] else (if p(s[0]) then [s[0]] else []) + Keep(s[1..], p)
  }

  function LowerChar(c: char): char { if IsUpper(c) then (c as int + 32) as char else c }

  function Lower(s: string): (r: string)
    ensures |r| == |s|
  {
    seq(|s|, i requires 0 <= i < |s| => LowerChar(s[i]))
  }

  ghost predicate AllAre(s: string, p: char -> bool) { forall i | 0 <= i < |s| :: p(s[i]) }

  // ---------- The three parties ----------

  function Digit(n: int, upper: bool): char
    requires 0 <= n < 16
  {
    if n < 10 then ('0' as int + n) as char else if upper then ('A' as int + n - 10) as char
      else ('a' as int + n - 10) as char
  }

  function Pair(b: Byte, upper: bool): string { [Digit(b / 16, upper), Digit(b % 16, upper)] }

  /** The lower-case hexadecimal digest that the controller compares with. */
  function HexDigest(digest: seq<Byte>): string {
    if digest == [] then [] else Pair(digest[0], false) + HexDigest(digest[1..])
  }

  /** Texts joined by colons. */
  function Join(parts: seq<string>): string {
    if |parts| == 0 then [] else if |parts| == 1 then parts[0] else parts[0] + ":" + Join(parts[1..])
  }

  function UpperPairs(digest: seq<Byte>): seq<string> {
    seq(|digest|, i requires 0 <= i < |digest| => Pair(digest[i], true))
  }

  /** The fingerprint as the agent prints it. */
  method CertificateFingerprint(digest: seq<Byte>) returns (printed: string)
    ensures printed == Join(UpperPairs(digest))
  {
    var parts: seq<string> := seq(|digest|, _ => "");
    for i := 0 to |digest|
      invariant |parts| == |digest|
      invariant parts[..i] == UpperPairs(digest)[..i]
    {
      parts := parts[i := Pair(digest[i], true)];
      assert parts[..i + 1] == parts[..i] + [Pair(digest[i], true)];
      assert UpperPairs(digest)[..i + 1] == UpperPairs(digest)[..i] + [Pair(digest[i], true)];
    }
    assert parts[..|digest|] == parts && UpperPairs(digest)[..|digest|] == UpperPairs(digest);
    printed := Join(parts);
  }

  /** What the controller makes of a fingerprint that was typed in. */
  function Normalize(value: string): Result<string>
    requires IsAscii(value)
  {
    var normalized := Lower(Keep(value, IsAlnum));
    if |normalized| != 64 || !forall i | 0 <= i < |normalized| :: IsLowerHex(normalized[i])
    then Err("Certificate fingerprint must contain 64 hexadecimal characters")
    else Ok(normalized)
  }

  predicate UiAccepts(value: string)
    requires IsAscii(value)
  {
    var normalized := Keep(value, c => !IsSeparator(c));
    |normalized| == 64 && forall i | 0 <= i < |normalized| :: IsHex(normalized[i])
  }

  // ---------- Filtering ----------

  lemma {:induction false} KeepConcat(a: string, b: string, p: char -> bool)
    ensures Keep(a + b, p) == Keep(a, p) + Keep(b, p)
  {
    if a == [] {
      assert a + b == b;
    } else {
      KeepConcat(a[1..], b, p);
      var first := if p(a[0]) then [a[0]] else [];
      assert (a + b)[1..] == a[1..] + b && (a + b)[0] == a[0];
      assert first + (Keep(a[1..], p) + Keep(b, p)) == first + Keep(a[1..], p) + Keep(b, p);
    }
  }

  lemma {:induction false} KeepAll(s: string, p: char -> bool)
    requires AllAre(s, p)
    ensures Keep(s, p) == s
  {
    if s != [] {
      assert p(s[0]);
      assert AllAre(s[1..], p) by {
        assert forall i | 0 <= i < |s[1..]| :: s[1..][i] == s[i + 1];
      }
      KeepAll(s[1..], p);
      assert s == [s[0]] + s[1..];
    }
  }

  lemma {:induction false} KeepSome(s: string, p: char -> bool)
    ensures AllAre(Keep(s, p), p)
    ensures forall i | 0 <= i < |s| && p(s[i]) :: s[i] in Keep(s, p)
  {
    if s != [] {
      KeepSome(s[1..], p);
      assert forall i | 0 < i < |s| :: s[i] == s[1..][i - 1];
    }
  }

  /** Two filters that agree on every character keep the same. */
  lemma {:induction false} KeepSame(s: string, p: char -> bool, q: char -> bool)
    requires forall i | 0 <= i < |s| :: p(s[i]) == q(s[i])
    ensures Keep(s, p) == Keep(s, q)
  {
    if s != [] {
      assert forall i | 0 <= i < |s[1..]| :: s[1..][i] == s[i + 1];
      KeepSame(s[1..], p, q);
    }
  }

  // ---------- Separators ----------

  /** The pairs of a digest in either case, with any text between them. */
  function Spelled(digest: seq<Byte>, upper: bool, between: string): string {
    if |digest| == 0 then ""
    else if |digest| == 1 then Pair(digest[0], upper)
    else Pair(digest[0], upper) + (between + Spelled(digest[1..], upper, between))
  }

  /** Nothing, or one of the usual separators. */
  predicate IsBetween(between: string) { between in {"", ":", "-", " "} }

  lemma KeepBetween(between: string, rest: string, p: char -> bool)
    requires IsBetween(between) && !p(':') && !p('-') && !p(' ')
    ensures Keep(between + rest, p) == Keep(rest, p)
  {
    if between == "" {
      assert between + rest == rest;
    } else {
      assert (between + rest)[1..] == rest && (between + rest)[0] == between[0];
    }
  }

  lemma PairDigits(b: Byte, upper: bool, p: char -> bool)
    requires forall c | IsHex(c) :: p(c)
    ensures AllAre(Pair(b, upper), IsHex) && Keep(Pair(b, upper), p) == Pair(b, upper)
    ensures Lower(Pair(b, upper)) == Pair(b, false) && IsAscii(Pair(b, upper))
  {
    assert AllAre(Pair(b, upper), IsHex);
    KeepAll(Pair(b, upper), p);
  }

  /** Without anything between them, the pairs are the digits of the digest. */
  lemma {:induction false} SpelledPlainly(digest: seq<Byte>, upper: bool)
    ensures |Spelled(digest, upper, "")| == 2 * |digest| && AllAre(Spelled(digest, upper, ""), IsHex)
    ensures Lower(Spelled(digest, upper, "")) == HexDigest(digest)
  {
    if digest != [] {
      SpelledPlainly(digest[1..], upper);
      var pair, digits := Pair(digest[0], upper), Spelled(digest[1..], upper, "");
      SpelledMore(digest, upper);
      PairDigits(digest[0], upper, IsHex);
      LowerConcat(pair, digits);
      hide Spelled, Pair, Lower;
      assert forall i | 0 <= i < |digits| :: (pair + digits)[|pair| + i] == digits[i];
    }
  }

  lemma SpelledMore(digest: seq<Byte>, upper: bool)
    requires digest != []
    ensures Spelled(digest, upper, "") == Pair(digest[0], upper) + Spelled(digest[1..], upper, "")
    ensures HexDigest(digest) == Pair(digest[0], false) + HexDigest(digest[1..])
    ensures |Pair(digest[0], upper)| == 2
  {
    var digits := Spelled(digest[1..], upper, "");
    assert "" + digits == digits;
    if |digest| == 1 {
      assert digest[1..] == [] && Pair(digest[0], upper) + "" == Pair(digest[0], upper);
    }
  }

  /** A filter that passes digits but no separators leaves exactly the digits. */
  lemma {:induction false} SpelledDigits(digest: seq<Byte>, upper: bool, between: string, p: char -> bool)
    requires IsBetween(between) && !p(':') && !p('-') && !p(' ')
    requires forall c | IsHex(c) :: p(c)
    ensures Keep(Spelled(digest, upper, between), p) == Spelled(digest, upper, "")
    ensures IsAscii(Spelled(digest, upper, between))
  {
    if |digest| == 1 {
      PairDigits(digest[0], upper, p);
    } else if |digest| > 1 {
      var pair, rest := Pair(digest[0], upper), Spelled(digest[1..], upper, between);
      SpelledDigits(digest[1..], upper, between, p);
      SpelledMore(digest, upper);
      PairDigits(digest[0], upper, p);
      assert Spelled(digest, upper, between) == pair + (between + rest);
      hide Spelled, Pair, Keep;
      KeepConcat(pair, between + rest, p);
      KeepBetween(between, rest, p);
    }
  }

  /**
   Spelled in either case, with nothing, colons, dashes or spaces between the pairs, a digest is
   accepted by both sides.
   */
  lemma SpellingsAreAccepted(digest: seq<Byte>, upper: bool, between: string)
    requires |digest| == 32 && IsBetween(between)
    ensures IsAscii(Spelled(digest, upper, between)) && UiAccepts(Spelled(digest, upper, between))
    ensures Normalize(Spelled(digest, upper, between)) == Ok(HexDigest(digest))
  {
    SpelledPlainly(digest, upper);
    SpelledDigits(digest, upper, between, IsAlnum);
    SpelledDigits(digest, upper, between, c => !IsSeparator(c));
    HexDigestShape(digest);
    assert forall i | 0 <= i < |HexDigest(digest)| :: IsLowerHex(HexDigest(digest)[i]);
    assert forall i | 0 <= i < 64 :: IsHex(Spelled(digest, upper, "")[i]);
  }

  /** What a hexadecimal digit is worth. */
  function DigitValue(c: char): int {
    if '0' <= c <= '9' then c as int - '0' as int
    else if 'a' <= c <= 'f' then c as int - 'a' as int + 10
    else if 'A' <= c <= 'F' then c as int - 'A' as int + 10
    else -1
  }

  /** A byte is spelled with the two digits of its value, the higher one first. */
  lemma PairValue(b: Byte, upper: bool)
    ensures DigitValue(Pair(b, upper)[0]) * 16 + DigitValue(Pair(b, upper)[1]) == b
  {}

  // ---------- Results ----------

  lemma {:induction false} HexDigestShape(digest: seq<Byte>)
    ensures |HexDigest(digest)| == 2 * |digest| && AllAre(HexDigest(digest), IsLowerHex)
  {
    if digest != [] {
      HexDigestShape(digest[1..]);
    }
  }

  lemma KeepPair(b: Byte, rest: string)
    ensures Keep(Pair(b, true) + rest, IsAlnum) == Pair(b, true) + Keep(rest, IsAlnum)
    ensures Lower(Pair(b, true)) == Pair(b, false)
  {
    KeepConcat(Pair(b, true), rest, IsAlnum);
    KeepAll(Pair(b, true), IsAlnum);
  }

  lemma {:induction false} PrintedDigits(digest: seq<Byte>)
    ensures Lower(Keep(Join(UpperPairs(digest)), IsAlnum)) == HexDigest(digest)
    ensures IsAscii(Join(UpperPairs(digest)))
  {
    if digest != [] {
      PrintedDigits(digest[1..]);
      var pair := Pair(digest[0], true);
      var rest := Join(UpperPairs(digest[1..]));
      var after := if |digest| > 1 then ":" + rest else rest;
      assert UpperPairs(digest)[1..] == UpperPairs(digest[1..]);
      assert Join(UpperPairs(digest)) == pair + after;
      assert Keep(after, IsAlnum) == Keep(rest, IsAlnum) by {
        assert (":" + rest)[1..] == rest;
      }
      hide Join, UpperPairs, Pair, Keep, Lower;
      KeepPair(digest[0], after);
      LowerConcat(pair, Keep(rest, IsAlnum));
      assert IsAscii(pair + after) by {
        PairIsAscii(digest[0]);
      }
    }
  }

  lemma PairIsAscii(b: Byte)
    ensures IsAscii(Pair(b, true))
  {}

  lemma LowerConcat(a: string, b: string)
    ensures Lower(a + b) == Lower(a) + Lower(b)
  {}

  /** The printed fingerprint of any digest normalises to the text the controller compares with. */
  lemma PrintedIsRecognised(digest: seq<Byte>)
    requires |digest| == 32
    ensures IsAscii(Join(UpperPairs(digest))) && Normalize(Join(UpperPairs(digest))) == Ok(HexDigest(digest))
  {
    PrintedDigits(digest);
    HexDigestShape(digest);
    assert forall i | 0 <= i < |HexDigest(digest)| :: IsLowerHex(HexDigest(digest)[i]);
  }

  lemma {:induction false} HexDigestInjective(d: seq<Byte>, e: seq<Byte>)
    requires HexDigest(d) == HexDigest(e)
    ensures d == e
  {
    HexDigestShape(d);
    HexDigestShape(e);
    if d != [] {
      assert HexDigest(d)[..2] == Pair(d[0], false) && HexDigest(e)[..2] == Pair(e[0], false);
      assert Pair(d[0], false)[0] == Pair(e[0], false)[0] && Pair(d[0], false)[1] == Pair(e[0], false)[1];
      assert d[0] / 16 == e[0] / 16 && d[0] % 16 == e[0] % 16;
      assert HexDigest(d)[2..] == HexDigest(d[1..]) && HexDigest(e)[2..] == HexDigest(e[1..]);
      HexDigestInjective(d[1..], e[1..]);
      assert d == [d[0]] + d[1..] && e == [e[0]] + e[1..];
    }
  }

  /** A printed fingerprint matches the certificate that is presented exactly when the digests are equal. */
  lemma PinMatchesIff(printed: seq<Byte>, presented: seq<Byte>)
    requires |printed| == |presented| == 32
    ensures IsAscii(Join(UpperPairs(printed)))
    ensures Normalize(Join(UpperPairs(printed))) == Ok(HexDigest(presented)) <==> printed == presented
  {
    PrintedIsRecognised(printed);
    if HexDigest(printed) == HexDigest(presented) {
      HexDigestInjective(printed, presented);
    }
  }

  /** Normalising once is enough. */
  lemma NormalizeIdempotent(value: string)
    requires IsAscii(value) && Normalize(value).Ok?
    ensures IsAscii(Normalize(value).value) && Normalize(Normalize(value).value) == Normalize(value)
  {
    var n := Normalize(value).value;
    assert forall i | 0 <= i < |n| :: IsLowerHex(n[i]) && n[i] as int < 128;
    KeepAll(n, IsAlnum);
    assert Lower(n) == n;
  }

  /**
   The interface accepts exactly the texts that the controller accepts and that contain nothing
   but letters, digits and separators; the controller then reads the same digits.
   */
  lemma UiAcceptsIff(value: string)
    requires IsAscii(value)
    ensures UiAccepts(value) <==>
            Normalize(value).Ok? && forall i | 0 <= i < |value| :: IsAlnum(value[i]) || IsSeparator(value[i])
    ensures UiAccepts(value) ==> Normalize(value) == Ok(Lower(Keep(value, c => !IsSeparator(c))))
  {
    var kept := Keep(value, c => !IsSeparator(c));
    var digits := Keep(value, IsAlnum);
    KeepSome(value, c => !IsSeparator(c));
    if UiAccepts(value) {
      forall i | 0 <= i < |value|
        ensures IsAlnum(value[i]) == !IsSeparator(value[i])
      {
        if !IsSeparator(value[i]) {
          assert value[i] in kept;
        }
      }
      KeepSame(value, IsAlnum, c => !IsSeparator(c));
      assert forall i | 0 <= i < |kept| :: IsHex(kept[i]) && IsLowerHex(Lower(kept)[i]);
    }
    if Normalize(value).Ok? && forall i | 0 <= i < |value| :: IsAlnum(value[i]) || IsSeparator(value[i]) {
      KeepSame(value, IsAlnum, c => !IsSeparator(c));
      assert forall i | 0 <= i < |digits| :: IsLowerHex(Lower(digits)[i]) && IsHex(digits[i]);
    }
  }

  /** A letter that is no hexadecimal digit. */
  predicate IsOtherLetter(c: char) { 'g' <= c <= 'z' || 'G' <= c <= 'Z' }

  /**
   The controller accepts a text exactly if it has 64 hexadecimal digits and no other letter; it reads
   the digits in lower case, and ignores everything else.
   */
  lemma NormalizeExactly(value: string)
    requires IsAscii(value)
    ensures Normalize(value).Ok? <==>
            |Keep(value, IsHex)| == 64 && forall i | 0 <= i < |value| :: !IsOtherLetter(value[i])
    ensures Normalize(value).Ok? ==> Normalize(value).value == Lower(Keep(value, IsHex))
  {
    var kept := Keep(value, IsAlnum);
    KeepSome(value, IsAlnum);
    if i :| 0 <= i < |value| && IsOtherLetter(value[i]) {
      assert value[i] in kept;
      var k :| 0 <= k < |kept| && kept[k] == value[i];
      assert !IsLowerHex(Lower(kept)[k]);
    } else {
      KeepSame(value, IsAlnum, IsHex);
      KeepSome(value, IsHex);
      assert forall i | 0 <= i < |kept| :: IsLowerHex(Lower(kept)[i]);
    }
  }
}
