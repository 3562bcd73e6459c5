/**
 Reading the UPS: which raw status texts and charges the loop acts on. Charges are real numbers.
 Of the characters beyond ASCII none has O, B or L as its upper case; they are left as they are.
 */
module UpsSnapshot {
  import opened Wrappers
  import opened Monitor

  /** The charge as text: absent, no finite number, or a number. */
  datatype Charge = Missing | NotFinite | Number(value: real)

  predicate IsSpace(c: char) {
    var n := c as int;
    || 9 <= n <= 13 || 0x1C <= n <= 0x20 || 0x2000 <= n <= 0x200A
    || n in {0x85, 0xA0, 0x1680, 0x2028, 0x2029, 0x202F, 0x205F, 0x3000}
  }

  function UpperChar(c: char): char { if 'a' <= c <= 'z' then (c as int - 32) as char else c }

  function Upper(s: string): (r: string)
    ensures |r| == |s|
  {
    seq(|s|, i requires 0 <= i < |s| => UpperChar(s[i]))
  }

  /** Where the word that a text begins with ends. */
  function WordEnd(s: string): (n: nat)
    ensures n <= |s| && (forall i | 0 <= i < n :: !IsSpace(s[i])) && (n < |s| ==> IsSpace(s[n]))
  {
    if s == [] || IsSpace(s[0]) then 0 else 1 + WordEnd(s[1..])
  }

  /** The words of a text, split at white space. */
  function Words(s: string): seq<string>
    decreases |s|
  {
    if s == [] then []
    else if IsSpace(s[0]) then Words(s[1..])
    else [s[..WordEnd(s)]] + Words(s[WordEnd(s)..])
  }

  /** Rounding to the nearest whole number, halves to the even one. */
  function Round(x: real): int {
    var below := x.Floor;
    var rest := x - below as real;
    if rest < 0.5 || (rest == 0.5 && below % 2 == 0) then below else below + 1
  }

  function Parse(status: Option<string>, charge: Charge): Reading {
    if status.None? || charge.Missing? then Incomplete
    else
      var tokens := Words(Upper(status.value));
      if "OB" !in tokens && "OL" !in tokens then Incomplete
      else if charge.NotFinite? then Incomplete
      else
        var battery := Round(charge.value);
        if !(0 <= battery <= 100) then Incomplete
        else if "OB" in tokens then OnBattery(battery)
        else OnLine(battery)
  }

  // ---------- Words ----------

  /** s[i..j] stands between white space or the ends of the text, and has none inside. */
  predicate IsWordAt(s: string, i: int, j: int) {
    && 0 <= i < j <= |s|
    && (forall k | i <= k < j :: !IsSpace(s[k]))
    && (i == 0 || IsSpace(s[i - 1])) && (j == |s| || IsSpace(s[j]))
  }

  ghost predicate HasWord(s: string, w: string) {
    exists i, j :: IsWordAt(s, i, j) && s[i..j] == w
  }

  /** Words inside a rest of the text that begins at white space or the start are words of the text. */
  lemma HasWordLater(s: string, n: nat, w: string)
    requires n <= |s| && (n == 0 || n == |s| || IsSpace(s[n]) || IsSpace(s[n - 1])) && HasWord(s[n..], w)
    ensures HasWord(s, w)
  {
    hide IsSpace;
    var i, j :| IsWordAt(s[n..], i, j) && s[n..][i..j] == w;
    SliceOfRest(s, n, i, j);
    assert forall k | 0 <= k < |s[n..]| :: s[n..][k] == s[k + n];
    assert IsWordAt(s, i + n, j + n);
  }

  lemma SliceOfRest(s: string, n: nat, i: int, j: int)
    requires n <= |s| && 0 <= i <= j <= |s| - n
    ensures s[n..][i..j] == s[i + n..j + n]
  {}

  /** Conversely, a word that begins at or after n is a word of the rest. */
  lemma HasWordRest(s: string, n: nat, i: int, j: int)
    requires n <= i && IsWordAt(s, i, j)
    ensures IsWordAt(s[n..], i - n, j - n) && s[n..][i - n..j - n] == s[i..j]
  {
    hide IsSpace;
    SliceOfRest(s, n, i - n, j - n);
    assert forall k | 0 <= k < |s[n..]| :: s[n..][k] == s[k + n];
  }

  lemma {:induction false} WordsIff(s: string, w: string)
    ensures w in Words(s) <==> HasWord(s, w)
    decreases |s|
  {
    hide IsSpace;
    if s == [] {
    } else if IsSpace(s[0]) {
      WordsIff(s[1..], w);
      if HasWord(s[1..], w) {
        HasWordLater(s, 1, w);
      }
      if HasWord(s, w) {
        var i, j :| IsWordAt(s, i, j) && s[i..j] == w;
        HasWordRest(s, 1, i, j);
      }
    } else {
      var n := WordEnd(s);
      WordsIff(s[n..], w);
      assert IsWordAt(s, 0, n) && s[0..n] == s[..n];
      if HasWord(s[n..], w) {
        HasWordLater(s, n, w);
      }
      if HasWord(s, w) {
        var i, j :| IsWordAt(s, i, j) && s[i..j] == w;
        if i == 0 {
          assert j == n;
        } else {
          assert i > n;
          HasWordRest(s, n, i, j);
        }
      }
    }
  }

  // ---------- Rounding ----------

  /** The rounded value is nearest, and even when two are. */
  lemma RoundNearest(x: real)
    ensures -0.5 <= x - Round(x) as real <= 0.5
    ensures x - Round(x) as real == 0.5 || x - Round(x) as real == -0.5 ==> Round(x) % 2 == 0
  {}

  lemma RoundInRange(x: real)
    ensures 0 <= Round(x) <= 100 <==> -0.5 <= x <= 100.5
  {
    RoundNearest(x);
  }

  // ---------- The result ----------

  /** Two letters that stand alone in the raw text, each in either case. */
  ghost predicate HasLetters(s: string, first: set<char>, second: set<char>) {
    exists i, j | IsWordAt(s, i, j) :: j == i + 2 && s[i] in first && s[i + 1] in second
  }

  lemma UpperWords(s: string, i: int, j: int)
    ensures IsWordAt(Upper(s), i, j) <==> IsWordAt(s, i, j)
  {
    assert forall k | 0 <= k < |s| :: IsSpace(Upper(s)[k]) == IsSpace(s[k]);
  }

  /** Of all characters exactly the two cases of a letter have it as their upper case. */
  lemma UpperLetter(c: char)
    ensures UpperChar(c) == 'O' <==> c in {'O', 'o'}
    ensures UpperChar(c) == 'B' <==> c in {'B', 'b'}
    ensures UpperChar(c) == 'L' <==> c in {'L', 'l'}
  {}

  lemma UpperHasWord(s: string, w: string, first: set<char>, second: set<char>)
    requires |w| == 2
    requires forall c :: UpperChar(c) == w[0] <==> c in first
    requires forall c :: UpperChar(c) == w[1] <==> c in second
    ensures HasWord(Upper(s), w) <==> HasLetters(s, first, second)
  {
    var u := Upper(s);
    if HasWord(u, w) {
      var i, j :| IsWordAt(u, i, j) && u[i..j] == w;
      UpperWords(s, i, j);
      assert j == i + 2 && u[i..j][0] == u[i] && u[i..j][1] == u[i + 1];
      assert IsWordAt(s, i, j) && s[i] in first && s[i + 1] in second;
    }
    if i, j :| IsWordAt(s, i, j) && j == i + 2 && s[i] in first && s[i + 1] in second {
      UpperWords(s, i, j);
      assert u[i] == w[0] && u[i + 1] == w[1];
      assert u[i..j] == w;
    }
  }

  ghost predicate SaysOnBattery(s: string) { HasLetters(s, {'O', 'o'}, {'B', 'b'}) }

  ghost predicate SaysOnLine(s: string) { HasLetters(s, {'O', 'o'}, {'L', 'l'}) }

  lemma SaysExactly(s: string)
    ensures "OB" in Words(Upper(s)) <==> SaysOnBattery(s)
    ensures "OL" in Words(Upper(s)) <==> SaysOnLine(s)
  {
    WordsIff(Upper(s), "OB");
    WordsIff(Upper(s), "OL");
    forall c {
      UpperLetter(c);
    }
    UpperHasWord(s, "OB", {'O', 'o'}, {'B', 'b'});
    UpperHasWord(s, "OL", {'O', 'o'}, {'L', 'l'});
  }

  /**
   The loop acts on a reading exactly when in its status the letters OB or OL stand alone between
   white space, in any case, and its charge is a number from -0.5 to 100.5; OB wins over OL, and the
   charge is rounded to the nearest whole number, halves to the even one.
   */
  lemma ActsExactly(status: Option<string>, charge: Charge)
    ensures !Parse(status, charge).Incomplete? <==>
            && status.Some? && charge.Number? && -0.5 <= charge.value <= 100.5
            && (SaysOnBattery(status.value) || SaysOnLine(status.value))
    ensures !Parse(status, charge).Incomplete? ==>
              var percent := Parse(status, charge).percent;
              && Parse(status, charge).OnBattery? == SaysOnBattery(status.value)
              && 0 <= percent <= 100 && -0.5 <= charge.value - percent as real <= 0.5
              && (charge.value - percent as real in {-0.5, 0.5} ==> percent % 2 == 0)
  {
    if status.Some? {
      SaysExactly(status.value);
    }
    if charge.Number? {
      RoundNearest(charge.value);
      RoundInRange(charge.value);
    }
  }

  /** Spaces, tabs and line ends separate words; printable characters do not. */
  lemma SpacesSeparate(c: char)
    ensures c in {' ', '\t', '\n', '\r'} ==> IsSpace(c)
    ensures '!' <= c <= '~' ==> !IsSpace(c)
  {}

  /** A status that begins with OB, in any case, is acted on as on battery whatever else it says. */
  lemma BatteryFirst(status: string, charge: real)
    requires |status| > 2 && status[0] in {'O', 'o'} && status[1] in {'B', 'b'}
    requires status[2] in {' ', '\t', '\n', '\r'}
    requires 0.0 <= charge <= 100.0
    ensures Parse(Some(status), Number(charge)).OnBattery?
  {
    ActsExactly(Some(status), Number(charge));
    assert IsWordAt(status, 0, 2);
  }
}
