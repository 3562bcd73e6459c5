/** Command identifiers: how the controller names one delivery of one shutdown. */
module CommandIds {

  predicate IsDigit(c: char) { '0' <= c <= '9' }

  /** The decimal text of a natural number, as string formatting prints it. */
  function Decimal(n: nat): (s: string)
    ensures s != [] && forall i | 0 <= i < |s| :: IsDigit(s[i])
  {
    var last := ['0' + (n % 10) as char];
    if n < 10 then last else Decimal(n / 10) + last
  }

  function Value(s: string): nat
    requires forall i | 0 <= i < |s| :: IsDigit(s[i])
  {
    if s == [] then 0 else
      assert IsDigit(s[|s| - 1]);
      10 * Value(s[..|s| - 1]) + (s[|s| - 1] as int - '0' as int)
  }

  lemma {:induction false} DecimalRoundTrip(n: nat)
    ensures Value(Decimal(n)) == n
  {
    if n >= 10 {
      DecimalRoundTrip(n / 10);
      assert Decimal(n)[..|Decimal(n)| - 1] == Decimal(n / 10);
    }
  }

  /** Text of a random UUID: lower-case hexadecimal digits and dashes. */
  predicate IsUuid(s: string) {
    |s| == 36 && forall i | 0 <= i < |s| :: IsDigit(s[i]) || 'a' <= s[i] <= 'f' || s[i] == '-'
  }

  /** The identifier of an automatic shutdown: outage, client name and delivery sequence. */
  function CommandId(outage: string, name: string, sequence: nat): string {
    outage + ":" + name + ":" + Decimal(sequence)
  }

  /** The identifier of a shutdown requested by hand. */
  function ManualId(uuid: string): string {
    "manual:" + uuid
  }

  /** Joining with colons loses nothing, even when client names contain colons. */
  lemma CommandIdInjective(o1: string, n1: string, k1: nat, o2: string, n2: string, k2: nat)
    requires IsUuid(o1) && IsUuid(o2)
    requires CommandId(o1, n1, k1) == CommandId(o2, n2, k2)
    ensures o1 == o2 && n1 == n2 && k1 == k2
  {
    var s := CommandId(o1, n1, k1);
    var d1, d2 := Decimal(k1), Decimal(k2);
    assert o1 == s[..36] == o2;
    // The character before each decimal suffix is a colon, and no digit is one.
    assert s[|s| - |d1| - 1] == ':' && s[|s| - |d2| - 1] == ':';
    if |d1| < |d2| {
      assert false;
    }
    if |d2| < |d1| {
      assert false;
    }
    assert d1 == s[|s| - |d1|..] == d2;
    assert n1 == s[37..|s| - |d1| - 1] == n2;
    DecimalRoundTrip(k1);
    DecimalRoundTrip(k2);
  }

  /** No automatic identifier equals a manual one. */
  lemma AutomaticIsNotManual(outage: string, name: string, sequence: nat, uuid: string)
    requires IsUuid(outage)
    ensures CommandId(outage, name, sequence) != ManualId(uuid)
  {
    assert CommandId(outage, name, sequence)[0] == outage[0] != 'm' == ManualId(uuid)[0];
  }
}
