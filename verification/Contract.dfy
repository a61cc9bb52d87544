/** The wire contract of the signed Shopify session service: observations, lease
    proofs and snapshots, and the decimal strings that carry its counters. */
module Contract {
  import opened Wrappers

  datatype PropertyValue = Text(text: string) | Number(number: int) | Flag(flag: bool)

  type Properties = seq<(string, PropertyValue)>

  datatype Observation = Observation(
    epoch: string,
    revision: string,
    sessionDigest: string,
    installationGeneration: Option<string>,
    credentialTokenHash: Option<string>)

  datatype Lease = Lease(token: string, epoch: string, revision: string)

  datatype Fence = Fence(lease: Lease, observed: Observation)

  datatype Snapshot = Snapshot(observed: Observation, properties: Option<Properties>)

  /** Everything but the epoch: reading under another lease is not a new version. */
  predicate SameObservation(a: Observation, b: Observation) {
    && a.revision == b.revision
    && a.sessionDigest == b.sessionDigest
    && a.installationGeneration == b.installationGeneration
    && a.credentialTokenHash == b.credentialTokenHash
  }

  /** JavaScript truthiness of a nullable string. */
  predicate Present(s: Option<string>) {
    s.Some? && s.value != ""
  }

  predicate IsHex64(s: string) {
    |s| == 64 && forall i :: 0 <= i < 64 ==> '0' <= s[i] <= '9' || 'a' <= s[i] <= 'f'
  }

  // ---------------------------------------------------------------- counters

  predicate AllDigits(s: string) {
    forall i :: 0 <= i < |s| ==> '0' <= s[i] <= '9'
  }

  /** The source's pattern ^(0|[1-9][0-9]{0,18})$. */
  predicate IsCounter(s: string) {
    s == "0" || (1 <= |s| <= 19 && s[0] != '0' && AllDigits(s))
  }

  /** BigInt(s) */
  function Value(s: string): nat
    requires AllDigits(s)
  {
    if s == "" then 0 else 10 * Value(s[..|s| - 1]) + (s[|s| - 1] - '0') as nat
  }

  /** String(n) */
  function Decimal(n: nat): (s: string)
    ensures 1 <= |s| && AllDigits(s) && Value(s) == n
    ensures s[0] == '0' <==> n == 0
    ensures n == 0 ==> s == "0"
  {
    var last := '0' + (n % 10) as char;
    if n < 10 then
      assert [last][..0] == "";
      [last]
    else
      var front := Decimal(n / 10);
      assert (front + [last])[..|front|] == front;
      front + [last]
  }

  /** The successor of an acknowledged counter; None where the source throws. */
  function NextCounter(s: string): (r: Option<string>)
    ensures r.Some? <==> IsCounter(s)
    ensures r.Some? ==> AllDigits(r.value) && Value(r.value) == Value(s) + 1
  {
    if IsCounter(s) then Some(Decimal(Value(s) + 1)) else None
  }

  function Pow10(k: nat): nat {
    if k == 0 then 1 else 10 * Pow10(k - 1)
  }

  lemma {:induction false} ValueBounds(s: string)
    requires s != "" && AllDigits(s)
    ensures Value(s) < Pow10(|s|)
    ensures s[0] != '0' ==> Pow10(|s| - 1) <= Value(s)
  {
    var front := s[..|s| - 1];
    if front == "" {
      assert Value(s) == 10 * Value(front) + (s[0] - '0') as nat;
    } else {
      ValueBounds(front);
      assert front[0] == s[0];
    }
  }

  lemma {:induction false} Pow10Monotone(a: nat, b: nat)
    requires a <= b
    ensures Pow10(a) <= Pow10(b)
    decreases b - a
  {
    if a < b { Pow10Monotone(a + 1, b); }
  }

  /** Decimal strings are read back exactly: on counters, string equality is
      integer equality, and a decimal is a counter iff it has at most 19 digits. */
  lemma {:induction false} DecimalOfValue(s: string)
    requires IsCounter(s)
    ensures Decimal(Value(s)) == s
  {
    DecimalUnique(s, Decimal(Value(s)));
  }

  predicate Canonical(s: string) {
    s == "0" || (s != "" && s[0] != '0' && AllDigits(s))
  }

  lemma {:induction false} DecimalUnique(s: string, t: string)
    requires Canonical(s) && Canonical(t) && Value(s) == Value(t)
    ensures s == t
    decreases |s|
  {
    var n := Value(s);
    var a, b := s[..|s| - 1], t[..|t| - 1];
    assert s == a + [s[|s| - 1]] && t == b + [t[|t| - 1]];
    if a == "" || b == "" {
      ValueBounds(s);
      ValueBounds(t);
      assert Pow10(1) == 10;
      if |s| > 1 { Pow10Monotone(1, |s| - 1); }
      if |t| > 1 { Pow10Monotone(1, |t| - 1); }
    } else {
      assert a[0] == s[0] && b[0] == t[0];
      DecimalUnique(a, b);
    }
  }

  lemma {:induction false} DecimalIsCounter(n: nat)
    ensures IsCounter(Decimal(n)) <==> n < Pow10(19)
  {
    var s := Decimal(n);
    ValueBounds(s);
    if n < Pow10(19) {
      if |s| > 19 { Pow10Monotone(19, |s| - 1); }
    } else if |s| <= 19 {
      Pow10Monotone(|s|, 19);
    }
  }
}
