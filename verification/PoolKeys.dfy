/** The text keys of the outbound connection pools, and what a prefix test on them decides. */
module PoolKeys {

  /** `proxy` is the proxy URL after masking, `budget` the connect timeout as text. */
  datatype Network = Network(upstream: int, proxy: string, serverName: string, host: string, revision: int,
                             budget: string)

  const NUL := '\0'
  const DIGITS := "0123456789"

  function Digits(n: nat): string {
    if n < 10 then [DIGITS[n]] else Digits(n / 10) + [DIGITS[n % 10]]
  }

  function Decimal(n: int): string {
    if n < 0 then "-" + Digits(-n) else Digits(n)
  }

  function Join(parts: seq<string>): string {
    if parts == [] then "" else if |parts| == 1 then parts[0] else parts[0] + [NUL] + Join(parts[1..])
  }

  function Parts(n: Network): seq<string> {
    [Decimal(n.upstream), n.proxy, n.serverName, n.host, Decimal(n.revision)]
  }

  /** Everything but the connect timeout. */
  function IdentityPrefix(n: Network): string {
    Join(Parts(n))
  }

  function PoolKey(n: Network): string {
    IdentityPrefix(n) + [NUL] + n.budget
  }

  predicate HasPrefix(key: string, prefix: string) {
    prefix <= key
  }

  predicate Clean(n: Network) {
    NUL !in n.proxy && NUL !in n.serverName && NUL !in n.host
  }

  predicate SameIdentity(a: Network, b: Network) {
    && a.upstream == b.upstream && a.proxy == b.proxy && a.serverName == b.serverName
    && a.host == b.host && a.revision == b.revision
  }

  lemma {:induction false} DigitsAreDigits(n: nat)
    ensures Digits(n) != "" && forall c :: c in Digits(n) ==> c in DIGITS
  {
    if n >= 10 {
      DigitsAreDigits(n / 10);
    }
  }

  lemma {:induction false} DigitsAreInjective(a: nat, b: nat)
    requires Digits(a) == Digits(b)
    ensures a == b
  {
    DigitsAreDigits(a / 10);
    DigitsAreDigits(b / 10);
    if a >= 10 && b >= 10 {
      var x, y := Digits(a), Digits(b);
      assert x[..|x| - 1] == Digits(a / 10) && y[..|y| - 1] == Digits(b / 10);
      DigitsAreInjective(a / 10, b / 10);
      assert x[|x| - 1] == DIGITS[a % 10] && y[|y| - 1] == DIGITS[b % 10];
      SameDigit(a % 10, b % 10);
    } else if a < 10 && b < 10 {
      assert Digits(a)[0] == DIGITS[a] && Digits(b)[0] == DIGITS[b];
      SameDigit(a, b);
    }
  }

  lemma SameDigit(a: nat, b: nat)
    requires a < 10 && b < 10 && DIGITS[a] == DIGITS[b]
    ensures a == b
  {
  }

  lemma DecimalIsInjective(a: int, b: int)
    requires Decimal(a) == Decimal(b)
    ensures a == b
  {
    var x, y := if a < 0 then -a else a, if b < 0 then -b else b;
    DigitsAreDigits(x);
    DigitsAreDigits(y);
    assert Digits(x)[0] in DIGITS && Digits(y)[0] in DIGITS && '-' !in DIGITS;
    assert (a < 0) == (b < 0);
    if a < 0 {
      assert Decimal(a)[1..] == Digits(x) && Decimal(b)[1..] == Digits(y);
    }
    DigitsAreInjective(x, y);
  }

  lemma DecimalIsClean(n: int)
    ensures NUL !in Decimal(n)
  {
    DigitsAreDigits(if n < 0 then -n else n);
  }

  /** Up to the first separator the texts must agree. */
  lemma FirstFieldAgrees(a: string, x: string, b: string, y: string)
    requires NUL !in a && NUL !in b && a + [NUL] + x <= b + [NUL] + y
    ensures a == b && x <= y
  {
    var p, q := a + [NUL] + x, b + [NUL] + y;
    assert p[|a|] == NUL && q[|b|] == NUL;
    assert forall i :: 0 <= i < |a| ==> p[i] == a[i];
    assert forall i :: 0 <= i < |b| ==> q[i] == b[i];
    assert |a| == |b|;
    assert forall i :: 0 <= i < |x| ==> x[i] == p[|a| + 1 + i] == q[|b| + 1 + i];
  }

  lemma {:induction false} JoinedPrefixIsEquality(a: seq<string>, b: seq<string>, y: string)
    requires |a| == |b| > 0
    requires forall i :: 0 <= i < |a| ==> NUL !in a[i] && NUL !in b[i]
    ensures Join(a) + [NUL] <= Join(b) + [NUL] + y <==> a == b
    decreases |a|
  {
    if Join(a) + [NUL] <= Join(b) + [NUL] + y {
      if |a| == 1 {
        assert Join(a) + [NUL] == a[0] + [NUL] + "";
        FirstFieldAgrees(a[0], "", b[0], y);
        assert a == [a[0]] && b == [b[0]];
      } else {
        var x, z := Join(a[1..]) + [NUL], Join(b[1..]) + [NUL] + y;
        assert Join(a) + [NUL] == a[0] + [NUL] + x;
        assert Join(b) + [NUL] + y == b[0] + [NUL] + z;
        FirstFieldAgrees(a[0], x, b[0], z);
        JoinedPrefixIsEquality(a[1..], b[1..], y);
        assert a == [a[0]] + a[1..] && b == [b[0]] + b[1..];
      }
    }
  }

  lemma PartsAreIdentity(a: Network, b: Network)
    ensures Parts(a) == Parts(b) <==> SameIdentity(a, b)
  {
    if Parts(a) == Parts(b) {
      var x, y := Parts(a), Parts(b);
      assert x[0] == y[0] && x[1] == y[1] && x[2] == y[2] && x[3] == y[3] && x[4] == y[4];
      DecimalIsInjective(a.upstream, b.upstream);
      DecimalIsInjective(a.revision, b.revision);
    }
  }

  /** For fields without a NUL, the prefix test that decides which pools are stale is exactly
      equality of network identity. */
  lemma PrefixTestIsIdentity(n: Network, m: Network)
    requires Clean(n) && Clean(m)
    ensures HasPrefix(PoolKey(m), IdentityPrefix(n) + [NUL]) <==> SameIdentity(n, m)
  {
    DecimalIsClean(n.upstream);
    DecimalIsClean(n.revision);
    DecimalIsClean(m.upstream);
    DecimalIsClean(m.revision);
    JoinedPrefixIsEquality(Parts(n), Parts(m), m.budget);
    PartsAreIdentity(n, m);
  }

  /** And then a key names one configuration, budget included. */
  lemma KeyIsInjective(n: Network, m: Network)
    requires Clean(n) && Clean(m)
    ensures PoolKey(n) == PoolKey(m) <==> n == m
  {
    if PoolKey(n) == PoolKey(m) {
      assert IdentityPrefix(n) + [NUL] <= PoolKey(n);
      PrefixTestIsIdentity(n, m);
      assert PoolKey(n)[|IdentityPrefix(n)| + 1..] == n.budget;
      assert PoolKey(m)[|IdentityPrefix(m)| + 1..] == m.budget;
    }
  }

  /** With a NUL inside a field two different identities share one key. */
  lemma NulMergesIdentities()
    ensures var n, m := Network(1, "", "a\0b", "c", 1, "5s"), Network(1, "", "a", "b\0c", 1, "5s");
            PoolKey(n) == PoolKey(m) && !SameIdentity(n, m)
  {
  }
}
