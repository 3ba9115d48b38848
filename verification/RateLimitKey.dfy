// The text under which a shared counter is kept: ratelimit:<limiter>:<client>:<window index>.
module RateLimitKey {
  datatype Id = Id(name: string, client: string, index: nat)

  function Digit(d: nat): char
    requires d < 10
  {
    '0' + d as char
  }

  /** %d of a non-negative number. */
  function Decimal(n: nat): string
  {
    if n < 10 then [Digit(n)] else Decimal(n / 10) + [Digit(n % 10)]
  }

  function Text(id: Id): string
  {
    "ratelimit:" + (id.name + ":" + (id.client + ":" + Decimal(id.index)))
  }

  lemma {:induction false} DecimalHasNoColon(n: nat)
    ensures ':' !in Decimal(n)
  {
    if n >= 10 {
      DecimalHasNoColon(n / 10);
    }
  }

  /** What a row of decimal digits stands for. */
  function Value(s: string): nat
    requires forall i :: 0 <= i < |s| ==> '0' <= s[i] <= '9'
  {
    if s == "" then 0 else 10 * Value(s[..|s| - 1]) + (s[|s| - 1] as int - '0' as int)
  }

  lemma {:induction false} DecimalReads(n: nat)
    ensures (forall i :: 0 <= i < |Decimal(n)| ==> '0' <= Decimal(n)[i] <= '9') && Value(Decimal(n)) == n
    ensures Decimal(n)[0] == '0' ==> n == 0
  {
    var s := Decimal(n);
    if n >= 10 {
      DecimalReads(n / 10);
      assert s[..|s| - 1] == Decimal(n / 10);
    } else {
      assert s[..0] == "";
    }
  }

  lemma {:induction false} DecimalInjective(m: nat, n: nat)
    requires Decimal(m) == Decimal(n)
    ensures m == n
    decreases m
  {
    var s, t := Decimal(m), Decimal(n);
    assert s[|s| - 1] == t[|t| - 1];
    assert Digit(m % 10) == Digit(n % 10);
    assert |Decimal(m / 10)| > 0 && |Decimal(n / 10)| > 0;
    if m >= 10 && n >= 10 {
      assert s[..|s| - 1] == Decimal(m / 10) && t[..|t| - 1] == Decimal(n / 10);
      DecimalInjective(m / 10, n / 10);
    }
  }

  /** A text splits in only one way at its first colon, */
  lemma FirstColon(a: string, b: string, c: string, d: string)
    requires a + ":" + b == c + ":" + d && ':' !in a && ':' !in c
    ensures a == c && b == d
  {
    var s, t := a + ":" + b, c + ":" + d;
    assert s[|a|] == ':' && t[|c|] == ':';
    assert forall i :: 0 <= i < |a| ==> s[i] == a[i];
    assert forall i :: 0 <= i < |c| ==> t[i] == c[i];
    assert |a| == |c|;
    assert s[..|a|] == a && t[..|c|] == c && s[|a| + 1..] == b && t[|c| + 1..] == d;
  }

  /** and in only one way at its last. */
  lemma LastColon(a: string, b: string, c: string, d: string)
    requires a + ":" + b == c + ":" + d && ':' !in b && ':' !in d
    ensures a == c && b == d
  {
    var s, t := a + ":" + b, c + ":" + d;
    assert s[|a|] == ':' && t[|c|] == ':';
    assert forall i :: |a| < i < |s| ==> s[i] == b[i - |a| - 1];
    assert forall i :: |c| < i < |t| ==> t[i] == d[i - |c| - 1];
    assert |a| == |c|;
    assert s[..|a|] == a && t[..|c|] == c && s[|a| + 1..] == b && t[|c| + 1..] == d;
  }

  /** Limiters, clients and windows never share a key: a limiter's name has no colon, a client may (IPv6). */
  lemma TextInjective(x: Id, y: Id)
    requires Text(x) == Text(y) && ':' !in x.name && ':' !in y.name
    ensures x == y
  {
    var p := "ratelimit:";
    var s, t := x.client + ":" + Decimal(x.index), y.client + ":" + Decimal(y.index);
    assert Text(x)[|p|..] == x.name + ":" + s && Text(y)[|p|..] == y.name + ":" + t;
    FirstColon(x.name, s, y.name, t);
    DecimalHasNoColon(x.index);
    DecimalHasNoColon(y.index);
    LastColon(x.client, Decimal(x.index), y.client, Decimal(y.index));
    DecimalInjective(x.index, y.index);
  }

  /** Some client and window make the two names share a counter. */
  ghost predicate ShareKeys(m: string, n: string)
  {
    exists x, y :: Text(x) == Text(y) && x.name == m && y.name == n
  }

  predicate Extends(long: string, short: string)
  {
    |short| < |long| && long[..|short|] == short && long[|short|] == ':'
  }

  lemma SharedKeyExtends(x: Id, y: Id)
    requires Text(x) == Text(y) && |x.name| <= |y.name| && x.name != y.name
    ensures Extends(y.name, x.name)
  {
    var p, m, n := "ratelimit:", x.name, y.name;
    var s, t := m + ":" + (x.client + ":" + Decimal(x.index)), n + ":" + (y.client + ":" + Decimal(y.index));
    assert Text(x)[|p|..] == s && Text(y)[|p|..] == t;
    assert s[..|m|] == m && t[..|m|] == n[..|m|];
    assert s[|m|] == ':' && (|m| < |n| ==> t[|m|] == n[|m|]);
  }

  lemma ExtensionSharesKey(m: string, n: string)
    requires Extends(n, m)
    ensures ShareKeys(m, n)
  {
    var rest := n[|m| + 1..];
    var x, y := Id(m, rest + ":", 0), Id(n, "", 0);
    var d := Decimal(0);
    assert n == m + ":" + rest;
    assert m + ":" + ((rest + ":") + ":" + d) == n + ":" + ("" + ":" + d);
    assert Text(x) == Text(y);
  }

  /** Two limiters can share a counter exactly when one name is the other, followed by a colon and something. */
  lemma NamesShareKeysExactly(m: string, n: string)
    requires m != n
    ensures ShareKeys(m, n) <==> Extends(m, n) || Extends(n, m)
  {
    if ShareKeys(m, n) {
      var x, y :| Text(x) == Text(y) && x.name == m && y.name == n;
      if |m| <= |n| {
        SharedKeyExtends(x, y);
      } else {
        SharedKeyExtends(y, x);
      }
    }
    if Extends(n, m) {
      ExtensionSharesKey(m, n);
    }
    if Extends(m, n) {
      ExtensionSharesKey(n, m);
      var x, y :| Text(x) == Text(y) && x.name == n && y.name == m;
      assert Text(y) == Text(x);
    }
  }
}
