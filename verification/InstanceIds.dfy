/** Instance names: `inst-<model>-pp<rank>` for a pipeline rank and
    `inst-<model>-web` for the single instance the console deploys.
    Two deployments contend for an id only if they mean the same model and rank. */
module InstanceIds {

  const DIGITS := "0123456789"

  function Decimal(n: nat): (s: string)
    ensures |s| > 0
    ensures forall i :: 0 <= i < |s| ==> s[i] in DIGITS
    decreases n
  {
    if n < 10 then [DIGITS[n]] else Decimal(n / 10) + [DIGITS[n % 10]]
  }

  function PPInstanceId(model: string, rank: nat): string {
    "inst-" + model + "-pp" + Decimal(rank)
  }

  function WebInstanceId(model: string): string {
    "inst-" + model + "-web"
  }

  lemma {:induction false} DecimalInjective(a: nat, b: nat)
    requires Decimal(a) == Decimal(b)
    ensures a == b
    decreases a
  {
    var s, t := Decimal(a), Decimal(b);
    assert s[|s| - 1] == DIGITS[a % 10] && t[|t| - 1] == DIGITS[b % 10];
    if a >= 10 && b >= 10 {
      assert Decimal(a / 10) == s[..|s| - 1] == t[..|t| - 1] == Decimal(b / 10);
      DecimalInjective(a / 10, b / 10);
    }
  }

  /** The number a string of digits stands for. */
  function Value(s: string): int {
    if s == "" then 0 else 10 * Value(s[..|s| - 1]) + (s[|s| - 1] as int - '0' as int)
  }

  /** Decimal writes the number, without a leading zero. */
  lemma {:induction false} DecimalReadsBack(n: nat)
    ensures Value(Decimal(n)) == n && (n > 0 ==> Decimal(n)[0] != '0')
    decreases n
  {
    var s := Decimal(n);
    assert DIGITS[n % 10] as int - '0' as int == n % 10;
    if n >= 10 {
      DecimalReadsBack(n / 10);
      assert s[..|s| - 1] == Decimal(n / 10);
    } else {
      assert s[..0] == "" && s == [DIGITS[n]];
    }
  }

  /** Digits hold no 'p', so the rank can be read back from the end of the id. */
  lemma PPInstanceIdInjective(m1: string, r1: nat, m2: string, r2: nat)
    requires PPInstanceId(m1, r1) == PPInstanceId(m2, r2)
    ensures m1 == m2 && r1 == r2
  {
    var a, b := PPInstanceId(m1, r1), PPInstanceId(m2, r2);
    var d1, d2 := Decimal(r1), Decimal(r2);
    assert a[|a| - |d1| - 1] == 'p' && b[|b| - |d2| - 1] == 'p';
    assert |d1| == |d2|;
    assert d1 == a[|a| - |d1|..] == b[|b| - |d2|..] == d2;
    assert m1 == a[5..|a| - |d1| - 3] == b[5..|b| - |d2| - 3] == m2;
    DecimalInjective(r1, r2);
  }

  lemma WebInstanceIdInjective(m1: string, m2: string)
    requires WebInstanceId(m1) == WebInstanceId(m2)
    ensures m1 == m2
  {
    var a, b := WebInstanceId(m1), WebInstanceId(m2);
    assert m1 == a[5..|a| - 4] == b[5..|b| - 4] == m2;
  }

  lemma WebIsNoRank(m1: string, m2: string, r: nat)
    ensures WebInstanceId(m1) != PPInstanceId(m2, r)
  {
    var a, b := WebInstanceId(m1), PPInstanceId(m2, r);
    assert a[|a| - 1] == 'b';
    assert b[|b| - 1] == Decimal(r)[|Decimal(r)| - 1];
  }
}
