/** Strings as the agent uses them: decimal rendering, the order that
    strings.Compare gives command ids, and the text key of a rejection. */
module Text {

  // ---------- decimal rendering (strconv.Itoa) ----------

  function Digit(d: nat): char
    requires d < 10
  {
    "0123456789"[d]
  }

  function Decimal(n: nat): string {
    if n < 10 then [Digit(n)] else Decimal(n / 10) + [Digit(n % 10)]
  }

  function Itoa(n: int): string {
    if n < 0 then "-" + Decimal(-n) else Decimal(n)
  }

  lemma {:induction false} DecimalHasDigits(n: nat)
    ensures |Decimal(n)| > 0
    ensures forall i :: 0 <= i < |Decimal(n)| ==> '0' <= Decimal(n)[i] <= '9'
  {
    if n >= 10 { DecimalHasDigits(n / 10); }
  }

  lemma DigitInjective(d: nat, e: nat)
    requires d < 10 && e < 10 && Digit(d) == Digit(e)
    ensures d == e
  {
  }

  lemma DecimalSplits(n: nat)
    ensures Decimal(n)[|Decimal(n)| - 1] == Digit(n % 10)
    ensures |Decimal(n)| > 1 <==> n >= 10
    ensures n >= 10 ==> Decimal(n)[..|Decimal(n)| - 1] == Decimal(n / 10)
  {
    if n >= 10 { DecimalHasDigits(n / 10); }
  }

  lemma {:induction false} DecimalInjective(m: nat, n: nat)
    requires Decimal(m) == Decimal(n)
    ensures m == n
    decreases m
  {
    DecimalSplits(m);
    DecimalSplits(n);
    DigitInjective(m % 10, n % 10);
    if m >= 10 { DecimalInjective(m / 10, n / 10); }
  }

  lemma ItoaInjective(m: int, n: int)
    requires Itoa(m) == Itoa(n)
    ensures m == n
  {
    ItoaSign(m);
    ItoaSign(n);
    DecimalInjective(if m < 0 then -m else m, if n < 0 then -n else n);
  }

  lemma ItoaSign(n: int)
    ensures |Itoa(n)| > 0 && (n < 0 <==> Itoa(n)[0] == '-')
    ensures Decimal(if n < 0 then -n else n) == if n < 0 then Itoa(n)[1..] else Itoa(n)
  {
    DecimalHasDigits(if n < 0 then -n else n);
  }

  lemma ItoaHasNoBar(n: int)
    ensures '|' !in Itoa(n)
  {
    DecimalHasDigits(if n < 0 then -n else n);
  }

  // ---------- the rejection key ----------

  function BarKey(command: string, kind: int, seqNo: int): string {
    command + "|" + Itoa(kind) + "|" + Itoa(seqNo)
  }

  lemma LastBar(a: string, x: string)
    requires '|' !in x
    ensures (a + "|" + x)[|a|] == '|'
    ensures forall i :: |a| < i < |a + "|" + x| ==> (a + "|" + x)[i] != '|'
  {
    forall i | |a| < i < |a + "|" + x| ensures (a + "|" + x)[i] != '|' {
      assert (a + "|" + x)[i] == x[i - |a| - 1];
    }
  }

  lemma SplitAtLastBar(a: string, x: string, b: string, y: string)
    requires a + "|" + x == b + "|" + y
    requires '|' !in x && '|' !in y
    ensures a == b && x == y
  {
    LastBar(a, x);
    LastBar(b, y);
    var s, t := a + "|" + x, b + "|" + y;
    assert |a| == |b|;
    assert s[..|a|] == a && t[..|b|] == b;
    assert s[|a| + 1..] == x && t[|b| + 1..] == y;
  }

  /** A command id may itself contain bars: the key is still unambiguous. */
  lemma BarKeyInjective(c: string, k: int, s: int, c': string, k': int, s': int)
    requires BarKey(c, k, s) == BarKey(c', k', s')
    ensures c == c' && k == k' && s == s'
  {
    ItoaHasNoBar(k); ItoaHasNoBar(k'); ItoaHasNoBar(s); ItoaHasNoBar(s');
    SplitAtLastBar(c + "|" + Itoa(k), Itoa(s), c' + "|" + Itoa(k'), Itoa(s'));
    SplitAtLastBar(c, Itoa(k), c', Itoa(k'));
    ItoaInjective(k, k');
    ItoaInjective(s, s');
  }

  // ---------- the order of command ids (strings.Compare) ----------

  predicate Less(a: string, b: string) {
    b != [] && (a == [] || a[0] < b[0] || (a[0] == b[0] && Less(a[1..], b[1..])))
  }

  /** Lexicographic: behind a common prefix one string ends, or has the smaller
      character. */
  lemma {:induction false} LessIsLexicographic(a: string, b: string)
    ensures Less(a, b) <==>
              exists k: nat :: k <= |a| && k < |b| && a[..k] == b[..k] && (k == |a| || a[k] < b[k])
  {
    if a != [] && b != [] && a[0] == b[0] {
      LessIsLexicographic(a[1..], b[1..]);
      if k: nat :| k <= |a[1..]| && k < |b[1..]| && a[1..][..k] == b[1..][..k] && (k == |a[1..]| || a[1..][k] < b[1..][k]) {
        assert a[..k + 1] == [a[0]] + a[1..][..k] == b[..k + 1];
      }
      if k: nat :| k <= |a| && k < |b| && a[..k] == b[..k] && (k == |a| || a[k] < b[k]) {
        assert a[1..][..k - 1] == a[..k][1..] && b[1..][..k - 1] == b[..k][1..];
      }
    } else if a != [] && b != [] {
      assert a[..0] == b[..0];
      assert forall k :: 0 < k <= |a| && k < |b| ==> a[..k][0] != b[..k][0];
    } else if b != [] {
      assert a[..0] == b[..0];
    }
  }

  lemma {:induction false} LessTransitive(a: string, b: string, c: string)
    requires Less(a, b) && Less(b, c)
    ensures Less(a, c)
  {
    if a != [] && a[0] == b[0] && b[0] == c[0] {
      LessTransitive(a[1..], b[1..], c[1..]);
    }
  }

  lemma {:induction false} LessTotal(a: string, b: string)
    ensures Less(a, b) || a == b || Less(b, a)
    ensures !(Less(a, b) && Less(b, a)) && (a == b ==> !Less(a, b))
  {
    if a != [] && b != [] && a[0] == b[0] {
      LessTotal(a[1..], b[1..]);
      assert a == [a[0]] + a[1..] && b == [b[0]] + b[1..];
    }
  }
}
