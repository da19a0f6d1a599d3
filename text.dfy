/** What the trading code uses of Python's `str`: `%0Nd` formatting,
    `str.lower()` and the ordering `sorted` applies to string keys. */
module Text {

  // ---------------------------------------------------------------------
  // Decimal formatting, as `f"{n:06d}"` does it for a non-negative n
  // ---------------------------------------------------------------------

  predicate IsDigit(c: char) { '0' <= c <= '9' }

  function DigitChar(d: nat): (c: char)
    requires d < 10
    ensures IsDigit(c) && c as int - '0' as int == d
  {
    ('0' as int + d) as char
  }

  /** The decimal digits of `n`, without leading zeros (`str(n)`). */
  function Digits(n: nat): (s: string)
    ensures |s| >= 1 && forall i :: 0 <= i < |s| ==> IsDigit(s[i])
    decreases n
  {
    if n < 10 then [DigitChar(n)] else Digits(n / 10) + [DigitChar(n % 10)]
  }

  /** Left-pads `s` with '0' up to `width` characters. */
  function ZeroPad(s: string, width: nat): (r: string)
    ensures |r| == if |s| < width then width else |s|
    ensures (forall i :: 0 <= i < |s| ==> IsDigit(s[i])) ==> forall i :: 0 <= i < |r| ==> IsDigit(r[i])
    decreases width - |s|
  {
    if |s| >= width then s else ZeroPad("0" + s, width)
  }

  /** `n` formatted with `%0<width>d`. */
  function FormatZeroPadded(n: nat, width: nat): string {
    ZeroPad(Digits(n), width)
  }

  /** The number a string of decimal digits denotes (`int(s)`). */
  function DecimalValue(s: string): int {
    if s == [] then 0
    else DecimalValue(s[..|s| - 1]) * 10 + (s[|s| - 1] as int - '0' as int)
  }

  lemma {:induction false} DigitsValue(n: nat)
    ensures DecimalValue(Digits(n)) == n
    decreases n
  {
    var s := Digits(n);
    if n >= 10 {
      DigitsValue(n / 10);
      assert s[..|s| - 1] == Digits(n / 10);
    }
  }

  lemma {:induction false} LeadingZeroValue(s: string)
    ensures DecimalValue("0" + s) == DecimalValue(s)
    decreases |s|
  {
    if s != [] {
      var t := "0" + s;
      assert t[..|t| - 1] == "0" + s[..|s| - 1];
      LeadingZeroValue(s[..|s| - 1]);
    }
  }

  lemma {:induction false} ZeroPadValue(s: string, width: nat)
    ensures DecimalValue(ZeroPad(s, width)) == DecimalValue(s)
    decreases width - |s|
  {
    if |s| < width {
      LeadingZeroValue(s);
      ZeroPadValue("0" + s, width);
    }
  }

  /** Zero-padded formatting loses nothing: the number can be read back. */
  lemma FormatZeroPaddedValue(n: nat, width: nat)
    ensures DecimalValue(FormatZeroPadded(n, width)) == n
  {
    DigitsValue(n);
    ZeroPadValue(Digits(n), width);
  }

  /** Hence distinct numbers are formatted as distinct strings. */
  lemma FormatZeroPaddedInjective(n: nat, m: nat, width: nat)
    requires n != m
    ensures FormatZeroPadded(n, width) != FormatZeroPadded(m, width)
  {
    FormatZeroPaddedValue(n, width);
    FormatZeroPaddedValue(m, width);
  }

  // ---------------------------------------------------------------------
  // str.lower(), restricted to ASCII letters
  // ---------------------------------------------------------------------

  function LowerChar(c: char): char {
    if 'A' <= c <= 'Z' then (c as int - 'A' as int + 'a' as int) as char else c
  }

  function Lower(s: string): (r: string)
    ensures |r| == |s| && forall i :: 0 <= i < |s| ==> r[i] == LowerChar(s[i])
  {
    if s == [] then [] else [LowerChar(s[0])] + Lower(s[1..])
  }

  // ---------------------------------------------------------------------
  // Python's ordering of str values: lexicographic by code point
  // ---------------------------------------------------------------------

  predicate Less(a: string, b: string)
    decreases |a|
  {
    if a == [] then b != []
    else if b == [] then false
    else if a[0] != b[0] then a[0] < b[0]
    else Less(a[1..], b[1..])
  }

  lemma {:induction false} LessIrreflexive(a: string)
    ensures !Less(a, a)
    decreases |a|
  {
    if a != [] { LessIrreflexive(a[1..]); }
  }

  lemma {:induction false} LessTransitive(a: string, b: string, c: string)
    requires Less(a, b) && Less(b, c)
    ensures Less(a, c)
    decreases |a|
  {
    if a != [] && a[0] == b[0] && b[0] == c[0] {
      LessTransitive(a[1..], b[1..], c[1..]);
    }
  }

  lemma {:induction false} LessTotal(a: string, b: string)
    requires a != b
    ensures Less(a, b) || Less(b, a)
    decreases |a|
  {
    if a != [] && b != [] && a[0] == b[0] {
      assert a == [a[0]] + a[1..] && b == [b[0]] + b[1..];
      LessTotal(a[1..], b[1..]);
    }
  }

  lemma {:induction false} LessAsymmetric(a: string, b: string)
    requires Less(a, b)
    ensures !Less(b, a)
  {
    if Less(b, a) {
      LessTransitive(a, b, a);
      LessIrreflexive(a);
    }
  }

  predicate StrictlyAscending(ks: seq<string>) {
    forall i, j :: 0 <= i < j < |ks| ==> Less(ks[i], ks[j])
  }

  /** The least element of a finite non-empty set of strings. */
  ghost function MinKey(s: set<string>): (m: string)
    requires s != {}
    ensures m in s && forall x :: x in s && x != m ==> Less(m, x)
    decreases s
  {
    var x :| x in s;
    if s == {x} then x
    else
      var y := MinKey(s - {x});
      if Less(x, y) then
        forall z | z in s && z != x ensures Less(x, z) {
          assert z in s - {x};
          if z != y { LessTransitive(x, y, z); }
        }
        x
      else
        LessTotal(x, y);
        forall z | z in s && z != y ensures Less(y, z) {
          if z == x { } else { assert z in s - {x}; }
        }
        y
  }

  /** The elements of `s` in ascending order: what `sorted` does to distinct keys. */
  ghost function SortedKeys(s: set<string>): (r: seq<string>)
    ensures StrictlyAscending(r) && |r| == |s|
    ensures forall k :: k in r <==> k in s
    decreases s
  {
    if s == {} then []
    else
      var m := MinKey(s);
      var rest := SortedKeys(s - {m});
      assert forall k :: k in rest ==> Less(m, k);
      [m] + rest
  }

  lemma HeadIsElement(s: seq<string>)
    ensures s != [] ==> s[0] in s
  {
  }

  /** A strictly ascending sequence is determined by its elements. */
  lemma {:induction false} AscendingUnique(a: seq<string>, b: seq<string>)
    requires StrictlyAscending(a) && StrictlyAscending(b)
    requires forall k :: k in a <==> k in b
    ensures a == b
    decreases |a|
  {
    if a == [] {
      HeadIsElement(b);
    } else {
      assert a[0] in a;
      assert b != [];
      assert b[0] in b;
      if a[0] != b[0] {
        var j :| 0 <= j < |b| && b[j] == a[0];
        var i :| 0 <= i < |a| && a[i] == b[0];
        assert j != 0 && i != 0;
        LessAsymmetric(b[0], b[j]);
        assert false;
      }
      forall k | k in a[1..] ensures k in b[1..] {
        var i :| 1 <= i < |a| && a[i] == k;
        LessIrreflexive(a[0]);
        assert k in b && k != b[0];
        var j :| 0 <= j < |b| && b[j] == k;
        assert j != 0;
      }
      forall k | k in b[1..] ensures k in a[1..] {
        var j :| 1 <= j < |b| && b[j] == k;
        LessIrreflexive(b[0]);
        assert k in a && k != a[0];
        var i :| 0 <= i < |a| && a[i] == k;
        assert i != 0;
      }
      AscendingUnique(a[1..], b[1..]);
      assert a == [a[0]] + a[1..] && b == [b[0]] + b[1..];
    }
  }

  /** Lists a set of strings in ascending order, least element first. */
  method SortKeys(s: set<string>) returns (r: seq<string>)
    ensures r == SortedKeys(s)
  {
    r := [];
    var rest := s;
    while rest != {}
      invariant rest <= s
      invariant StrictlyAscending(r)
      invariant forall k :: k in r <==> k in s && k !in rest
      invariant forall k, x :: k in r && x in rest ==> Less(k, x)
      decreases rest
    {
      ghost var m := MinKey(rest);
      var k :| k in rest && forall x :: x in rest && x != k ==> Less(k, x);
      r := r + [k];
      rest := rest - {k};
    }
    AscendingUnique(r, SortedKeys(s));
  }
}
