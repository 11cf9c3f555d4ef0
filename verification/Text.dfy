/** Strings as the control plane compares, trims and folds them. */
module Text {

  datatype Option<+T> = None | Some(value: T)

  /** Strict string order. Go compares UTF-8 bytes, which orders strings as their code points do. */
  predicate Less(a: string, b: string) {
    |b| != 0 &&
    (|a| == 0 || a[0] < b[0] || (a[0] == b[0] && Less(a[1..], b[1..])))
  }

  /** One text comes before another if it is the beginning of it, or has the smaller character where they first differ. */
  ghost predicate Precedes(a: string, b: string) { exists i :: PartAt(a, b, i) }

  predicate PartAt(a: string, b: string, i: int) {
    && 0 <= i <= |a| && i < |b| && a[..i] == b[..i] && (i == |a| || a[i] < b[i])
  }

  lemma {:induction false} LessIsPrecedes(a: string, b: string)
    ensures Less(a, b) <==> Precedes(a, b)
  {
    if |a| != 0 && |b| != 0 && a[0] == b[0] {
      LessIsPrecedes(a[1..], b[1..]);
      if i :| PartAt(a[1..], b[1..], i) {
        assert a[..i + 1] == [a[0]] + a[1..][..i] && b[..i + 1] == [b[0]] + b[1..][..i];
        assert PartAt(a, b, i + 1);
      }
      if i :| PartAt(a, b, i) {
        assert a[1..][..i - 1] == a[..i][1..] && b[1..][..i - 1] == b[..i][1..];
        assert PartAt(a[1..], b[1..], i - 1);
      }
    } else {
      if Less(a, b) { assert PartAt(a, b, 0); }
    }
  }

  lemma {:induction false} LessTotal(a: string, b: string)
    ensures Less(a, b) || a == b || Less(b, a)
  {
    if |a| != 0 && |b| != 0 && a[0] == b[0] {
      LessTotal(a[1..], b[1..]);
      if a[1..] == b[1..] {
        assert a == [a[0]] + a[1..] && b == [b[0]] + b[1..];
      }
    }
  }

  lemma {:induction false} LessIrreflexive(a: string)
    ensures !Less(a, a)
  {
    if |a| != 0 { LessIrreflexive(a[1..]); }
  }

  lemma {:induction false} LessTransitive(a: string, b: string, c: string)
    requires Less(a, b) && Less(b, c)
    ensures Less(a, c)
  {
    if |a| != 0 && a[0] == b[0] == c[0] {
      LessTransitive(a[1..], b[1..], c[1..]);
    }
  }

  lemma LessAsymmetric(a: string, b: string)
    requires Less(a, b)
    ensures !Less(b, a)
  {
    if Less(b, a) {
      LessTransitive(a, b, a);
      LessIrreflexive(a);
    }
  }

  function Digit(d: nat): char
    requires d < 10
  {
    ('0' as int + d) as char
  }

  function Decimal(n: nat): (s: string)
    ensures |s| > 0 && forall i :: 0 <= i < |s| ==> '0' <= s[i] <= '9'
  {
    if n < 10 then [Digit(n)] else Decimal(n / 10) + [Digit(n % 10)]
  }

  /** An integer as fmt.Sprint writes it. */
  function Sprint(i: int): string { if i < 0 then "-" + Decimal(-i) else Decimal(i) }

  /** White space in the Unicode sense, the set that strings.TrimSpace removes. */
  predicate IsSpace(c: char) {
    var n := c as int;
    9 <= n <= 13 || n == 0x20 || n == 0x85 || n == 0xA0 || n == 0x1680 || 0x2000 <= n <= 0x200A
    || n == 0x2028 || n == 0x2029 || n == 0x202F || n == 0x205F || n == 0x3000
  }

  function TrimSpace(s: string): (r: string)
    ensures |r| != 0 ==> !IsSpace(r[0]) && !IsSpace(r[|r| - 1])
  {
    if |s| == 0 then s
    else if IsSpace(s[0]) then TrimSpace(s[1..])
    else if IsSpace(s[|s| - 1]) then TrimSpace(s[..|s| - 1])
    else s
  }

  predicate Blank(s: string) { TrimSpace(s) == "" }

  /** What is left of a text without the white space around it, stated by where it begins and ends. */
  ghost predicate Core(s: string, x: string) { exists i, j :: CoreAt(s, x, i, j) }

  predicate CoreAt(s: string, x: string, i: int, j: int) {
    && 0 <= i <= j <= |s| && x == s[i..j]
    && (forall k :: 0 <= k < |s| && (k < i || j <= k) ==> IsSpace(s[k]))
    && (i < j ==> !IsSpace(s[i]) && !IsSpace(s[j - 1]))
  }

  /** The text has something to read in it. */
  predicate Visible(s: string) { exists k :: 0 <= k < |s| && !IsSpace(s[k]) }

  lemma SpaceBefore(s: string, x: string)
    requires |s| > 0 && IsSpace(s[0]) && Core(s[1..], x)
    ensures Core(s, x)
  {
    hide IsSpace;
    var i, j :| CoreAt(s[1..], x, i, j);
    assert forall k :: 0 < k < |s| ==> s[k] == s[1..][k - 1];
    assert CoreAt(s, x, i + 1, j + 1);
  }

  lemma SpaceAfter(s: string, x: string)
    requires |s| > 0 && IsSpace(s[|s| - 1]) && Core(s[..|s| - 1], x)
    ensures Core(s, x)
  {
    hide IsSpace;
    var i, j :| CoreAt(s[..|s| - 1], x, i, j);
    assert CoreAt(s, x, i, j);
  }

  lemma {:induction false} TrimSpaceIsCore(s: string)
    ensures Core(s, TrimSpace(s))
  {
    hide IsSpace, Core;
    if |s| == 0 {
      NothingToTrim(s);
    } else if IsSpace(s[0]) {
      TrimSpaceIsCore(s[1..]);
      SpaceBefore(s, TrimSpace(s));
    } else if IsSpace(s[|s| - 1]) {
      TrimSpaceIsCore(s[..|s| - 1]);
      SpaceAfter(s, TrimSpace(s));
    } else {
      NothingToTrim(s);
    }
  }

  lemma NothingToTrim(s: string)
    requires |s| > 0 ==> !IsSpace(s[0]) && !IsSpace(s[|s| - 1])
    ensures Core(s, s)
  {
    assert CoreAt(s, s, 0, |s|);
  }

  lemma CoreUnique(s: string, x: string, y: string)
    requires Core(s, x) && Core(s, y)
    ensures x == y
  {
    var i, j :| CoreAt(s, x, i, j);
    var k, l :| CoreAt(s, y, k, l);
  }

  /** Trimming is the only way to get at the core, and it leaves something exactly of texts with something to read. */
  lemma TrimmedIsCore(s: string, x: string)
    ensures Core(s, x) <==> x == TrimSpace(s)
    ensures Blank(s) <==> !Visible(s)
  {
    TrimSpaceIsCore(s);
    if Core(s, x) { CoreUnique(s, x, TrimSpace(s)); }
    var i, j :| CoreAt(s, TrimSpace(s), i, j);
  }

  /** strings.EqualFold, with the Unicode simple-folding table as a parameter that maps a rune to its orbit. */
  predicate EqualFold(orbit: char -> int, a: string, b: string) {
    |a| == |b| && forall i :: 0 <= i < |a| ==> orbit(a[i]) == orbit(b[i])
  }

  /** The names differ in length or in a letter, in whatever case and with whatever space around them. */
  ghost predicate Different(orbit: char -> int, a: string, b: string) {
    exists x, y :: Core(a, x) && Core(b, y) && (|x| != |y| || exists i :: 0 <= i < |x| && orbit(x[i]) != orbit(y[i]))
  }

  lemma DifferentMeans(orbit: char -> int, a: string, b: string)
    ensures Different(orbit, a, b) <==> !EqualFold(orbit, TrimSpace(a), TrimSpace(b))
    ensures Different(orbit, a, b) ==> a != b
  {
    hide Core, TrimSpace;
    TrimmedIsCore(a, TrimSpace(a));
    TrimmedIsCore(b, TrimSpace(b));
    if Different(orbit, a, b) {
      var x, y :| Core(a, x) && Core(b, y) && (|x| != |y| || exists i :: 0 <= i < |x| && orbit(x[i]) != orbit(y[i]));
      TrimmedIsCore(a, x);
      TrimmedIsCore(b, y);
    }
  }
}
