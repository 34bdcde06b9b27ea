/** The string primitives the service relies on: trimming, case folding, byte order and decimal
    rendering, with the laws the rest of the model uses. */
module Text {

  /** Unicode White_Space, as strings.TrimSpace sees it. */
  predicate IsSpace(c: char) {
    var n := c as int;
    9 <= n <= 13 || n == 32 || n == 0x85 || n == 0xA0 || n == 0x1680 || 0x2000 <= n <= 0x200A ||
    n == 0x2028 || n == 0x2029 || n == 0x202F || n == 0x205F || n == 0x3000
  }

  /** Tab to carriage return, space, next line, and the wide and typographic spaces. */
  lemma SpacesAre(c: char)
    ensures IsSpace(c) <==>
              c in "\t\n\U{0B}\U{0C}\r \U{85}\U{A0}\U{1680}\U{2000}\U{2001}\U{2002}\U{2003}\U{2004}\U{2005}\U{2006}" ||
              c in "\U{2007}\U{2008}\U{2009}\U{200A}\U{2028}\U{2029}\U{202F}\U{205F}\U{3000}"
  {
  }

  function TrimLeft(s: string): (r: string)
    ensures r != "" ==> !IsSpace(r[0])
    ensures s != "" && !IsSpace(s[0]) ==> r == s
  {
    if s != "" && IsSpace(s[0]) then TrimLeft(s[1..]) else s
  }

  function TrimRight(s: string): (r: string)
    ensures r != "" ==> !IsSpace(r[|r| - 1])
    ensures s != "" && !IsSpace(s[|s| - 1]) ==> r == s
    ensures s != "" && !IsSpace(s[0]) ==> r != "" && r[0] == s[0]
  {
    if s != "" && IsSpace(s[|s| - 1]) then TrimRight(s[..|s| - 1]) else s
  }

  function Trim(s: string): (r: string)
    ensures r != "" ==> !IsSpace(r[0]) && !IsSpace(r[|r| - 1])
    ensures s != "" && !IsSpace(s[0]) && !IsSpace(s[|s| - 1]) ==> r == s
    ensures s != "" && !IsSpace(s[0]) ==> r != ""
  {
    TrimRight(TrimLeft(s))
  }

  /** Only blanks are cut off, all of them on either side. */
  lemma TrimCutsBlanks(s: string) returns (left: string, right: string)
    ensures s == left + Trim(s) + right
    ensures (forall c :: c in left ==> IsSpace(c)) && (forall c :: c in right ==> IsSpace(c))
  {
    hide IsSpace;
    var rest := TrimLeft(s);
    left := LeftBlanks(s);
    right := RightBlanks(rest);
  }

  lemma {:induction false} LeftBlanks(s: string) returns (left: string)
    ensures s == left + TrimLeft(s) && forall c :: c in left ==> IsSpace(c)
  {
    hide IsSpace;
    left := "";
    if s != "" && IsSpace(s[0]) {
      var more := LeftBlanks(s[1..]);
      left := [s[0]] + more;
    }
  }

  lemma {:induction false} RightBlanks(s: string) returns (right: string)
    ensures s == TrimRight(s) + right && forall c :: c in right ==> IsSpace(c)
  {
    hide IsSpace;
    right := "";
    if s != "" && IsSpace(s[|s| - 1]) {
      var more := RightBlanks(s[..|s| - 1]);
      right := more + [s[|s| - 1]];
    }
  }

  lemma TrimTwice(s: string)
    ensures Trim(Trim(s)) == Trim(s)
  {
  }

  function LowerChar(c: char): char {
    if 'A' <= c <= 'Z' then (c as int + 32) as char else c
  }

  function Lower(s: string): (r: string)
    ensures |r| == |s| && forall i :: 0 <= i < |s| ==> r[i] == LowerChar(s[i])
  {
    seq(|s|, i requires 0 <= i < |s| => LowerChar(s[i]))
  }

  /** Capital letters become small ones, everything else stays. */
  lemma LowerIs(c: char)
    ensures Lower("ABCDEFGHIJKLMNOPQRSTUVWXYZ") == "abcdefghijklmnopqrstuvwxyz"
    ensures LowerChar(c) == c || c in "ABCDEFGHIJKLMNOPQRSTUVWXYZ"
  {
  }

  predicate EqualFold(a: string, b: string) {
    Lower(a) == Lower(b)
  }

  /** strings.Contains: `part` occurs in `s`. */
  predicate Contains(s: string, part: string) {
    part <= s || (s != "" && Contains(s[1..], part))
  }

  predicate OccursAt(s: string, part: string, i: int) {
    0 <= i && i + |part| <= |s| && s[i..i + |part|] == part
  }

  lemma {:induction false} ContainsIff(s: string, part: string)
    ensures Contains(s, part) <==> exists i :: OccursAt(s, part, i)
  {
    if part <= s {
      assert OccursAt(s, part, 0);
    } else if s != "" {
      ContainsIff(s[1..], part);
      if i :| OccursAt(s[1..], part, i) {
        assert s[i + 1..i + 1 + |part|] == part;
        assert OccursAt(s, part, i + 1);
      }
      if i :| OccursAt(s, part, i) {
        assert i > 0;
        assert s[1..][i - 1..i - 1 + |part|] == part;
        assert OccursAt(s[1..], part, i - 1);
      }
    }
  }

  /** Go's string order: code points, a proper prefix first. */
  predicate Less(a: string, b: string) {
    b != "" && (a == "" || a[0] < b[0] || (a[0] == b[0] && Less(a[1..], b[1..])))
  }

  /** At the first difference the smaller code point comes first, and a text comes before its extensions. */
  lemma {:induction false} LessIff(a: string, b: string)
    ensures Less(a, b) <==>
              exists k :: 0 <= k <= |a| && k < |b| && a[..k] == b[..k] && (k == |a| || (k < |a| && a[k] < b[k]))
  {
    if a != "" && b != "" && a[0] == b[0] {
      LessIff(a[1..], b[1..]);
      if k :| 0 <= k <= |a[1..]| && k < |b[1..]| && a[1..][..k] == b[1..][..k] &&
              (k == |a[1..]| || (k < |a[1..]| && a[1..][k] < b[1..][k])) {
        assert a[..k + 1] == [a[0]] + a[1..][..k] && b[..k + 1] == [b[0]] + b[1..][..k];
      }
      if k :| 0 <= k <= |a| && k < |b| && a[..k] == b[..k] && (k == |a| || (k < |a| && a[k] < b[k])) {
        assert k > 0;
        assert a[1..][..k - 1] == a[..k][1..] && b[1..][..k - 1] == b[..k][1..];
      }
    } else {
      assert a[..0] == b[..0];
      assert b != "" && (a == "" || a[0] < b[0]) ==> Less(a, b);
      assert a != "" && b != "" ==> forall k :: 0 < k <= |a| && k < |b| ==> a[..k][0] != b[..k][0];
    }
  }

  lemma {:induction false} LessIrreflexive(a: string)
    ensures !Less(a, a)
  {
    if a != "" { LessIrreflexive(a[1..]); }
  }

  lemma {:induction false} LessTransitive(a: string, b: string, c: string)
    requires Less(a, b) && Less(b, c)
    ensures Less(a, c)
  {
    if a != "" && a[0] == b[0] && b[0] == c[0] { LessTransitive(a[1..], b[1..], c[1..]); }
  }

  lemma {:induction false} LessTotal(a: string, b: string)
    ensures Less(a, b) || Less(b, a) || a == b
  {
    if a != "" && b != "" && a[0] == b[0] {
      LessTotal(a[1..], b[1..]);
      assert a == [a[0]] + a[1..] && b == [b[0]] + b[1..];
    }
  }

  // Decimal rendering (strconv.FormatInt, %d).

  predicate IsDigit(c: char) { '0' <= c <= '9' }

  function Digits(n: nat): (s: string)
    ensures s != "" && forall i :: 0 <= i < |s| ==> IsDigit(s[i])
  {
    var last := [('0' as int + n % 10) as char];
    if n < 10 then last else Digits(n / 10) + last
  }

  function Decimal(n: int): (s: string)
    ensures s != "" && forall i :: 0 <= i < |s| ==> IsDigit(s[i]) || s[i] == '-'
  {
    if n < 0 then "-" + Digits(-n) else Digits(n)
  }

  /** The number a run of decimal digits stands for. */
  function Value(s: string): int {
    if s == "" then 0 else 10 * Value(s[..|s| - 1]) + (s[|s| - 1] as int - '0' as int)
  }

  lemma {:induction false} DigitsValue(n: nat)
    ensures Value(Digits(n)) == n && (n > 0 ==> Digits(n)[0] != '0')
  {
    var s := Digits(n);
    assert s[|s| - 1] as int - '0' as int == n % 10;
    if n < 10 {
      assert s[..|s| - 1] == "";
    } else {
      DigitsValue(n / 10);
      assert s[..|s| - 1] == Digits(n / 10);
    }
  }

  /** A minus sign for negative numbers only, then the digits of the absolute value without leading zeros. */
  lemma DecimalMeans(n: int)
    ensures n >= 0 ==> Value(Decimal(n)) == n && (n > 0 ==> Decimal(n)[0] != '0')
    ensures n < 0 ==> Decimal(n)[0] == '-' && Value(Decimal(n)[1..]) == -n && Decimal(n)[1] != '0'
  {
    if n >= 0 { DigitsValue(n); } else { DigitsValue(-n); }
  }

  lemma {:induction false} DigitsInjective(m: nat, n: nat)
    requires Digits(m) == Digits(n)
    ensures m == n
  {
    var s := Digits(m);
    assert s[|s| - 1] == ('0' as int + m % 10) as char;
    assert s[|s| - 1] == ('0' as int + n % 10) as char;
    if m >= 10 && n >= 10 {
      assert Digits(m / 10) == s[..|s| - 1] == Digits(n / 10);
      DigitsInjective(m / 10, n / 10);
    }
  }

  lemma DecimalInjective(m: int, n: int)
    requires Decimal(m) == Decimal(n)
    ensures m == n
  {
    var s := Decimal(m);
    assert IsDigit(s[0]) <==> m >= 0;
    assert IsDigit(s[0]) <==> n >= 0;
    if m < 0 {
      assert Digits(-m) == s[1..] == Digits(-n);
      DigitsInjective(-m, -n);
    } else {
      DigitsInjective(m, n);
    }
  }

  lemma SamePrefix(p: string, a: string, b: string)
    requires p + a == p + b
    ensures a == b
  {
    assert a == (p + a)[|p|..] && b == (p + b)[|p|..];
  }

  /** Two texts split at their first separator agree exactly when both halves agree. */
  lemma SplitUnique(sep: char, a: string, b: string, restA: string, restB: string)
    requires sep !in a && sep !in b
    requires a + [sep] + restA == b + [sep] + restB
    ensures a == b && restA == restB
  {
    var left, right := a + [sep] + restA, b + [sep] + restB;
    assert left[|a|] == sep && right[|b|] == sep;
    assert forall k :: 0 <= k < |a| ==> left[k] == a[k] != sep;
    assert forall k :: 0 <= k < |b| ==> right[k] == b[k] != sep;
    assert a == left[..|a|] && b == right[..|b|];
    assert restA == left[|a| + 1..] && restB == right[|b| + 1..];
  }

  /** And so do two texts split at their last separator. */
  lemma LastSplitUnique(sep: char, a: string, x: string, b: string, y: string)
    requires sep !in x && sep !in y && a + [sep] + x == b + [sep] + y
    ensures a == b && x == y
  {
    NotLonger(sep, a, x, b, y);
    NotLonger(sep, b, y, a, x);
    var left, right := a + [sep] + x, b + [sep] + y;
    assert a == left[..|a|] && b == right[..|b|];
    assert x == left[|a| + 1..] && y == right[|b| + 1..];
  }

  lemma NotLonger(sep: char, a: string, x: string, b: string, y: string)
    requires sep !in x && a + [sep] + x == b + [sep] + y
    ensures |b| <= |a|
  {
    var left, right := a + [sep] + x, b + [sep] + y;
    assert right[|b|] == sep;
    assert forall k :: |a| < k < |left| ==> left[k] == x[k - |a| - 1];
  }
}
