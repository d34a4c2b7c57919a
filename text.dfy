/** Strings as the email service's Go code uses them: substring search
    (`strings.Contains`, `strings.HasPrefix`), decimal formatting of an `int`
    (the `%d` verb of `fmt`) and the byte length of a string (Go's `len`,
    which counts the bytes of the UTF-8 encoding). */
module Text {

  // ---------------------------------------------------------------------------
  // Substrings
  // ---------------------------------------------------------------------------

  /** `p` occurs in `s` starting at index `i`. */
  predicate OccursAt(s: string, p: string, i: int) {
    0 <= i && i + |p| <= |s| && s[i..i + |p|] == p
  }

  /** Go's `strings.Contains(s, p)`. */
  ghost predicate Contains(s: string, p: string) {
    exists i :: OccursAt(s, p, i)
  }

  /** An occurrence of `x` inside `s` is still an occurrence, shifted by `|a|`,
      once `s` is surrounded by `a` and `b`. */
  lemma OccursAtShift(a: string, s: string, b: string, p: string, i: int)
    requires OccursAt(s, p, i)
    ensures OccursAt(a + s + b, p, |a| + i)
  {
    assert (a + s + b)[|a| + i..|a| + i + |p|] == s[i..i + |p|];
  }

  /** A string placed between two others occurs right after the first one. */
  lemma InfixOccurs(a: string, x: string, b: string)
    ensures OccursAt(a + x + b, x, |a|)
  {
    assert (a + x + b)[|a|..|a| + |x|] == x;
  }

  /** Whatever `s` contains, every string built around `s` contains. */
  lemma ContainsWithin(a: string, s: string, b: string, p: string)
    requires Contains(s, p)
    ensures Contains(a + s + b, p)
  {
    var i :| OccursAt(s, p, i);
    OccursAtShift(a, s, b, p, i);
  }

  /** An occurrence of `p` in `a + b` lies inside `a`, inside `b`, or across the
      seam, and in the last case both the last character of `a` and the first
      character of `b` are characters of `p`. So a seam whose two sides are
      characters `p` does not use cannot produce a new occurrence. */
  lemma ContainsSplit(a: string, b: string, p: string)
    requires Contains(a + b, p)
    ensures Contains(a, p) || Contains(b, p)
         || (0 < |a| && 0 < |b| && a[|a| - 1] in p && b[0] in p)
  {
    var i :| OccursAt(a + b, p, i);
    var s := a + b;
    if i + |p| <= |a| {
      assert s[i..i + |p|] == a[i..i + |p|];
      assert OccursAt(a, p, i);
    } else if |a| <= i {
      assert s[i..i + |p|] == b[i - |a|..i - |a| + |p|];
      assert OccursAt(b, p, i - |a|);
    } else {
      assert s[i..i + |p|][|a| - 1 - i] == a[|a| - 1];
      assert s[i..i + |p|][|a| - i] == b[0];
    }
  }

  /** An occurrence survives appending text on the right. */
  lemma OccursAtExtends(s: string, t: string, p: string, i: int)
    requires OccursAt(s, p, i)
    ensures OccursAt(s + t, p, i)
  {
    assert (s + t)[i..i + |p|] == s[i..i + |p|];
  }

  /** An occurrence survives prepending text on the left, shifted by its length. */
  lemma OccursAtShifts(a: string, s: string, p: string, i: int)
    requires OccursAt(s, p, i)
    ensures OccursAt(a + s, p, |a| + i)
  {
    assert (a + s)[|a| + i..|a| + i + |p|] == s[i..i + |p|];
  }

  lemma ContainsLeft(s: string, t: string, p: string)
    requires Contains(s, p)
    ensures Contains(s + t, p)
  {
    var i :| OccursAt(s, p, i);
    OccursAtExtends(s, t, p, i);
  }

  /** The same, as a step of a proof that builds a string piece by piece:
      `t` is `s + c`, and it still contains `p`. */
  lemma AppendKeepsContains(s: string, c: string, p: string) returns (t: string)
    requires Contains(s, p)
    ensures t == s + c && Contains(t, p)
  {
    ContainsLeft(s, c, p);
    t := s + c;
  }

  lemma ContainsRight(a: string, s: string, p: string)
    requires Contains(s, p)
    ensures Contains(a + s, p)
  {
    var i :| OccursAt(s, p, i);
    OccursAtShifts(a, s, p, i);
  }

  /** An occurrence inside an occurrence is an occurrence. */
  lemma OccursAtNested(s: string, w: string, i: int, x: string, j: int)
    requires OccursAt(s, w, i) && OccursAt(w, x, j)
    ensures OccursAt(s, x, i + j)
  {
    var sw := s[i..i + |w|];
    assert sw[j..j + |x|] == x;
    forall k | 0 <= k < |x| ensures s[i + j + k] == x[k] {
      assert s[i + j + k] == sw[j + k];
    }
    assert s[i + j..i + j + |x|] == x;
  }

  /** A string appended last occurs right after what precedes it. */
  lemma SuffixOccurs(a: string, x: string)
    ensures OccursAt(a + x, x, |a|)
  {
    assert (a + x)[|a|..|a| + |x|] == x;
  }

  /** Every string occurs in itself, at its start. */
  lemma OccursSelf(p: string)
    ensures OccursAt(p, p, 0)
  {
    assert p[0..|p|] == p;
  }

  /** `strings.Contains` is transitive. */
  lemma ContainsNested(s: string, w: string, x: string)
    requires Contains(s, w) && Contains(w, x)
    ensures Contains(s, x)
  {
    var i :| OccursAt(s, w, i);
    var j :| OccursAt(w, x, j);
    OccursAtNested(s, w, i, x, j);
  }

  /** Whether the seam between `a` and `b` can be ignored: a character next to
      it that `p` does not use keeps any occurrence of `p` on one side. */
  lemma ContainsAppendIff(a: string, b: string, p: string)
    requires (a != [] && a[|a| - 1] !in p) || (b != [] && b[0] !in p)
    ensures Contains(a + b, p) <==> Contains(a, p) || Contains(b, p)
  {
    if Contains(a + b, p) {
      ContainsSplit(a, b, p);
    }
    if Contains(a, p) {
      ContainsLeft(a, b, p);
    }
    if Contains(b, p) {
      ContainsRight(a, b, p);
    }
  }

  /** A string in which some character of `p` never appears does not contain `p`. */
  lemma AbsentCharNoContains(s: string, p: string, j: nat)
    requires j < |p|
    requires forall i | 0 <= i < |s| :: s[i] != p[j]
    ensures !Contains(s, p)
  {
    forall i ensures !OccursAt(s, p, i) {
      if 0 <= i && i + |p| <= |s| {
        assert s[i..i + |p|][j] == s[i + j];
      }
    }
  }

  /** The same, for two adjacent characters of `p` that never appear together. */
  lemma AbsentPairNoContains(s: string, p: string, j: nat)
    requires j + 1 < |p|
    requires forall i | 0 <= i < |s| - 1 :: s[i] != p[j] || s[i + 1] != p[j + 1]
    ensures !Contains(s, p)
  {
    forall i ensures !OccursAt(s, p, i) {
      if 0 <= i && i + |p| <= |s| {
        assert s[i..i + |p|][j] == s[i + j];
        assert s[i..i + |p|][j + 1] == s[i + j + 1];
      }
    }
  }

  /** The same, for three adjacent characters of `p`. */
  lemma AbsentTripleNoContains(s: string, p: string, j: nat)
    requires j + 2 < |p|
    requires forall i | 0 <= i < |s| - 2 :: s[i] != p[j] || s[i + 1] != p[j + 1] || s[i + 2] != p[j + 2]
    ensures !Contains(s, p)
  {
    forall i ensures !OccursAt(s, p, i) {
      if 0 <= i && i + |p| <= |s| {
        assert s[i..i + |p|][j] == s[i + j];
        assert s[i..i + |p|][j + 1] == s[i + j + 1];
        assert s[i..i + |p|][j + 2] == s[i + j + 2];
      }
    }
  }

  /** `s` does not contain `p`, and neither of its ends can take part in an
      occurrence of `p` that crosses into a neighbouring string. */
  ghost predicate Sealed(s: string, p: string) {
    s != [] && s[0] !in p && s[|s| - 1] !in p && !Contains(s, p)
  }

  /** Appending `c` to a string that ends with a character `p` does not use
      keeps `p` out; `t` is the longer string, with its two ends. */
  lemma ExtendAfter(s: string, c: string, p: string) returns (t: string)
    requires !Contains(s, p) && !Contains(c, p) && s != [] && s[|s| - 1] !in p
    ensures t == s + c && !Contains(t, p) && t[0] == s[0]
    ensures c != [] ==> t[|t| - 1] == c[|c| - 1]
  {
    ContainsAppendIff(s, c, p);
    t := s + c;
  }

  /** The same, when `c` starts with a character `p` does not use. */
  lemma ExtendBefore(s: string, c: string, p: string) returns (t: string)
    requires !Contains(s, p) && !Contains(c, p) && s != [] && c != [] && c[0] !in p
    ensures t == s + c && !Contains(t, p) && t[0] == s[0] && t[|t| - 1] == c[|c| - 1]
  {
    ContainsAppendIff(s, c, p);
    t := s + c;
  }

  /** `b` starts with no proper tail of `p`, so no occurrence of `p` can begin
      before `b` and end inside it. */
  predicate StartsClearOf(b: string, p: string) {
    forall k :: 0 < k < |p| ==> !HasPrefix(b, p[k..])
  }

  /** Appending a string that starts clear of `p` neither creates nor destroys
      an occurrence of `p`. */
  lemma ContainsAppendClearIff(a: string, b: string, p: string)
    requires StartsClearOf(b, p)
    ensures Contains(a + b, p) <==> Contains(a, p) || Contains(b, p)
  {
    if Contains(a + b, p) {
      var s := a + b;
      var i :| OccursAt(s, p, i);
      if i + |p| <= |a| {
        assert s[i..i + |p|] == a[i..i + |p|];
        assert OccursAt(a, p, i);
      } else if |a| <= i {
        assert s[i..i + |p|] == b[i - |a|..i - |a| + |p|];
        assert OccursAt(b, p, i - |a|);
      } else {
        var k := |a| - i;
        assert b[..|p| - k] == s[|a|..i + |p|] == p[k..];
        assert HasPrefix(b, p[k..]);
        assert false;
      }
    }
    if Contains(a, p) {
      ContainsLeft(a, b, p);
    }
    if Contains(b, p) {
      ContainsRight(a, b, p);
    }
  }

  /** An occurrence that ends before `b` starts is an occurrence in `a`. */
  lemma OccursInLeft(a: string, b: string, p: string, i: int)
    requires OccursAt(a + b, p, i) && i + |p| <= |a|
    ensures OccursAt(a, p, i)
  {
    assert (a + b)[i..i + |p|] == a[i..i + |p|];
  }

  /** The characters of an occurrence are those of `p`. */
  lemma OccursAtChar(s: string, p: string, i: int, k: int)
    requires OccursAt(s, p, i) && 0 <= k < |p|
    ensures s[i + k] == p[k]
  {
    assert s[i..i + |p|][k] == s[i + k];
  }

  /** Every character of `p` but the last is in `p[..|p| - 1]`, and every one
      but the first in `p[1..]`. */
  lemma SliceHolds(p: string, k: int)
    requires 0 <= k < |p| - 1
    ensures p[k] in p[..|p| - 1] && p[k + 1] in p[1..]
  {
    assert p[..|p| - 1][k] == p[k] && p[1..][k] == p[k + 1];
  }

  /** An occurrence of `p` across the seam of `a + b` ends `a` with a character
      that `p` has before its last one and starts `b` with a character that
      `p` has after its first one. So either of those two characters being
      outside that part of `p` keeps every occurrence on one side. */
  lemma ContainsAppendInnerIff(a: string, b: string, p: string)
    requires p != []
    requires (a != [] && a[|a| - 1] !in p[..|p| - 1]) || (b != [] && b[0] !in p[1..])
    ensures Contains(a + b, p) <==> Contains(a, p) || Contains(b, p)
  {
    if Contains(a + b, p) {
      var s := a + b;
      var i :| OccursAt(s, p, i);
      if i + |p| <= |a| {
        OccursInLeft(a, b, p, i);
      } else if |a| <= i {
        assert s[i..i + |p|] == b[i - |a|..i - |a| + |p|];
        assert OccursAt(b, p, i - |a|);
      } else {
        var k := |a| - i;
        OccursAtChar(s, p, i, k - 1);
        OccursAtChar(s, p, i, k);
        SliceHolds(p, k - 1);
      }
    }
    if Contains(a, p) {
      ContainsLeft(a, b, p);
    }
    if Contains(b, p) {
      ContainsRight(a, b, p);
    }
  }

  /** `s` does not contain `p`, and no occurrence of `p` can cross either of
      its ends: it does not start with a character that `p` has after its
      first one, nor end with one that `p` has before its last one. (For `p`
      a word, `Sealed` is the simpler, stronger form of this.) */
  ghost predicate Shut(s: string, p: string) {
    p != [] && s != [] && s[0] !in p[1..] && s[|s| - 1] !in p[..|p| - 1] && !Contains(s, p)
  }

  /** Appending `c` to a string whose last character cannot lead into `p`
      keeps `p` out; `t` is the longer string, with its two ends. */
  lemma ShutAfter(s: string, c: string, p: string) returns (t: string)
    requires p != [] && !Contains(s, p) && !Contains(c, p) && s != [] && s[|s| - 1] !in p[..|p| - 1]
    ensures t == s + c && !Contains(t, p) && t[0] == s[0]
    ensures c != [] ==> t[|t| - 1] == c[|c| - 1]
  {
    ContainsAppendInnerIff(s, c, p);
    t := s + c;
  }

  /** The same, when the first character of `c` cannot continue `p`. */
  lemma ShutBefore(s: string, c: string, p: string) returns (t: string)
    requires p != [] && !Contains(s, p) && !Contains(c, p) && s != [] && c != [] && c[0] !in p[1..]
    ensures t == s + c && !Contains(t, p) && t[0] == s[0] && t[|t| - 1] == c[|c| - 1]
  {
    ContainsAppendInnerIff(s, c, p);
    t := s + c;
  }

  /** `p` occurs in `s` at one position and at no other. */
  ghost predicate OccursOnce(s: string, p: string) {
    exists i :: OccursAt(s, p, i) && forall j :: OccursAt(s, p, j) ==> j == i
  }

  /** A text without `p`, then `p`, then characters none of which is the first
      character of `p`, holds `p` exactly once, provided that `p` does not
      repeat its first character. */
  lemma OnceBeforeTail(a: string, p: string, w: string)
    requires p != [] && !Contains(a, p)
    requires forall k :: 0 < k < |p| ==> p[k] != p[0]
    requires forall k :: 0 <= k < |w| ==> w[k] != p[0]
    ensures OccursOnce(a + p + w, p)
  {
    var s := a + (p + w);
    assert s == a + p + w;
    assert s[|a|..|a| + |p|] == p;
    assert OccursAt(s, p, |a|);
    forall j | OccursAt(s, p, j)
      ensures j == |a|
    {
      OccursAtChar(s, p, j, 0);
      if j + |p| <= |a| {
        OccursInLeft(a, p + w, p, j);
      } else if j < |a| {
        OccursAtChar(s, p, j, |a| - j);
        OccursAtChar(s, p, |a|, 0);
      } else if |a| < j < |a| + |p| {
        OccursAtChar(s, p, |a|, j - |a|);
      }
    }
  }

  /** Go's `strings.HasPrefix(s, p)`. */
  predicate HasPrefix(s: string, p: string) {
    OccursAt(s, p, 0)
  }

  /** Go's `strings.HasSuffix(s, p)`. */
  predicate HasSuffix(s: string, p: string) {
    |p| <= |s| && OccursAt(s, p, |s| - |p|)
  }

  lemma PrefixOfAppend(p: string, t: string)
    ensures HasPrefix(p + t, p)
  {
    assert (p + t)[..|p|] == p;
  }

  lemma PrefixExtends(s: string, t: string, p: string)
    requires HasPrefix(s, p)
    ensures HasPrefix(s + t, p)
  {
    OccursAtExtends(s, t, p, 0);
  }

  /** A prefix survives appending, as a step of a proof that builds a string
      piece by piece: `t` is `s + c`, and it still starts with `p`. */
  lemma AppendKeepsPrefix(s: string, c: string, p: string) returns (t: string)
    requires HasPrefix(s, p)
    ensures t == s + c && HasPrefix(t, p)
  {
    PrefixExtends(s, c, p);
    t := s + c;
  }

  lemma SuffixOfAppend(a: string, p: string)
    ensures HasSuffix(a + p, p)
  {
    assert (a + p)[|a|..] == p;
  }

  lemma SuffixExtends(a: string, s: string, p: string)
    requires HasSuffix(s, p)
    ensures HasSuffix(a + s, p)
  {
    OccursAtShifts(a, s, p, |s| - |p|);
  }

  lemma FirstOfPrefix(s: string, p: string)
    requires HasPrefix(s, p) && p != []
    ensures s != [] && s[0] == p[0]
  {
    assert s[0..|p|][0] == s[0];
  }

  lemma LastOfSuffix(s: string, p: string)
    requires HasSuffix(s, p) && p != []
    ensures s != [] && s[|s| - 1] == p[|p| - 1]
  {
    assert s[|s| - |p|..|s|][|p| - 1] == s[|s| - 1];
  }

  /** A text `m` inserted between a string ending with `x` and one starting
      with `y` produces an occurrence of `x + m + y` across both seams. */
  lemma OccursAcross(a: string, m: string, b: string, x: string, y: string)
    requires HasSuffix(a, x) && HasPrefix(b, y)
    ensures OccursAt(a + m + b, x + m + y, |a| - |x|)
  {
    var s := a + m + b;
    var i := |a| - |x|;
    assert s[i..|a|] == x;
    assert s[|a|..|a| + |m|] == m;
    assert s[|a| + |m|..|a| + |m| + |y|] == y;
    assert s[i..i + |x + m + y|] == s[i..|a|] + s[|a|..|a| + |m|] + s[|a| + |m|..|a| + |m| + |y|];
  }

  /** `x` occurs in `s` and, after it ends, `y` occurs too. */
  ghost predicate OccursBefore(s: string, x: string, y: string) {
    exists i, j :: OccursAt(s, x, i) && OccursAt(s, y, j) && i + |x| <= j
  }

  /** A text that starts with `a + x + b + y + c` holds `x` before `y`. */
  lemma PrefixOrders(s: string, a: string, x: string, b: string, y: string, c: string)
    requires HasPrefix(s, a + x + b + y + c)
    ensures OccursBefore(s, x, y)
  {
    var w := a + x + b + y + c;
    InfixOccurs(a, x, b + y + c);
    InfixOccurs(a + x + b, y, c);
    assert a + x + (b + y + c) == w;
    OccursAtNested(s, w, 0, x, |a|);
    OccursAtNested(s, w, 0, y, |a| + |x| + |b|);
  }

  // ---------------------------------------------------------------------------
  // Whitespace
  // ---------------------------------------------------------------------------

  /** The ASCII white space that Go's `unicode.IsSpace` accepts. */
  predicate IsSpace(c: char) {
    c == ' ' || c == '\t' || c == '\n' || c == '\r' || c == '\U{0B}' || c == '\U{0C}'
  }

  predicate AllSpace(s: string) {
    forall k :: 0 <= k < |s| ==> IsSpace(s[k])
  }

  /** Go's `strings.TrimRightFunc(s, unicode.IsSpace)`: `s` without its
      trailing white space. */
  function TrimRightSpace(s: string): (r: string)
    decreases |s|
  {
    if s != [] && IsSpace(s[|s| - 1]) then TrimRightSpace(s[..|s| - 1]) else s
  }

  /** Trimming removes white space only, all of it, and keeps the rest intact. */
  lemma {:induction false} TrimRightSpaceSplits(s: string)
    ensures |TrimRightSpace(s)| <= |s|
    ensures TrimRightSpace(s) == s[..|TrimRightSpace(s)|]
    ensures AllSpace(s[|TrimRightSpace(s)|..])
    ensures TrimRightSpace(s) == [] || !IsSpace(TrimRightSpace(s)[|TrimRightSpace(s)| - 1])
    decreases |s|
  {
    if s != [] && IsSpace(s[|s| - 1]) {
      var t := s[..|s| - 1];
      TrimRightSpaceSplits(t);
      var n := |TrimRightSpace(t)|;
      assert t[..n] == s[..n];
      assert s[n..] == t[n..] + [s[|s| - 1]];
    }
  }

  /** Text followed by white space trims back to the text, when the text does
      not itself end in white space. */
  lemma {:induction false} TrimRightSpaceDropsSpace(a: string, sp: string)
    requires AllSpace(sp)
    requires a == [] || !IsSpace(a[|a| - 1])
    ensures TrimRightSpace(a + sp) == a
    decreases |sp|
  {
    if sp == [] {
      assert a + sp == a;
    } else {
      assert (a + sp)[..|a + sp| - 1] == a + sp[..|sp| - 1];
      TrimRightSpaceDropsSpace(a, sp[..|sp| - 1]);
    }
  }

  /** Trimming only looks at the right end: text prepended on the left is kept
      whole, as long as something other than white space follows it. */
  lemma {:induction false} TrimRightSpaceKeepsLeft(x: string, s: string)
    requires TrimRightSpace(s) != []
    ensures TrimRightSpace(x + s) == x + TrimRightSpace(s)
    decreases |s|
  {
    assert s != [];
    assert (x + s)[|x + s| - 1] == s[|s| - 1];
    if IsSpace(s[|s| - 1]) {
      assert (x + s)[..|x + s| - 1] == x + s[..|s| - 1];
      TrimRightSpaceKeepsLeft(x, s[..|s| - 1]);
    }
  }

  // ---------------------------------------------------------------------------
  // Decimal formatting: the `%d` verb applied to an `int`
  // ---------------------------------------------------------------------------

  predicate IsDigit(c: char) {
    '0' <= c <= '9'
  }

  predicate AllDigits(s: string) {
    forall k :: 0 <= k < |s| ==> IsDigit(s[k])
  }

  function DigitChar(d: nat): (c: char)
    requires d < 10
    ensures IsDigit(c) && c as int - '0' as int == d
  {
    ('0' as int + d) as char
  }

  /** Decimal digits of `n`, most significant first, without leading zeros. */
  function NatDecimal(n: nat): (s: string)
    ensures 0 < |s| && AllDigits(s)
    ensures s[0] == '0' ==> n == 0
    decreases n
  {
    if n < 10 then [DigitChar(n)] else NatDecimal(n / 10) + [DigitChar(n % 10)]
  }

  /** What `fmt.Sprintf("%d", n)` prints: a minus sign before the digits of a
      negative number. */
  function Decimal(n: int): (s: string)
    ensures 0 < |s|
    ensures forall k :: 0 <= k < |s| ==> IsDigit(s[k]) || s[k] == '-'
    ensures (s[0] == '-') == (n < 0)
  {
    if n < 0 then "-" + NatDecimal(-n) else NatDecimal(n)
  }

  /** The value of a string of decimal digits (the reading `strconv.Atoi`
      gives it). */
  function ParseNat(s: string): nat
    requires AllDigits(s)
    decreases |s|
  {
    if s == [] then 0 else 10 * ParseNat(s[..|s| - 1]) + (s[|s| - 1] as int - '0' as int)
  }

  function ParseDecimal(s: string): int
    requires 0 < |s|
    requires forall k :: 0 <= k < |s| ==> IsDigit(s[k]) || s[k] == '-'
    requires AllDigits(s[1..])
  {
    if s[0] == '-' then 0 - ParseNat(s[1..]) else ParseNat(s)
  }

  /** Reading back the digits gives the number. */
  lemma {:induction false} NatDecimalRoundTrip(n: nat)
    ensures ParseNat(NatDecimal(n)) == n
  {
    if n >= 10 {
      var s := NatDecimal(n);
      assert s[..|s| - 1] == NatDecimal(n / 10);
      NatDecimalRoundTrip(n / 10);
    }
  }

  /** `Decimal` loses nothing: the printed year can be read back exactly, so two
      different years never print alike. */
  lemma DecimalRoundTrip(n: int)
    ensures AllDigits(Decimal(n)[1..])
    ensures ParseDecimal(Decimal(n)) == n
  {
    if n < 0 {
      assert Decimal(n)[1..] == NatDecimal(-n);
      NatDecimalRoundTrip(-n);
    } else {
      NatDecimalRoundTrip(n);
    }
  }

  /** A text that holds a character other than a digit or a minus sign never
      occurs in a printed number. */
  lemma DecimalContainsOnlyNumerals(n: int, p: string, c: char)
    requires c in p && !IsDigit(c) && c != '-'
    ensures !Contains(Decimal(n), p)
  {
  }

  // ---------------------------------------------------------------------------
  // Byte length: Go strings are UTF-8 byte sequences
  // ---------------------------------------------------------------------------

  newtype byte = b: int | 0 <= b < 256

  /** The UTF-8 encoding of one Unicode scalar value (RFC 3629, section 3). */
  function EncodeRune(c: char): (bs: seq<byte>)
    ensures 1 <= |bs| <= 4
    ensures (|bs| == 1) == (c as int < 0x80)
    ensures |bs| == 1 ==> bs[0] as int == c as int
  {
    var v := c as int;
    if v < 0x80 then
      [v as byte]
    else if v < 0x800 then
      [(0xC0 + v / 0x40) as byte, (0x80 + v % 0x40) as byte]
    else if v < 0x10000 then
      [(0xE0 + v / 0x1000) as byte, (0x80 + v / 0x40 % 0x40) as byte, (0x80 + v % 0x40) as byte]
    else
      [(0xF0 + v / 0x40000) as byte, (0x80 + v / 0x1000 % 0x40) as byte,
       (0x80 + v / 0x40 % 0x40) as byte, (0x80 + v % 0x40) as byte]
  }

  /** The bytes Go stores for a string. */
  function Utf8(s: string): (bs: seq<byte>)
    ensures |s| <= |bs| <= 4 * |s|
    decreases |s|
  {
    if s == [] then [] else EncodeRune(s[0]) + Utf8(s[1..])
  }

  predicate IsAscii(s: string) {
    forall k :: 0 <= k < |s| ==> s[k] as int < 0x80
  }

  /** Encoding distributes over concatenation. */
  lemma {:induction false} Utf8Append(a: string, b: string)
    ensures Utf8(a + b) == Utf8(a) + Utf8(b)
    decreases |a|
  {
    if a != [] {
      assert (a + b)[0] == a[0];
      assert (a + b)[1..] == a[1..] + b;
      Utf8Append(a[1..], b);
      calc {
        Utf8(a + b);
        EncodeRune(a[0]) + Utf8(a[1..] + b);
        EncodeRune(a[0]) + (Utf8(a[1..]) + Utf8(b));
        (EncodeRune(a[0]) + Utf8(a[1..])) + Utf8(b);
        Utf8(a) + Utf8(b);
      }
    } else {
      assert a + b == b;
    }
  }

  /** On ASCII text Go's byte length is the character count, and byte `k` is
      character `k`. */
  lemma {:induction false} Utf8Ascii(s: string)
    requires IsAscii(s)
    ensures |Utf8(s)| == |s|
    ensures forall k :: 0 <= k < |s| ==> Utf8(s)[k] as int == s[k] as int
    decreases |s|
  {
    if s != [] {
      Utf8Ascii(s[1..]);
    }
  }
}
