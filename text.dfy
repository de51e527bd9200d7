/**
 * The two string operations the window classifier relies on: Python's
 * `str.lower()` (restricted to ASCII letters) and the substring test `p in s`.
 */
module Text {

  predicate IsUpper(c: char) {
    'A' <= c <= 'Z'
  }

  /** Lower-cases one character; only the ASCII letters A-Z change. */
  function LowerChar(c: char): (r: char)
    ensures !IsUpper(r)
    ensures IsUpper(c) ==> r as int - c as int == 'a' as int - 'A' as int
    ensures !IsUpper(c) ==> r == c
  {
    if IsUpper(c) then (c as int + ('a' as int - 'A' as int)) as char else c
  }

  /** `s.lower()`: the same length, every character lower-cased in place. */
  function Lower(s: string): (r: string)
    ensures |r| == |s|
    ensures forall i :: 0 <= i < |s| ==> r[i] == LowerChar(s[i])
    ensures forall i :: 0 <= i < |r| ==> !IsUpper(r[i])
  {
    seq(|s|, i requires 0 <= i < |s| => LowerChar(s[i]))
  }

  /** `p` occurs in `s` starting at index `i`. */
  ghost predicate OccursAt(p: string, s: string, i: int) {
    0 <= i && i + |p| <= |s| && s[i..i + |p|] == p
  }

  /** Python's `p in s`: scan `s` for a position where `p` is a prefix. */
  function Contains(s: string, p: string): (b: bool)
    ensures p == [] ==> b
    ensures b ==> |p| <= |s|
    decreases |s|
  {
    p <= s || (|s| > 0 && Contains(s[1..], p))
  }

  /** The scan finds `p` exactly when `p` occurs somewhere in `s`; in particular the empty pattern is in every string. */
  lemma {:induction false} ContainsIffOccurs(s: string, p: string)
    ensures Contains(s, p) <==> exists i :: OccursAt(p, s, i)
    decreases |s|
  {
    if p <= s {
      assert OccursAt(p, s, 0);
    } else if |s| == 0 {
    } else {
      ContainsIffOccurs(s[1..], p);
      forall i | i > 0 ensures OccursAt(p, s, i) <==> OccursAt(p, s[1..], i - 1) {
        if i + |p| <= |s| {
          assert s[1..][i - 1..i - 1 + |p|] == s[i..i + |p|];
        }
      }
      assert !OccursAt(p, s, 0);
      if Contains(s[1..], p) {
        var i :| OccursAt(p, s[1..], i);
        assert OccursAt(p, s, i + 1);
      }
    }
  }

  /** The empty pattern matches every string. */
  lemma EmptyPatternMatches(s: string)
    ensures Contains(s, "")
  {
  }

  /** Lexicographic order on strings, by character code. */
  predicate StringLe(a: string, b: string)
    decreases |a|
  {
    a == [] || (b != [] && (a[0] < b[0] || (a[0] == b[0] && StringLe(a[1..], b[1..]))))
  }

  lemma {:induction false} StringLeTotal(a: string, b: string)
    ensures StringLe(a, b) || StringLe(b, a)
    decreases |a|
  {
    if a != [] && b != [] && a[0] == b[0] {
      StringLeTotal(a[1..], b[1..]);
    }
  }

  lemma {:induction false} StringLeAntisymmetric(a: string, b: string)
    requires StringLe(a, b) && StringLe(b, a)
    ensures a == b
    decreases |a|
  {
    if a != [] {
      StringLeAntisymmetric(a[1..], b[1..]);
      assert a == [a[0]] + a[1..] && b == [b[0]] + b[1..];
    }
  }

  lemma {:induction false} StringLeTransitive(a: string, b: string, c: string)
    requires StringLe(a, b) && StringLe(b, c)
    ensures StringLe(a, c)
    decreases |a|
  {
    if a != [] && a[0] == b[0] && b[0] == c[0] {
      StringLeTransitive(a[1..], b[1..], c[1..]);
    }
  }

  /** `m` is the least element of `s`. */
  predicate IsLeast(m: string, s: set<string>) {
    m in s && forall x :: x in s ==> StringLe(m, x)
  }

  /** Every non-empty finite set of strings has exactly one least element. */
  lemma {:induction false} LeastExists(s: set<string>)
    requires s != {}
    ensures exists m :: IsLeast(m, s)
    ensures forall m, m' :: IsLeast(m, s) && IsLeast(m', s) ==> m == m'
    decreases |s|
  {
    var y :| y in s;
    if s - {y} == {} {
      assert s == {y};
      StringLeTotal(y, y);
      assert IsLeast(y, s);
    } else {
      LeastExists(s - {y});
      var m :| IsLeast(m, s - {y});
      StringLeTotal(m, y);
      if StringLe(m, y) {
        assert IsLeast(m, s);
      } else {
        forall x | x in s ensures StringLe(y, x) {
          if x != y {
            StringLeTransitive(y, m, x);
          } else {
            StringLeTotal(y, y);
          }
        }
        assert IsLeast(y, s);
      }
    }
    forall m, m' | IsLeast(m, s) && IsLeast(m', s) ensures m == m' {
      StringLeAntisymmetric(m, m');
    }
  }

  /** The elements of a finite set of strings, each once, in ascending order. */
  function Ascending(s: set<string>): (r: seq<string>)
    ensures |r| == |s|
    ensures forall x :: x in r <==> x in s
    decreases |s|
  {
    if s == {} then []
    else
      LeastExists(s);
      var m :| IsLeast(m, s);
      [m] + Ascending(s - {m})
  }
}
