/**
 * The two string operations of Python that the ledger relies on:
 * `str.lower()` (restricted to ASCII letters) and the ordering of `str`
 * values by `<=`, which compares code points left to right and puts a
 * proper prefix first. ISO dates are compared with this ordering.
 */
module Text {

  function LowerChar(c: char): char {
    if 'A' <= c <= 'Z' then (c as int + 32) as char else c
  }

  /** `s.lower()` for ASCII letters; every other character is kept. */
  function Lower(s: string): (r: string)
    ensures |r| == |s|
    ensures forall i :: 0 <= i < |s| ==> r[i] == LowerChar(s[i])
  {
    if s == [] then [] else [LowerChar(s[0])] + Lower(s[1..])
  }

  predicate IsLower(s: string) {
    Lower(s) == s
  }

  lemma LowerIsLower(s: string)
    ensures IsLower(Lower(s))
  {
    var l := Lower(s);
    assert forall i :: 0 <= i < |l| ==> Lower(l)[i] == l[i];
  }

  /** Python's `a <= b` on two strings. */
  /** `a` comes before `b` at their first difference. */
  predicate DiffersBelow(a: string, b: string) {
    exists i :: 0 <= i < |a| && i < |b| && a[..i] == b[..i] && a[i] < b[i]
  }

  function LexLe(a: string, b: string): (r: bool)
    ensures r <==> a <= b || DiffersBelow(a, b)
  {
    if a == [] then true
    else if b == [] then false
    else if a[0] < b[0] then
      assert a[..0] == b[..0];
      true
    else if a[0] == b[0] then
      SameHeadStep(a, b);
      LexLe(a[1..], b[1..])
    else
      assert forall i :: 0 < i <= |a| ==> a[..i][0] == a[0];
      assert forall i :: 0 < i <= |b| ==> b[..i][0] == b[0];
      false
  }

  /** With equal first characters, the order is decided by the rests. */
  lemma SameHeadStep(a: string, b: string)
    requires a != [] && b != [] && a[0] == b[0]
    ensures a <= b <==> a[1..] <= b[1..]
    ensures DiffersBelow(a, b) <==> DiffersBelow(a[1..], b[1..])
  {
    assert a == [a[0]] + a[1..] && b == [b[0]] + b[1..];
    if DiffersBelow(a[1..], b[1..]) {
      ConsDiffersBelow(a, b);
    }
    if DiffersBelow(a, b) {
      TailDiffersBelow(a, b);
    }
  }

  lemma ConsDiffersBelow(a: string, b: string)
    requires a != [] && b != [] && a[0] == b[0] && DiffersBelow(a[1..], b[1..])
    ensures DiffersBelow(a, b)
  {
    var i :| 0 <= i < |a[1..]| && i < |b[1..]| && a[1..][..i] == b[1..][..i] && a[1..][i] < b[1..][i];
    assert a[..i + 1] == [a[0]] + a[1..][..i] && b[..i + 1] == [b[0]] + b[1..][..i];
  }

  lemma TailDiffersBelow(a: string, b: string)
    requires a != [] && b != [] && a[0] == b[0] && DiffersBelow(a, b)
    ensures DiffersBelow(a[1..], b[1..])
  {
    var i :| 0 <= i < |a| && i < |b| && a[..i] == b[..i] && a[i] < b[i];
    assert i > 0;
    assert a[1..][..i - 1] == a[..i][1..] && b[1..][..i - 1] == b[..i][1..];
  }

  lemma {:induction false} LexLeReflexive(a: string)
    ensures LexLe(a, a)
  {
    if a != [] {
      LexLeReflexive(a[1..]);
    }
  }

  lemma {:induction false} LexLeTotal(a: string, b: string)
    ensures LexLe(a, b) || LexLe(b, a)
  {
    if a != [] && b != [] && a[0] == b[0] {
      LexLeTotal(a[1..], b[1..]);
    }
  }

  lemma {:induction false} LexLeAntisymmetric(a: string, b: string)
    requires LexLe(a, b) && LexLe(b, a)
    ensures a == b
  {
    if a != [] {
      LexLeAntisymmetric(a[1..], b[1..]);
      assert a == [a[0]] + a[1..] && b == [b[0]] + b[1..];
    }
  }

  lemma {:induction false} LexLeTransitive(a: string, b: string, c: string)
    requires LexLe(a, b) && LexLe(b, c)
    ensures LexLe(a, c)
  {
    if a != [] && a[0] == b[0] && b[0] == c[0] {
      LexLeTransitive(a[1..], b[1..], c[1..]);
    }
  }
}
