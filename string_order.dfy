/** Python's ordering of `str` values (code point by code point, a proper
    prefix first) and `sorted(..., reverse=True)` on a list of strings. */
module StringOrder {

  /** `a <= b` on Python strings. */
  predicate LessEq(a: string, b: string)
    decreases |a|
  {
    a == [] || (b != [] && (a[0] < b[0] || (a[0] == b[0] && LessEq(a[1..], b[1..]))))
  }

  lemma {:induction false} LessEqTotal(a: string, b: string)
    ensures LessEq(a, b) || LessEq(b, a)
    decreases |a|
  {
    if a != [] && b != [] && a[0] == b[0] {
      LessEqTotal(a[1..], b[1..]);
    }
  }

  lemma {:induction false} LessEqReflexive(a: string)
    ensures LessEq(a, a)
    decreases |a|
  {
    if a != [] {
      LessEqReflexive(a[1..]);
    }
  }

  lemma {:induction false} LessEqAntisymmetric(a: string, b: string)
    requires LessEq(a, b) && LessEq(b, a)
    ensures a == b
    decreases |a|
  {
    if a != [] {
      LessEqAntisymmetric(a[1..], b[1..]);
      assert a == [a[0]] + a[1..] && b == [b[0]] + b[1..];
    }
  }

  lemma {:induction false} LessEqTransitive(a: string, b: string, c: string)
    requires LessEq(a, b) && LessEq(b, c)
    ensures LessEq(a, c)
    decreases |a|
  {
    if a != [] && a[0] == b[0] && b[0] == c[0] {
      LessEqTransitive(a[1..], b[1..], c[1..]);
    }
  }

  /** Each element is at least as large as every later one. */
  predicate Descending(s: seq<string>)
  {
    forall i, j :: 0 <= i < j < |s| ==> LessEq(s[j], s[i])
  }

  /** Insert `x` into the descending sequence `s`, before the first element
      not larger than it. */
  function Insert(x: string, s: seq<string>): (r: seq<string>)
    requires Descending(s)
    ensures Descending(r)
    ensures multiset(r) == multiset(s) + multiset{x}
    decreases |s|
  {
    if s == [] then [x]
    else if LessEq(s[0], x) then
      assert forall j :: 0 <= j < |s| ==> LessEq(s[j], x) by {
        forall j | 0 <= j < |s| ensures LessEq(s[j], x) {
          if j > 0 { LessEqTransitive(s[j], s[0], x); }
        }
      }
      ConsDescending(x, s);
      [x] + s
    else
      LessEqTotal(s[0], x);
      var t := Insert(x, s[1..]);
      assert s == [s[0]] + s[1..];
      BelowHead(s, x, t);
      ConsDescending(s[0], t);
      [s[0]] + t
  }

  /** A string at least every element of a descending `t` can go in front. */
  lemma ConsDescending(h: string, t: seq<string>)
    requires Descending(t) && forall j :: 0 <= j < |t| ==> LessEq(t[j], h)
    ensures Descending([h] + t)
  {
    var s := [h] + t;
    forall i, j | 0 <= i < j < |s| ensures LessEq(s[j], s[i]) {
      assert s[j] == t[j - 1];
      if i > 0 {
        assert s[i] == t[i - 1];
      }
    }
  }

  /** Every element of the tail of a descending `s`, and a string `x` not
      above its head, is at most the head. */
  lemma BelowHead(s: seq<string>, x: string, t: seq<string>)
    requires Descending(s) && s != [] && LessEq(x, s[0])
    requires multiset(t) == multiset(s[1..]) + multiset{x}
    ensures forall j :: 0 <= j < |t| ==> LessEq(t[j], s[0])
  {
    forall j | 0 <= j < |t| ensures LessEq(t[j], s[0]) {
      assert t[j] in multiset(s[1..]) + multiset{x};
      if t[j] != x {
        var k :| 1 <= k < |s| && s[k] == t[j];
      }
    }
  }

  /** `sorted(s, reverse=True)`. */
  function SortDescending(s: seq<string>): (r: seq<string>)
    ensures Descending(r)
    ensures multiset(r) == multiset(s)
    decreases |s|
  {
    if s == [] then []
    else
      assert s == [s[0]] + s[1..];
      Insert(s[0], SortDescending(s[1..]))
  }

  /** There is only one descending arrangement of a multiset of strings, so
      any correct descending sort returns what `SortDescending` returns. */
  lemma {:induction false} DescendingUnique(a: seq<string>, b: seq<string>)
    requires Descending(a) && Descending(b) && multiset(a) == multiset(b)
    ensures a == b
    decreases |a|
  {
    if a != [] {
      assert |b| == |a| by { assert |multiset(b)| == |multiset(a)|; }
      HeadsAgree(a, b);
      TailMultiset(a);
      TailMultiset(b);
      DescendingUnique(a[1..], b[1..]);
      assert a == [a[0]] + a[1..] && b == [b[0]] + b[1..];
    }
  }

  /** Two descending arrangements of one multiset start with the same
      string: each head is at least every element of the other. */
  lemma HeadsAgree(a: seq<string>, b: seq<string>)
    requires Descending(a) && Descending(b) && multiset(a) == multiset(b) && a != [] && b != []
    ensures a[0] == b[0]
  {
    var x, y := a[0], b[0];
    assert x in multiset(b) by { assert x in multiset(a); }
    assert y in multiset(a) by { assert y in multiset(b); }
    var i :| 0 <= i < |b| && b[i] == x;
    var j :| 0 <= j < |a| && a[j] == y;
    LessEqReflexive(x);
    assert LessEq(x, y) by { if i > 0 { assert LessEq(b[i], b[0]); } }
    assert LessEq(y, x) by { if j > 0 { assert LessEq(a[j], a[0]); } }
    LessEqAntisymmetric(x, y);
  }

  lemma TailMultiset(s: seq<string>)
    requires s != []
    ensures multiset(s[1..]) == multiset(s) - multiset{s[0]}
  {
    assert s == [s[0]] + s[1..];
  }
}
