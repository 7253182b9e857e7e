/** What every part of the model uses. */
module Common {

  datatype Option<T> = None | Some(value: T)

  predicate Distinct<T(==)>(s: seq<T>) {
    forall i, j :: 0 <= i < j < |s| ==> s[i] != s[j]
  }

  /** The elements of s that are kept, in order. */
  function Chosen<T>(s: seq<T>, keep: seq<bool>): seq<T>
    requires |keep| == |s|
    decreases |s|
  {
    if s == [] then [] else (if keep[0] then [s[0]] else []) + Chosen(s[1..], keep[1..])
  }

  function HowMany(keep: seq<bool>): nat {
    if keep == [] then 0 else One(keep[0]) + HowMany(keep[1..])
  }

  lemma ChosenAll<T>(s: seq<T>, keep: seq<bool>)
    requires |keep| == |s| && forall i :: 0 <= i < |s| ==> keep[i]
    ensures Chosen(s, keep) == s
    decreases |s|
  {
    if s != [] {
      ChosenAll(s[1..], keep[1..]);
    }
  }

  lemma ChosenNone<T>(s: seq<T>, keep: seq<bool>)
    requires |keep| == |s| && forall i :: 0 <= i < |s| ==> !keep[i]
    ensures Chosen(s, keep) == []
    decreases |s|
  {
    if s != [] {
      ChosenNone(s[1..], keep[1..]);
    }
  }

  lemma {:induction false} ChosenMore<T>(a: seq<T>, x: seq<bool>, b: seq<T>, y: seq<bool>)
    requires |x| == |a| && |y| == |b|
    ensures Chosen(a + b, x + y) == Chosen(a, x) + Chosen(b, y)
    decreases |a|
  {
    if a == [] {
      assert a + b == b && x + y == y;
    } else {
      assert (a + b)[1..] == a[1..] + b && (x + y)[1..] == x[1..] + y;
      ChosenMore(a[1..], x[1..], b, y);
      var first := if x[0] then [a[0]] else [];
      assert first + (Chosen(a[1..], x[1..]) + Chosen(b, y)) == (first + Chosen(a[1..], x[1..])) + Chosen(b, y);
    }
  }

  lemma ChosenAmong<T>(s: seq<T>, keep: seq<bool>)
    requires |keep| == |s|
    ensures forall x :: x in Chosen(s, keep) ==> x in s
    decreases |s|
  {
    if s != [] {
      ChosenAmong(s[1..], keep[1..]);
      assert s == [s[0]] + s[1..];
    }
  }

  function One(b: bool): nat { if b then 1 else 0 }

  lemma CardSubset<T>(a: set<T>, b: set<T>)
    requires a <= b
    ensures |a| <= |b|
  {
    if a != {} {
      var x :| x in a;
      CardSubset(a - {x}, b - {x});
    }
  }
}
