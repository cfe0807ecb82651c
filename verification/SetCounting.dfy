/** Counting facts about finite sets. */
module SetCounting {

  lemma {:induction false} SubsetSize<T>(a: set<T>, b: set<T>)
    requires a <= b
    ensures |a| <= |b|
  {
    if a != {} {
      var x :| x in a;
      SubsetSize(a - {x}, b - {x});
    }
  }

  /** A set that `f` maps one-to-one into `b` is no larger than `b`. */
  lemma {:induction false} InjectionSize<A, B>(a: set<A>, f: map<A, B>, b: set<B>)
    requires forall x :: x in a ==> x in f && f[x] in b
    requires forall x, y :: x in a && y in a && f[x] == f[y] ==> x == y
    ensures |a| <= |b|
  {
    if a != {} {
      var x :| x in a;
      InjectionSize(a - {x}, f, b - {f[x]});
    }
  }

  lemma UnionSize<T>(a: set<T>, b: set<T>)
    ensures |a + b| <= |a| + |b|
  {
    assert a + b == a + (b - a);
    SubsetSize(b - a, b);
  }

  /** A set covered by `kept` and by the elements that `f` maps one-to-one into `window`. */
  lemma CoverSize<A, B>(a: set<A>, kept: set<A>, f: map<A, B>, window: set<B>)
    requires forall x :: x in a ==> x in f
    requires forall x :: x in a && x !in kept ==> f[x] in window
    requires forall x, y :: x in a && y in a && f[x] == f[y] ==> x == y
    ensures |a| <= |kept| + |window|
  {
    InjectionSize(a - kept, f, window);
    SubsetSize(a, kept + (a - kept));
    UnionSize(kept, a - kept);
  }

  /** The elements of a sequence are at most as many as its length. */
  lemma {:induction false} ElementsSize<T>(q: seq<T>)
    ensures |set x | x in q| <= |q|
  {
    if q != [] {
      ElementsSize(q[1..]);
      assert (set x | x in q) == {q[0]} + (set x | x in q[1..]);
      UnionSize({q[0]}, set x | x in q[1..]);
    }
  }

  /** A key of least value, and one of greatest value, exist in a nonempty set. */
  lemma {:induction false} GreatestExists<T>(s: set<T>, f: map<T, nat>) returns (g: T)
    requires s != {} && forall x :: x in s ==> x in f
    ensures g in s && forall x :: x in s ==> f[x] <= f[g]
  {
    g :| g in s;
    if s != {g} {
      var h := GreatestExists(s - {g}, f);
      if f[h] > f[g] {
        g := h;
      }
    }
  }

  /** No finite set of naturals holds them all. */
  lemma {:induction false} FreshExists(s: set<nat>) returns (n: nat)
    ensures n !in s && forall x :: x in s ==> x < n
  {
    if s == {} {
      n := 0;
    } else {
      var x :| x in s;
      var k := FreshExists(s - {x});
      n := if x < k then k else x + 1;
      assert forall y :: y in s ==> y == x || y in s - {x};
    }
  }
}
