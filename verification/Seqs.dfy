/** Sequence vocabulary shared by the other modules. */
module Seqs {

  datatype Option<+T> = None | Some(value: T)

  function Last<T>(s: seq<T>): T
    requires s != []
  {
    s[|s| - 1]
  }

  function Init<T>(s: seq<T>): seq<T>
    requires s != []
  {
    s[..|s| - 1]
  }

  /** The elements of `s` that satisfy `keep`, in order. */
  function Filter<T>(keep: T -> bool, s: seq<T>): seq<T> {
    if s == [] then []
    else Filter(keep, Init(s)) + if keep(Last(s)) then [Last(s)] else []
  }

  function Map<A, B>(f: A -> B, s: seq<A>): (r: seq<B>)
    ensures |r| == |s|
    ensures forall i :: 0 <= i < |s| ==> r[i] == f(s[i])
  {
    seq(|s|, i requires 0 <= i < |s| => f(s[i]))
  }

  lemma MapCons<A, B>(f: A -> B, s: seq<A>)
    requires s != []
    ensures s == [s[0]] + s[1..]
    ensures Map(f, s) == [f(s[0])] + Map(f, s[1..])
  {
  }

  lemma Associate<T>(a: seq<T>, b: seq<T>, c: seq<T>)
    ensures (a + b) + c == a + (b + c)
  {
  }

  lemma Nil<T>(s: seq<T>)
    ensures s + [] == s && [] + s == s
  {
  }

  /** Moving the head of what is left to the end of what is done. */
  lemma Shift<T>(done: seq<T>, rest: seq<T>)
    requires rest != []
    ensures (done + [rest[0]]) + rest[1..] == done + rest
  {
  }

  lemma InitLast<T>(s: seq<T>, x: T)
    ensures Init(s + [x]) == s && Last(s + [x]) == x
  {
    assert (s + [x])[..|s|] == s;
  }

  lemma FilterSnoc<T>(keep: T -> bool, s: seq<T>, x: T)
    ensures Filter(keep, s + [x]) == Filter(keep, s) + if keep(x) then [x] else []
  {
    InitLast(s, x);
  }

  lemma {:induction false} FilterAppend<T>(keep: T -> bool, a: seq<T>, b: seq<T>)
    ensures Filter(keep, a + b) == Filter(keep, a) + Filter(keep, b)
  {
    if b == [] {
      assert a + b == a;
    } else {
      FilterAppend(keep, a, Init(b));
      assert a + b == (a + Init(b)) + [Last(b)];
      FilterSnoc(keep, a + Init(b), Last(b));
    }
  }

  lemma {:induction false} FilterAll<T>(keep: T -> bool, s: seq<T>)
    requires forall i :: 0 <= i < |s| ==> keep(s[i])
    ensures Filter(keep, s) == s
  {
    if s != [] {
      var front, x := Init(s), Last(s);
      FilterAll(keep, front);
      assert Filter(keep, s) == front + [x];
    }
  }

  lemma {:induction false} FilterNone<T>(keep: T -> bool, s: seq<T>)
    requires forall i :: 0 <= i < |s| ==> !keep(s[i])
    ensures Filter(keep, s) == []
  {
    if s != [] {
      FilterNone(keep, Init(s));
    }
  }

  /** Filtering keeps only elements of the sequence, all of which satisfy the predicate. */
  lemma {:induction false} FilterMembers<T>(keep: T -> bool, s: seq<T>)
    ensures forall x :: x in Filter(keep, s) <==> x in s && keep(x)
  {
    if s != [] {
      FilterMembers(keep, Init(s));
      assert s == Init(s) + [Last(s)];
    }
  }

  lemma MultisetInit<T>(s: seq<T>)
    requires s != []
    ensures multiset(s) == multiset(Init(s)) + multiset{Last(s)}
  {
    assert s == Init(s) + [Last(s)];
  }

  /** An element of a permutation can be taken out of it. */
  lemma TakeOut<T>(s: seq<T>, x: T, m: multiset<T>) returns (left: seq<T>, right: seq<T>)
    requires multiset(s) == m + multiset{x}
    ensures s == left + [x] + right
    ensures multiset(left + right) == m
  {
    assert x in multiset(s);
    var i :| 0 <= i < |s| && s[i] == x;
    left, right := s[..i], s[i + 1..];
    assert s == left + [x] + right;
    assert multiset(s) == multiset(left) + multiset{x} + multiset(right);
    assert multiset(left + right) == multiset(left) + multiset(right) == multiset(s) - multiset{x};
  }

  lemma NotEmpty(s: set<int>)
    ensures s == {} || exists x :: x in s
  {
    if !exists x :: x in s {
      assert s == {};
    }
  }

  /** What `f` yields along `s`. */
  function Collect<A, B>(f: A -> Option<B>, s: seq<A>): seq<B> {
    if s == [] then []
    else Collect(f, Init(s)) + if f(Last(s)).Some? then [f(Last(s)).value] else []
  }

  lemma CollectSnoc<A, B>(f: A -> Option<B>, s: seq<A>, x: A)
    ensures Collect(f, s + [x]) == Collect(f, s) + if f(x).Some? then [f(x).value] else []
  {
    InitLast(s, x);
  }

  lemma {:induction false} CollectAppend<A, B>(f: A -> Option<B>, a: seq<A>, b: seq<A>)
    ensures Collect(f, a + b) == Collect(f, a) + Collect(f, b)
  {
    if b == [] {
      assert a + b == a;
    } else {
      CollectAppend(f, a, Init(b));
      assert a + b == (a + Init(b)) + [Last(b)];
      CollectSnoc(f, a + Init(b), Last(b));
    }
  }

  lemma {:induction false} CollectNone<A, B>(f: A -> Option<B>, s: seq<A>)
    requires forall i :: 0 <= i < |s| ==> f(s[i]).None?
    ensures Collect(f, s) == []
  {
    if s != [] {
      CollectNone(f, Init(s));
    }
  }

  lemma {:induction false} CollectAll<A, B>(f: A -> Option<B>, s: seq<A>, r: seq<B>)
    requires |s| == |r| && forall i :: 0 <= i < |s| ==> f(s[i]) == Some(r[i])
    ensures Collect(f, s) == r
  {
    if s != [] {
      CollectAll(f, Init(s), Init(r));
      assert r == Init(r) + [Last(r)];
    }
  }
}
