/** Sequence operations with the meaning of the .NET List<T> calls used by the turn system. */
module ListOps {

  /** No element occurs twice: what a list of distinct object references looks like. */
  ghost predicate NoDup<T>(s: seq<T>) {
    forall i, j :: 0 <= i < j < |s| ==> s[i] != s[j]
  }

  /** The set of elements of `s`. */
  ghost function Elements<T>(s: seq<T>): set<T> {
    set x | x in s
  }

  lemma ElementsOfInit<T>(s: seq<T>)
    requires s != []
    ensures Elements(s) == Elements(s[..|s| - 1]) + {s[|s| - 1]}
  {
    assert s == s[..|s| - 1] + [s[|s| - 1]];
  }

  /** List<T>.Remove(d): drops the first element equal to `d`; the list is unchanged when there is none. */
  function RemoveFirst<T(==)>(s: seq<T>, d: T): (r: seq<T>)
    ensures d !in s ==> r == s
    ensures d in s ==> |r| == |s| - 1
  {
    if s == [] then []
    else if s[0] == d then s[1..]
    else [s[0]] + RemoveFirst(s[1..], d)
  }

  /** List.Remove takes away one occurrence of `d` (none when there is none) and keeps every other element. */
  lemma {:induction false} RemoveFirstMultiset<T>(s: seq<T>, d: T)
    ensures multiset(RemoveFirst(s, d)) == multiset(s) - multiset{d}
  {
    if s != [] {
      assert s == [s[0]] + s[1..];
      if s[0] != d {
        RemoveFirstMultiset(s[1..], d);
      }
    }
  }

  /** The elements of `s` that are not in `x`, in their original order. */
  function Without<T(==)>(s: seq<T>, x: set<T>): seq<T> {
    if s == [] then []
    else (if s[0] in x then [] else [s[0]]) + Without(s[1..], x)
  }

  /** Filtering keeps exactly the elements outside `x`. */
  lemma {:induction false} WithoutMembers<T>(s: seq<T>, x: set<T>)
    ensures forall e :: e in Without(s, x) <==> e in s && e !in x
  {
    if s != [] {
      WithoutMembers(s[1..], x);
      assert s == [s[0]] + s[1..];
    }
  }

  /** Removing each element of `ds` in turn, as a `foreach` over `ds` calling Remove does. */
  function RemoveEach<T(==)>(s: seq<T>, ds: seq<T>): (r: seq<T>)
    ensures |r| <= |s|
  {
    if ds == [] then s
    else RemoveFirst(RemoveEach(s, ds[..|ds| - 1]), ds[|ds| - 1])
  }

  /** A `foreach (d in ds) list.Remove(d);` loop over a local copy of the list. */
  method RemoveEachInOrder<T(==)>(s: seq<T>, ds: seq<T>) returns (r: seq<T>)
    ensures r == RemoveEach(s, ds)
  {
    r := s;
    var j := 0;
    while j < |ds|
      invariant 0 <= j <= |ds|
      invariant r == RemoveEach(s, ds[..j])
    {
      r := RemoveFirst(r, ds[j]);
      assert ds[..j + 1][..j] == ds[..j];
      j := j + 1;
    }
    assert ds[..j] == ds;
  }

  lemma {:induction false} WithoutNothing<T>(s: seq<T>, x: set<T>)
    requires forall e :: e in s ==> e !in x
    ensures Without(s, x) == s
  {
    if s != [] {
      WithoutNothing(s[1..], x);
      assert s == [s[0]] + s[1..];
    }
  }

  lemma {:induction false} WithoutKeepsNoDup<T>(s: seq<T>, x: set<T>)
    requires NoDup(s)
    ensures NoDup(Without(s, x))
  {
    if s != [] {
      var t := s[1..];
      assert NoDup(t) by {
        forall i, j | 0 <= i < j < |t| ensures t[i] != t[j] {
          assert t[i] == s[i + 1] && t[j] == s[j + 1];
        }
      }
      WithoutKeepsNoDup(t, x);
      WithoutMembers(t, x);
      var w := Without(t, x);
      assert s[0] !in t by {
        forall k | 0 <= k < |t| ensures t[k] != s[0] { assert t[k] == s[k + 1]; }
      }
      var head := if s[0] in x then [] else [s[0]];
      var r := head + w;
      assert Without(s, x) == r;
      forall i, j | 0 <= i < j < |r| ensures r[i] != r[j] {
        if head == [] {
          assert r == w;
        } else if i == 0 {
          assert r[j] == w[j - 1];
          assert w[j - 1] in w;
        } else {
          assert r[i] == w[i - 1] && r[j] == w[j - 1];
        }
      }
    }
  }

  lemma {:induction false} WithoutWithout<T>(s: seq<T>, x: set<T>, y: set<T>)
    ensures Without(Without(s, x), y) == Without(s, x + y)
  {
    if s != [] {
      var t := s[1..];
      WithoutWithout(t, x, y);
      var w := Without(t, x);
      if s[0] in x {
        assert Without(s, x) == w;
        assert Without(s, x + y) == Without(t, x + y);
      } else {
        var u := [s[0]] + w;
        assert Without(s, x) == u;
        assert u[0] == s[0] && u[1..] == w;
        assert Without(u, y) == (if s[0] in y then [] else [s[0]]) + Without(w, y);
        assert Without(s, x + y) == (if s[0] in y then [] else [s[0]]) + Without(t, x + y);
      }
    }
  }

  /** In a list without duplicates, List.Remove is the same as filtering the element out. */
  lemma {:induction false} RemoveFirstIsWithout<T>(s: seq<T>, d: T)
    requires NoDup(s)
    ensures RemoveFirst(s, d) == Without(s, {d})
  {
    if s != [] {
      var t := s[1..];
      assert NoDup(t) by {
        forall i, j | 0 <= i < j < |t| ensures t[i] != t[j] {
          assert t[i] == s[i + 1] && t[j] == s[j + 1];
        }
      }
      if s[0] == d {
        assert d !in t by {
          forall k | 0 <= k < |t| ensures t[k] != d { assert t[k] == s[k + 1]; }
        }
        WithoutNothing(t, {d});
      } else {
        RemoveFirstIsWithout(t, d);
      }
    }
  }

  /** Removing the elements of `ds` one by one from a list without duplicates filters them all out. */
  lemma {:induction false} RemoveEachIsWithout<T>(s: seq<T>, ds: seq<T>)
    requires NoDup(s)
    ensures RemoveEach(s, ds) == Without(s, Elements(ds))
  {
    if ds == [] {
      assert Elements(ds) == {};
      WithoutNothing(s, {});
    } else {
      var init, d := ds[..|ds| - 1], ds[|ds| - 1];
      var w := Without(s, Elements(init));
      RemoveEachIsWithout(s, init);
      WithoutKeepsNoDup(s, Elements(init));
      RemoveFirstIsWithout(w, d);
      WithoutWithout(s, Elements(init), {d});
      ElementsOfInit(ds);
      calc {
        RemoveEach(s, ds);
        RemoveFirst(RemoveEach(s, init), d);
        RemoveFirst(w, d);
        Without(w, {d});
        Without(s, Elements(init) + {d});
      }
    }
  }
}
