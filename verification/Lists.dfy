/**
 * The three list idioms the sources use: comprehension with a filter, `min(..., key=...)`, `max(...)`; and set sizes.
 */
module Lists {

  /** `[x for x in s if keep(x)]` */
  function Filter<T(!new)>(s: seq<T>, keep: T -> bool): seq<T>
  {
    if s == [] then []
    else
      var last := |s| - 1;
      Filter(s[..last], keep) + if keep(s[last]) then [s[last]] else []
  }

  /** `min(s, key=key)`: the first of the smallest. */
  function ArgMin<T(!new)>(s: seq<T>, key: T -> real): (m: T)
    requires s != []
    ensures m in s
  {
    if |s| == 1 then s[0]
    else
      var last := |s| - 1;
      var best := ArgMin(s[..last], key);
      if key(s[last]) < key(best) then s[last] else best
  }

  /** `max(key(x) for x in s)` */
  function MaxKey<T(!new)>(s: seq<T>, key: T -> int): int
    requires s != []
  {
    if |s| == 1 then key(s[0])
    else
      var last := |s| - 1;
      var best := MaxKey(s[..last], key);
      if key(s[last]) > best then key(s[last]) else best
  }

  lemma {:induction false} FilterMember<T(!new)>(s: seq<T>, keep: T -> bool, x: T)
    ensures x in Filter(s, keep) <==> x in s && keep(x)
  {
    if s != [] {
      var last := |s| - 1;
      assert s == s[..last] + [s[last]];
      FilterMember(s[..last], keep, x);
    }
  }

  lemma {:induction false} ArgMinLeast<T(!new)>(s: seq<T>, key: T -> real, x: T)
    requires x in s
    ensures key(ArgMin(s, key)) <= key(x)
  {
    if |s| > 1 {
      var last := |s| - 1;
      assert s == s[..last] + [s[last]];
      if x in s[..last] {
        ArgMinLeast(s[..last], key, x);
      }
    }
  }

  lemma {:induction false} MaxKeyLargest<T(!new)>(s: seq<T>, key: T -> int, x: T)
    requires x in s
    ensures key(x) <= MaxKey(s, key)
  {
    if |s| > 1 {
      var last := |s| - 1;
      assert s == s[..last] + [s[last]];
      if x in s[..last] {
        MaxKeyLargest(s[..last], key, x);
      }
    }
  }

  lemma {:induction false} MaxKeyAttained<T(!new)>(s: seq<T>, key: T -> int) returns (x: T)
    requires s != []
    ensures x in s && key(x) == MaxKey(s, key)
  {
    if |s| == 1 {
      x := s[0];
    } else {
      var last := |s| - 1;
      assert s == s[..last] + [s[last]];
      x := MaxKeyAttained(s[..last], key);
      if key(s[last]) > key(x) {
        x := s[last];
      }
    }
  }

  lemma {:induction false} FiltersCommute<T(!new)>(s: seq<T>, f: T -> bool, g: T -> bool)
    ensures Filter(Filter(s, f), g) == Filter(Filter(s, g), f)
  {
    if s != [] {
      var last := |s| - 1;
      FiltersCommute(s[..last], f, g);
      FilterConcat(Filter(s[..last], f), if f(s[last]) then [s[last]] else [], g);
      FilterConcat(Filter(s[..last], g), if g(s[last]) then [s[last]] else [], f);
    }
  }

  lemma {:induction false} FilterConcat<T(!new)>(a: seq<T>, b: seq<T>, f: T -> bool)
    ensures Filter(a + b, f) == Filter(a, f) + Filter(b, f)
  {
    if b == [] {
      assert a + b == a;
    } else {
      var last := |b| - 1;
      assert (a + b)[..|a + b| - 1] == a + b[..last];
      FilterConcat(a, b[..last], f);
    }
  }

  lemma {:induction false} FilterAll<T(!new)>(s: seq<T>, f: T -> bool)
    requires forall x :: x in s ==> f(x)
    ensures Filter(s, f) == s
  {
    if s != [] {
      var last := |s| - 1;
      assert s[last] in s && s == s[..last] + [s[last]];
      assert forall x :: x in s[..last] ==> x in s;
      FilterAll(s[..last], f);
    }
  }

  lemma {:induction false} FilterSame<T(!new)>(s: seq<T>, f: T -> bool, g: T -> bool)
    requires forall x :: x in s ==> (f(x) <==> g(x))
    ensures Filter(s, f) == Filter(s, g)
  {
    if s != [] {
      FilterSame(s[..|s| - 1], f, g);
    }
  }

  lemma {:induction false} FilterSplit<T(!new)>(s: seq<T>, f: T -> bool, g: T -> bool, both: T -> bool)
    requires forall x :: both(x) <==> f(x) && g(x)
    ensures Filter(s, both) == Filter(Filter(s, g), f)
  {
    if s != [] {
      var last := |s| - 1;
      FilterSplit(s[..last], f, g, both);
      FilterConcat(Filter(s[..last], g), if g(s[last]) then [s[last]] else [], f);
    }
  }

  /** Removing other elements does not change which element is the first minimum. */
  lemma {:induction false} ArgMinSurvivesFilter<T(!new)>(s: seq<T>, key: T -> real, keep: T -> bool)
    requires s != [] && keep(ArgMin(s, key))
    ensures Filter(s, keep) != [] && ArgMin(Filter(s, keep), key) == ArgMin(s, key)
  {
    if |s| == 1 {
      assert Filter(s, keep) == [s[0]];
    } else {
      var last := |s| - 1;
      var rest, kept := s[..last], Filter(s[..last], keep);
      if key(s[last]) < key(ArgMin(rest, key)) {
        assert Filter(s, keep) == kept + [s[last]];
        if kept != [] {
          FilterMember(rest, keep, ArgMin(kept, key));
          ArgMinLeast(rest, key, ArgMin(kept, key));
          AppendedLast(kept, s[last], key);
        } else {
          assert Filter(s, keep) == [s[last]];
        }
      } else {
        ArgMinSurvivesFilter(rest, key, keep);
        if keep(s[last]) {
          AppendedLast(kept, s[last], key);
        } else {
          assert Filter(s, keep) == kept;
        }
      }
    }
  }

  lemma {:induction false} AppendedLast<T(!new)>(s: seq<T>, x: T, key: T -> real)
    requires s != []
    ensures ArgMin(s + [x], key) == if key(x) < key(ArgMin(s, key)) then x else ArgMin(s, key)
  {
    assert (s + [x])[..|s|] == s;
  }

  lemma {:induction false} SubsetSize<T>(a: set<T>, b: set<T>)
    requires a <= b
    ensures |a| <= |b|
  {
    assert b == a + (b - a);
  }
}
