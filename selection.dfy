/**
 * The multi-select toggle every preference screen uses:
 * `list.includes(item) ? list.filter(i => i !== item) : [...list, item]`.
 */
module Selection {

  /** `xs.filter(i => i !== x)`: every `x` goes, the rest keep their order and multiplicity. */
  function RemoveAll(xs: seq<string>, x: string): (r: seq<string>)
    ensures multiset(r) == multiset(xs)[x := 0]
    ensures forall y :: y in r <==> y in xs && y != x
    ensures |r| <= |xs|
    decreases |xs|
  {
    if xs == [] then []
    else
      var rest := RemoveAll(xs[1..], x);
      assert xs == [xs[0]] + xs[1..];
      if xs[0] == x then rest else [xs[0]] + rest
  }

  /** Filtering works piece by piece, so the survivors keep their relative order. */
  lemma {:induction false} RemoveAllAppend(a: seq<string>, b: seq<string>, x: string)
    ensures RemoveAll(a + b, x) == RemoveAll(a, x) + RemoveAll(b, x)
    decreases |a|
  {
    if a == [] {
      assert a + b == b;
    } else {
      assert (a + b)[0] == a[0];
      assert (a + b)[1..] == a[1..] + b;
      RemoveAllAppend(a[1..], b, x);
    }
  }

  /** Filtering out an absent item changes nothing. */
  lemma {:induction false} RemoveAllAbsent(xs: seq<string>, x: string)
    requires x !in xs
    ensures RemoveAll(xs, x) == xs
    decreases |xs|
  {
    if xs != [] {
      RemoveAllAbsent(xs[1..], x);
      assert xs == [xs[0]] + xs[1..];
    }
  }

  /** `selected.includes(item) ? … filter … : [...selected, item]`. */
  function Toggle(xs: seq<string>, item: string): (r: seq<string>)
    ensures forall y :: y in r <==> (if y == item then item !in xs else y in xs)
    ensures item !in xs ==> |r| == |xs| + 1 && r[..|xs|] == xs && r[|xs|] == item
    ensures item in xs ==> multiset(r) == multiset(xs)[item := 0]
  {
    if item in xs then RemoveAll(xs, item)
    else
      var r := xs + [item];
      assert r[..|xs|] == xs;
      r
  }

  /** Toggling a present item removes every occurrence and keeps the order of the rest. */
  lemma TogglePresentKeepsOrder(a: seq<string>, b: seq<string>, item: string)
    requires item in a + b
    ensures Toggle(a + b, item) == RemoveAll(a, item) + RemoveAll(b, item)
  {
    RemoveAllAppend(a, b, item);
  }

  /** Toggling an absent item twice gives the list back. */
  lemma ToggleTwiceRestores(xs: seq<string>, item: string)
    requires item !in xs
    ensures Toggle(Toggle(xs, item), item) == xs
  {
    RemoveAllAppend(xs, [item], item);
    RemoveAllAbsent(xs, item);
    assert RemoveAll([item], item) == [];
    assert xs + [] == xs;
  }

  /** No entry appears twice. */
  predicate Distinct(xs: seq<string>) {
    forall i, j :: 0 <= i < j < |xs| ==> xs[i] != xs[j]
  }

  lemma DistinctCons(h: string, t: seq<string>)
    ensures Distinct([h] + t) <==> h !in t && Distinct(t)
  {
    var s := [h] + t;
    if h !in t && Distinct(t) {
      forall i, j | 0 <= i < j < |s| ensures s[i] != s[j] {
        assert s[j] == t[j - 1];
        if i > 0 {
          assert s[i] == t[i - 1];
        }
      }
    }
    if Distinct(s) {
      forall i, j | 0 <= i < j < |t| ensures t[i] != t[j] {
        assert t[i] == s[i + 1] && t[j] == s[j + 1];
      }
      forall k | 0 <= k < |t| ensures t[k] != h {
        assert s[0] == h && s[k + 1] == t[k];
      }
    }
  }

  lemma {:induction false} RemoveAllKeepsDistinct(xs: seq<string>, x: string)
    requires Distinct(xs)
    ensures Distinct(RemoveAll(xs, x))
    decreases |xs|
  {
    if xs != [] {
      assert xs == [xs[0]] + xs[1..];
      DistinctCons(xs[0], xs[1..]);
      RemoveAllKeepsDistinct(xs[1..], x);
      if xs[0] != x {
        DistinctCons(xs[0], RemoveAll(xs[1..], x));
      }
    }
  }

  /** A duplicate-free selection stays duplicate-free under toggling. */
  lemma ToggleKeepsDistinct(xs: seq<string>, item: string)
    requires Distinct(xs)
    ensures Distinct(Toggle(xs, item))
  {
    if item in xs {
      RemoveAllKeepsDistinct(xs, item);
    }
  }
}
