/**
 * The edits the card extensions make to a `List<T>` field, and the
 * early-return quantifier loops of their Has/Lacks helpers.
 *
 * Three edit rules appear:
 *  - set-like insertion: `foreach (x in items) if (!list.Contains(x)) list.Add(x);`
 *  - removal of every occurrence: `foreach (x in items) list.RemoveAll(a => a == x);`
 *  - removal of the first occurrence: `foreach (x in items) list.Remove(x);`
 * Each is given as a specification function (applied to the arguments from
 * left to right), a method with the source's loop proved equal to it, and
 * lemmas stating what the result is.
 */
module ListOps {

  /** No element occurs twice. */
  predicate NoDuplicates<T(==)>(s: seq<T>) {
    forall i, j :: 0 <= i < j < |s| ==> s[i] != s[j]
  }

  /** `a` is `b` with some elements deleted, the rest in their original order. */
  predicate IsSubsequence<T(==)>(a: seq<T>, b: seq<T>)
    decreases |b|
  {
    if a == [] then true
    else if b == [] then false
    else if a[0] == b[0] then IsSubsequence(a[1..], b[1..])
    else IsSubsequence(a, b[1..])
  }

  lemma {:induction false} SubsequenceRefl<T>(s: seq<T>)
    ensures IsSubsequence(s, s)
  {
    if s != [] {
      SubsequenceRefl(s[1..]);
    }
  }

  /** A subsequence of the tail is a subsequence of the whole. */
  lemma {:induction false} SubsequenceCons<T>(a: seq<T>, b: seq<T>)
    requires b != [] && IsSubsequence(a, b[1..])
    ensures IsSubsequence(a, b)
    decreases |b|, 0
  {
    if a != [] && a[0] == b[0] {
      SubsequenceDropHead(a, b[1..]);
    }
  }

  lemma {:induction false} SubsequenceDropHead<T>(a: seq<T>, c: seq<T>)
    requires a != [] && IsSubsequence(a, c)
    ensures IsSubsequence(a[1..], c)
    decreases |c|, 1
  {
    if a[0] == c[0] {
      SubsequenceCons(a[1..], c);
    } else {
      SubsequenceDropHead(a, c[1..]);
      SubsequenceCons(a[1..], c);
    }
  }

  lemma {:induction false} SubsequenceTrans<T>(a: seq<T>, b: seq<T>, c: seq<T>)
    requires IsSubsequence(a, b) && IsSubsequence(b, c)
    ensures IsSubsequence(a, c)
    decreases |c|
  {
    if a != [] {
      if b[0] == c[0] {
        if a[0] == b[0] {
          SubsequenceTrans(a[1..], b[1..], c[1..]);
        } else {
          SubsequenceTrans(a, b[1..], c[1..]);
          SubsequenceCons(a, c);
        }
      } else {
        SubsequenceTrans(a, b, c[1..]);
        SubsequenceCons(a, c);
      }
    }
  }

  // ---------------------------------------------------------------------
  // Set-like insertion (AddAppearances, AddDecal, AddMetaCategories,
  // AddSpecialAbilities, AddTraits, AddTribes; the gem union of GemsCost)
  // ---------------------------------------------------------------------

  /** The list after each item, in order, is appended unless already present. */
  function AddDistinct<T(==)>(list: seq<T>, items: seq<T>): seq<T>
    decreases |items|
  {
    if items == [] then list
    else
      var before := AddDistinct(list, items[..|items| - 1]);
      var x := items[|items| - 1];
      if x in before then before else before + [x]
  }

  /**
   * Set-like insertion keeps the old list as a prefix, ends up holding
   * exactly the old elements and the items, and what it appends is new
   * and duplicate-free.
   */
  lemma {:induction false} AddDistinctSpec<T>(list: seq<T>, items: seq<T>)
    ensures list <= AddDistinct(list, items)
    ensures forall x :: x in AddDistinct(list, items) <==> x in list || x in items
    ensures forall k :: |list| <= k < |AddDistinct(list, items)| ==> AddDistinct(list, items)[k] !in list
    ensures NoDuplicates(AddDistinct(list, items)[|list|..])
    decreases |items|
  {
    if items != [] {
      var init := items[..|items| - 1];
      var x := items[|items| - 1];
      assert items == init + [x];
      AddDistinctSpec(list, init);
      var before := AddDistinct(list, init);
      if x !in before {
        assert AddDistinct(list, items)[|list|..] == before[|list|..] + [x];
      }
    }
  }

  /** Inserting items that are all present already changes nothing. */
  lemma {:induction false} AddDistinctPresent<T>(list: seq<T>, items: seq<T>)
    requires forall x :: x in items ==> x in list
    ensures AddDistinct(list, items) == list
    decreases |items|
  {
    if items != [] {
      var init := items[..|items| - 1];
      assert forall x :: x in init ==> x in items;
      AddDistinctPresent(list, init);
    }
  }

  /** A duplicate-free list stays duplicate-free, however often the items repeat. */
  lemma AddDistinctNoDuplicates<T>(list: seq<T>, items: seq<T>)
    requires NoDuplicates(list)
    ensures NoDuplicates(AddDistinct(list, items))
  {
    AddDistinctSpec(list, items);
    var r := AddDistinct(list, items);
    forall i, j | 0 <= i < j < |r| ensures r[i] != r[j] {
      if j >= |list| {
        if i >= |list| {
          assert r[|list|..][i - |list|] == r[i] && r[|list|..][j - |list|] == r[j];
        } else {
          assert r[i] == list[i];
        }
      } else {
        assert r[i] == list[i] && r[j] == list[j];
      }
    }
  }

  /** Inserting `a` then `b` is inserting `a + b`: the calls of a chain compose. */
  lemma {:induction false} AddDistinctConcat<T>(list: seq<T>, a: seq<T>, b: seq<T>)
    ensures AddDistinct(list, a + b) == AddDistinct(AddDistinct(list, a), b)
    decreases |b|
  {
    if b == [] {
      assert a + b == a;
    } else {
      var init := b[..|b| - 1];
      assert (a + b)[..|a + b| - 1] == a + init;
      AddDistinctConcat(list, a, init);
    }
  }

  /** Repeating a set-like insertion changes nothing. */
  lemma AddDistinctIdempotent<T>(list: seq<T>, items: seq<T>)
    ensures AddDistinct(AddDistinct(list, items), items) == AddDistinct(list, items)
  {
    AddDistinctSpec(list, items);
    AddDistinctPresent(AddDistinct(list, items), items);
  }

  /** The source's `foreach`/`Contains`/`Add` loop. */
  method AddEachDistinct<T(==)>(list: seq<T>, items: seq<T>) returns (r: seq<T>)
    ensures r == AddDistinct(list, items)
  {
    r := list;
    for i := 0 to |items|
      invariant r == AddDistinct(list, items[..i])
    {
      assert items[..i + 1][..i] == items[..i];
      if items[i] !in r {
        r := r + [items[i]];
      }
    }
    assert items[..|items|] == items;
  }

  // ---------------------------------------------------------------------
  // Removal of every occurrence (RemoveAbilities, RemoveSpecialAbilities,
  // RemoveAppearances, RemoveDecals, RemoveMetaCategories)
  // ---------------------------------------------------------------------

  /** The list after `list.RemoveAll(a => a == x)`. */
  function RemoveAll<T(==)>(list: seq<T>, x: T): seq<T> {
    if list == [] then []
    else (if list[0] == x then [] else [list[0]]) + RemoveAll(list[1..], x)
  }

  /** The list after `RemoveAll` with each item in turn. */
  function RemoveAllOf<T(==)>(list: seq<T>, items: seq<T>): seq<T>
    decreases |items|
  {
    if items == [] then list
    else RemoveAll(RemoveAllOf(list, items[..|items| - 1]), items[|items| - 1])
  }

  /** The elements of `list` not among `items`, in their original order. */
  function Without<T(==)>(list: seq<T>, items: seq<T>): seq<T> {
    if list == [] then []
    else (if list[0] in items then [] else [list[0]]) + Without(list[1..], items)
  }

  lemma {:induction false} RemoveAllWithout<T>(list: seq<T>, items: seq<T>, x: T)
    ensures RemoveAll(Without(list, items), x) == Without(list, items + [x])
  {
    if list != [] {
      RemoveAllWithout(list[1..], items, x);
      var rest := Without(list[1..], items);
      assert list[0] in items + [x] <==> list[0] in items || list[0] == x;
      if list[0] in items {
        assert Without(list, items) == rest;
      } else {
        assert Without(list, items) == [list[0]] + rest;
        assert ([list[0]] + rest)[0] == list[0] && ([list[0]] + rest)[1..] == rest;
      }
    }
  }

  /**
   * Removing every occurrence of each item in turn is one filter over the
   * list: all other elements keep their relative order.
   */
  lemma {:induction false} RemoveAllOfIsFilter<T>(list: seq<T>, items: seq<T>)
    ensures RemoveAllOf(list, items) == Without(list, items)
    decreases |items|
  {
    if items == [] {
      WithoutNothing(list, items);
    } else {
      var init := items[..|items| - 1];
      RemoveAllOfIsFilter(list, init);
      RemoveAllWithout(list, init, items[|items| - 1]);
      assert init + [items[|items| - 1]] == items;
    }
  }

  lemma {:induction false} WithoutNothing<T>(list: seq<T>, items: seq<T>)
    requires forall x :: x in list ==> x !in items
    ensures Without(list, items) == list
  {
    if list != [] {
      WithoutNothing(list[1..], items);
    }
  }

  /** The filter keeps exactly the elements that are not items, in order. */
  lemma {:induction false} WithoutSpec<T>(list: seq<T>, items: seq<T>)
    ensures forall x :: x in Without(list, items) <==> x in list && x !in items
    ensures IsSubsequence(Without(list, items), list)
  {
    if list != [] {
      WithoutSpec(list[1..], items);
      var rest := Without(list[1..], items);
      assert list == [list[0]] + list[1..];
      if list[0] in items {
        assert Without(list, items) == rest;
        SubsequenceCons(rest, list);
      } else {
        assert ([list[0]] + rest)[1..] == rest;
      }
    }
  }

  /** What the remove-all family guarantees: no argument is left. */
  lemma RemoveAllOfSpec<T>(list: seq<T>, items: seq<T>)
    ensures forall x :: x in RemoveAllOf(list, items) <==> x in list && x !in items
    ensures IsSubsequence(RemoveAllOf(list, items), list)
  {
    RemoveAllOfIsFilter(list, items);
    WithoutSpec(list, items);
  }

  /** The source's loop of `RemoveAll` calls. */
  method RemoveEachAll<T(==)>(list: seq<T>, items: seq<T>) returns (r: seq<T>)
    ensures r == RemoveAllOf(list, items)
  {
    r := list;
    for i := 0 to |items|
      invariant r == RemoveAllOf(list, items[..i])
    {
      assert items[..i + 1][..i] == items[..i];
      r := RemoveAll(r, items[i]);
    }
    assert items[..|items|] == items;
  }

  // ---------------------------------------------------------------------
  // Removal of the first occurrence (the *Single removers, RemoveTraits,
  // RemoveTribes, RemoveCardMetaCategories, SetRare's removals)
  // ---------------------------------------------------------------------

  /** The list after `list.Remove(x)`: the first occurrence of `x` is dropped. */
  function RemoveFirst<T(==)>(list: seq<T>, x: T): seq<T> {
    if list == [] then []
    else if list[0] == x then list[1..]
    else [list[0]] + RemoveFirst(list[1..], x)
  }

  /** The list after `Remove` with each item in turn. */
  function RemoveFirstOf<T(==)>(list: seq<T>, items: seq<T>): seq<T>
    decreases |items|
  {
    if items == [] then list
    else RemoveFirst(RemoveFirstOf(list, items[..|items| - 1]), items[|items| - 1])
  }

  /** `Remove` cuts out exactly the first occurrence, and nothing when there is none. */
  lemma {:induction false} RemoveFirstAt<T>(list: seq<T>, x: T, i: nat)
    requires i < |list| && list[i] == x && x !in list[..i]
    ensures RemoveFirst(list, x) == list[..i] + list[i + 1..]
  {
    if i > 0 {
      assert list[1..][..i - 1] == list[..i][1..];
      RemoveFirstAt(list[1..], x, i - 1);
      assert list[..i] == [list[0]] + list[1..][..i - 1];
    }
  }

  lemma {:induction false} RemoveFirstAbsent<T>(list: seq<T>, x: T)
    requires x !in list
    ensures RemoveFirst(list, x) == list
  {
    if list != [] {
      RemoveFirstAbsent(list[1..], x);
    }
  }

  lemma {:induction false} RemoveFirstMultiset<T>(list: seq<T>, x: T)
    ensures multiset(RemoveFirst(list, x)) == multiset(list) - multiset{x}
  {
    if list != [] {
      assert list == [list[0]] + list[1..];
      if list[0] != x {
        RemoveFirstMultiset(list[1..], x);
      }
    }
  }

  lemma {:induction false} RemoveFirstSubsequence<T>(list: seq<T>, x: T)
    ensures IsSubsequence(RemoveFirst(list, x), list)
  {
    if list != [] {
      if list[0] == x {
        SubsequenceRefl(list[1..]);
        SubsequenceCons(list[1..], list);
      } else {
        RemoveFirstSubsequence(list[1..], x);
        var rest := RemoveFirst(list[1..], x);
        assert ([list[0]] + rest)[1..] == rest;
      }
    }
  }

  lemma {:induction false} RemoveFirstLength<T>(list: seq<T>, x: T)
    ensures |RemoveFirst(list, x)| == if x in list then |list| - 1 else |list|
  {
    if list != [] {
      RemoveFirstLength(list[1..], x);
      assert list == [list[0]] + list[1..];
    }
  }

  /**
   * What the single-removal family guarantees: each item takes away at
   * most one copy, so an item listed k times takes away at most k copies.
   */
  lemma {:induction false} RemoveFirstOfMultiset<T>(list: seq<T>, items: seq<T>)
    ensures multiset(RemoveFirstOf(list, items)) == multiset(list) - multiset(items)
    decreases |items|
  {
    if items != [] {
      var init := items[..|items| - 1];
      var x := items[|items| - 1];
      assert items == init + [x];
      RemoveFirstOfMultiset(list, init);
      RemoveFirstMultiset(RemoveFirstOf(list, init), x);
      assert multiset(items) == multiset(init) + multiset{x};
    }
  }

  /** A duplicate-free list holds each value at most once. */
  lemma {:induction false} NoDuplicatesCount<T>(s: seq<T>, x: T)
    requires NoDuplicates(s)
    ensures multiset(s)[x] <= 1
  {
    if s != [] {
      assert s == [s[0]] + s[1..];
      assert NoDuplicates(s[1..]) by {
        forall i, j | 0 <= i < j < |s[1..]| ensures s[1..][i] != s[1..][j] {
          assert s[1..][i] == s[i + 1] && s[1..][j] == s[j + 1];
        }
      }
      NoDuplicatesCount(s[1..], x);
      if s[0] == x {
        assert x !in s[1..] by {
          forall k | 0 <= k < |s[1..]| ensures s[1..][k] != x {
            assert s[1..][k] == s[k + 1];
          }
        }
      }
    }
  }

  /**
   * On a duplicate-free list the single-removal family removes every listed
   * item outright: nothing it names is left.
   */
  lemma RemoveFirstOfClears<T>(list: seq<T>, items: seq<T>)
    requires NoDuplicates(list)
    ensures forall x :: x in items ==> x !in RemoveFirstOf(list, items)
  {
    forall x | x in items ensures x !in RemoveFirstOf(list, items) {
      RemoveFirstOfMultiset(list, items);
      NoDuplicatesCount(list, x);
      assert multiset(items)[x] >= 1;
      assert multiset(RemoveFirstOf(list, items))[x] == 0;
    }
  }

  /** The list shrinks by at most the number of items. */
  lemma {:induction false} RemoveFirstOfLength<T>(list: seq<T>, items: seq<T>)
    ensures |list| - |items| <= |RemoveFirstOf(list, items)| <= |list|
    decreases |items|
  {
    if items != [] {
      var init := items[..|items| - 1];
      RemoveFirstOfLength(list, init);
      RemoveFirstLength(RemoveFirstOf(list, init), items[|items| - 1]);
    }
  }

  /** The elements left keep their relative order. */
  lemma {:induction false} RemoveFirstOfSubsequence<T>(list: seq<T>, items: seq<T>)
    ensures IsSubsequence(RemoveFirstOf(list, items), list)
    decreases |items|
  {
    if items == [] {
      SubsequenceRefl(list);
    } else {
      var init := items[..|items| - 1];
      var before := RemoveFirstOf(list, init);
      RemoveFirstOfSubsequence(list, init);
      RemoveFirstSubsequence(before, items[|items| - 1]);
      SubsequenceTrans(RemoveFirst(before, items[|items| - 1]), before, list);
    }
  }

  /** The source's loop of `Remove` calls. */
  method RemoveEachFirst<T(==)>(list: seq<T>, items: seq<T>) returns (r: seq<T>)
    ensures r == RemoveFirstOf(list, items)
  {
    r := list;
    for i := 0 to |items|
      invariant r == RemoveFirstOf(list, items[..i])
    {
      assert items[..i + 1][..i] == items[..i];
      r := RemoveFirst(r, items[i]);
    }
    assert items[..|items|] == items;
  }

  // ---------------------------------------------------------------------
  // Quantifier helpers (HasAll*, LacksAll*, HasAnyOf*)
  // ---------------------------------------------------------------------

  /** `foreach (x in items) if (lacks x) return false; return true;` */
  function HasAll<T(==)>(list: seq<T>, items: seq<T>): (r: bool)
    ensures r <==> forall x :: x in items ==> x in list
  {
    items == [] || (items[0] in list && HasAll(list, items[1..]))
  }

  /** `foreach (x in items) if (has x) return false; return true;` */
  function LacksAll<T(==)>(list: seq<T>, items: seq<T>): (r: bool)
    ensures r <==> forall x :: x in items ==> x !in list
  {
    items == [] || (items[0] !in list && LacksAll(list, items[1..]))
  }

  /** `foreach (x in items) if (has x) return true; return false;` */
  function HasAny<T(==)>(list: seq<T>, items: seq<T>): (r: bool)
    ensures r <==> exists x :: x in items && x in list
  {
    items != [] && (items[0] in list || HasAny(list, items[1..]))
  }
}
