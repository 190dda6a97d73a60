/** The catalog of principle concerns and the toggle that maintains the
    user's selection as an insertion-ordered list without duplicates. */
module Concerns {

  /** The seven fixed objection statements the user may select. */
  const Catalog: seq<string> := [
    "The principles don't adequately reflect existing legal principles",
    "The focus on rights and liberties is too narrow",
    "Good law-making process principles need refinement",
    "Regulatory stewardship principles need strengthening",
    "Principles should be in secondary rather than primary legislation",
    "Additional principles should be included",
    "Other concerns (specify below)"
  ]

  /** No element occurs twice. */
  predicate NoDuplicates(s: seq<string>) {
    forall i, j :: 0 <= i < j < |s| ==> s[i] != s[j]
  }

  /** Every element is one of the catalog statements. */
  predicate FromCatalog(s: seq<string>) {
    forall x :: x in s ==> x in Catalog
  }

  /** The invariant the selection is meant to keep: a duplicate-free subset of the catalog. */
  predicate ValidSelection(s: seq<string>) {
    NoDuplicates(s) && FromCatalog(s)
  }

  /** `r` is an order-preserving subsequence of `s`: each element of `s` is either matched or skipped. */
  ghost predicate IsSubsequence(r: seq<string>, s: seq<string>)
    decreases |s|
  {
    if s == [] then r == []
    else (r != [] && r[0] == s[0] && IsSubsequence(r[1..], s[1..])) || IsSubsequence(r, s[1..])
  }

  /** `s.filter(p => p !== c)`: every occurrence of `c` dropped. */
  function Remove(s: seq<string>, c: string): (r: seq<string>)
    ensures c !in r
    ensures forall x :: x != c ==> (x in r <==> x in s)
    ensures multiset(r) == multiset(s)[c := 0]
    decreases |s|
  {
    if s == [] then []
    else
      assert s == [s[0]] + s[1..];
      if s[0] == c then Remove(s[1..], c)
      else [s[0]] + Remove(s[1..], c)
  }

  /** The updater of the principle toggle: remove `c` if it is selected, append it otherwise. */
  function Toggle(s: seq<string>, c: string): (r: seq<string>)
    ensures c in r <==> c !in s
    ensures forall x :: x != c ==> (x in r <==> x in s)
  {
    if c in s then Remove(s, c) else s + [c]
  }

  // ----- Lemmas about Remove -----

  /** Filtering keeps the relative order of the remaining elements. */
  lemma {:induction false} RemoveIsSubsequence(s: seq<string>, c: string)
    ensures IsSubsequence(Remove(s, c), s)
    decreases |s|
  {
    if s != [] {
      RemoveIsSubsequence(s[1..], c);
      if s[0] != c {
        assert ([s[0]] + Remove(s[1..], c))[1..] == Remove(s[1..], c);
      }
    }
  }

  /** Filtering distributes over concatenation. */
  lemma {:induction false} RemoveAppend(a: seq<string>, b: seq<string>, c: string)
    ensures Remove(a + b, c) == Remove(a, c) + Remove(b, c)
    decreases |a|
  {
    if a == [] {
      assert a + b == b;
    } else {
      assert (a + b)[0] == a[0];
      assert (a + b)[1..] == a[1..] + b;
      RemoveAppend(a[1..], b, c);
    }
  }

  /** Filtering out an absent element changes nothing. */
  lemma {:induction false} RemoveAbsent(s: seq<string>, c: string)
    requires c !in s
    ensures Remove(s, c) == s
    decreases |s|
  {
    if s != [] {
      assert c !in s[1..];
      RemoveAbsent(s[1..], c);
    }
  }

  /** A list of the form `[x] + t` has no duplicates exactly when `x` is not in `t` and `t` has none. */
  lemma NoDuplicatesCons(x: string, t: seq<string>)
    ensures NoDuplicates([x] + t) <==> x !in t && NoDuplicates(t)
  {
    var s := [x] + t;
    if x !in t && NoDuplicates(t) {
      forall i, j | 0 <= i < j < |s| ensures s[i] != s[j] {
        if i == 0 { assert s[j] == t[j - 1]; } else { assert s[i] == t[i - 1] && s[j] == t[j - 1]; }
      }
    }
    if NoDuplicates(s) {
      forall i, j | 0 <= i < j < |t| ensures t[i] != t[j] {
        assert t[i] == s[i + 1] && t[j] == s[j + 1];
      }
    }
    if x in t {
      var k :| 0 <= k < |t| && t[k] == x;
      assert s[0] == s[k + 1];
    }
  }

  /** Filtering a duplicate-free list leaves it duplicate-free. */
  lemma {:induction false} RemoveNoDuplicates(s: seq<string>, c: string)
    requires NoDuplicates(s)
    ensures NoDuplicates(Remove(s, c))
    decreases |s|
  {
    if s != [] {
      NoDuplicatesCons(s[0], s[1..]);
      assert [s[0]] + s[1..] == s;
      RemoveNoDuplicates(s[1..], c);
      if s[0] != c {
        NoDuplicatesCons(s[0], Remove(s[1..], c));
      }
    }
  }

  // ----- Lemmas about Toggle -----

  /** Toggling an absent concern appends it as the last element; every earlier element keeps its position. */
  lemma ToggleAbsent(s: seq<string>, c: string)
    requires c !in s
    ensures |Toggle(s, c)| == |s| + 1
    ensures Toggle(s, c)[..|s|] == s
    ensures Toggle(s, c)[|s|] == c
  {
  }

  /** Toggling a present concern removes every occurrence, keeping the order and count of all other elements. */
  lemma TogglePresent(s: seq<string>, c: string)
    requires c in s
    ensures c !in Toggle(s, c)
    ensures IsSubsequence(Toggle(s, c), s)
    ensures multiset(Toggle(s, c)) == multiset(s)[c := 0]
  {
    RemoveIsSubsequence(s, c);
  }

  /** Toggle keeps the list duplicate-free, whatever the concern. */
  lemma ToggleKeepsNoDuplicates(s: seq<string>, c: string)
    requires NoDuplicates(s)
    ensures NoDuplicates(Toggle(s, c))
  {
    if c in s {
      RemoveNoDuplicates(s, c);
    }
  }

  /** Toggle keeps the list duplicate-free and inside the catalog, when the toggled concern is from the catalog. */
  lemma ToggleKeepsValid(s: seq<string>, c: string)
    requires ValidSelection(s)
    requires c in Catalog
    ensures ValidSelection(Toggle(s, c))
  {
    ToggleKeepsNoDuplicates(s, c);
  }

  /** Toggling an absent concern twice restores the exact original list. */
  lemma ToggleTwiceAbsent(s: seq<string>, c: string)
    requires c !in s
    ensures Toggle(Toggle(s, c), c) == s
  {
    RemoveAppend(s, [c], c);
    RemoveAbsent(s, c);
    assert Remove([c], c) == [];
  }

  /** Toggling a present concern twice gives back the same elements, but with that concern moved to the end. */
  lemma ToggleTwicePresent(s: seq<string>, c: string)
    requires c in s
    ensures Toggle(Toggle(s, c), c) == Remove(s, c) + [c]
    ensures forall x :: x in Toggle(Toggle(s, c), c) <==> x in s
  {
  }

  /** For a duplicate-free list `a + [c] + b`, toggling `c` twice gives `a + b + [c]`. */
  lemma ToggleTwiceMovesToEnd(a: seq<string>, c: string, b: seq<string>)
    requires NoDuplicates(a + [c] + b)
    ensures Toggle(Toggle(a + [c] + b, c), c) == a + b + [c]
  {
    var s := a + [c] + b;
    OnlyOccurrence(a, c, b);
    var once := Toggle(s, c);
    assert once == a + b by {
      assert c in s;
      RemoveSingle(a, c, b);
    }
    assert c !in once;
  }

  /** Filtering the single occurrence of `c` out of `a + [c] + b` leaves `a + b`. */
  lemma RemoveSingle(a: seq<string>, c: string, b: seq<string>)
    requires c !in a && c !in b
    ensures Remove(a + [c] + b, c) == a + b
  {
    calc {
      Remove(a + [c] + b, c);
      { RemoveAppend(a + [c], b, c); }
      Remove(a + [c], c) + Remove(b, c);
      { RemoveAppend(a, [c], c); }
      Remove(a, c) + Remove([c], c) + Remove(b, c);
      { RemoveAbsent(a, c); RemoveAbsent(b, c); assert Remove([c], c) == []; }
      a + [] + b;
      { assert a + [] == a; }
      a + b;
    }
  }

  /** In a duplicate-free list `a + [c] + b`, `c` occurs in neither `a` nor `b`. */
  lemma OnlyOccurrence(a: seq<string>, c: string, b: seq<string>)
    requires NoDuplicates(a + [c] + b)
    ensures c !in a && c !in b
  {
    var s := a + [c] + b;
    assert s[|a|] == c;
    forall k | 0 <= k < |a| ensures a[k] != c { assert s[k] == a[k]; }
    forall k | 0 <= k < |b| ensures b[k] != c { assert s[|a| + 1 + k] == b[k]; }
  }

  /** On a duplicate-free list, toggling twice is the identity exactly when the concern
      was absent or already the last element. */
  lemma ToggleTwiceIdentity(s: seq<string>, c: string)
    requires NoDuplicates(s)
    ensures Toggle(Toggle(s, c), c) == s <==> (c !in s || s[|s| - 1] == c)
  {
    if c !in s {
      ToggleTwiceAbsent(s, c);
    } else {
      var k :| 0 <= k < |s| && s[k] == c;
      assert s == s[..k] + [c] + s[k + 1..];
      ToggleTwiceMovesToEnd(s[..k], c, s[k + 1..]);
      if s[|s| - 1] == c {
        assert k == |s| - 1;
        assert s[k + 1..] == [];
      } else {
        var r := Toggle(Toggle(s, c), c);
        assert r[|r| - 1] == c;
        assert |r| == |s|;
      }
    }
  }

  /** A duplicate-free list has exactly as many elements as its set. */
  lemma {:induction false} NoDuplicatesCard(s: seq<string>)
    requires NoDuplicates(s)
    ensures |set x | x in s| == |s|
    decreases |s|
  {
    if s != [] {
      NoDuplicatesCons(s[0], s[1..]);
      assert [s[0]] + s[1..] == s;
      NoDuplicatesCard(s[1..]);
      var tail := set x | x in s[1..];
      assert (set x | x in s) == tail + {s[0]};
      assert s[0] !in tail;
    }
  }

  /** A valid selection never holds more than the seven catalog statements. */
  lemma ValidSelectionBounded(s: seq<string>)
    requires ValidSelection(s)
    ensures |s| <= |Catalog|
  {
    NoDuplicatesCard(s);
    var chosen := set x | x in s;
    var all := set x | x in Catalog;
    assert chosen <= all;
    assert |all| <= 7 by {
      assert all == {Catalog[0], Catalog[1], Catalog[2], Catalog[3], Catalog[4], Catalog[5], Catalog[6]};
    }
    SubsetCard(chosen, all);
  }

  /** The size of a subset is at most the size of the set. */
  lemma SubsetCard(a: set<string>, b: set<string>)
    requires a <= b
    ensures |a| <= |b|
  {
    assert b == a + (b - a);
  }

  /** The catalog itself is a valid selection of seven distinct statements. */
  lemma CatalogIsValid()
    ensures |Catalog| == 7
    ensures ValidSelection(Catalog)
  {
  }
}
