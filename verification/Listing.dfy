/** Listing a set in a fixed order: enumerate it in any order whatever, then sort by name. */
module Listing {
  import opened Text
  import opened Sorting

  function ByName<T>(name: T -> string): (T, T) -> bool {
    (a: T, b: T) => Less(name(a), name(b))
  }

  /** `xs` lists exactly the members of `s`, each once, by ascending name. */
  ghost predicate IsListing<T(!new)>(name: T -> string, s: set<T>, xs: seq<T>) {
    && Distinct(xs) && (forall x :: x in xs <==> x in s)
    && forall i, j :: 0 <= i < j < |xs| ==> !Less(name(xs[j]), name(xs[i]))
  }

  /** The members have different names. */
  ghost predicate Separate<T(!new)>(name: T -> string, s: set<T>) {
    forall a, b :: a in s && b in s && name(a) == name(b) ==> a == b
  }

  lemma NamesOrder<T(!new)>(name: T -> string)
    ensures Ordering(ByName(name))
  {
    hide Less;
    var less := ByName(name);
    forall a, b ensures !(less(a, b) && less(b, a)) { LessTotal(name(a), name(b)); }
    forall a, b, c | !less(b, a) && !less(c, b) ensures !less(c, a) { LessTransitive(name(a), name(b), name(c)); }
  }

  /** Go ranges over a map in an unspecified order; the sort that follows hides it. */
  method List<T(!new)>(name: T -> string, s: set<T>) returns (xs: seq<T>)
    ensures IsListing(name, s, xs)
  {
    hide Less;
    var rest := s;
    var found: seq<T> := [];
    while rest != {}
      invariant rest <= s && Distinct(found)
      invariant forall x :: x in s <==> x in found || x in rest
      invariant forall x :: x in found ==> x !in rest
      decreases |rest|
    {
      var x :| x in rest;
      assert x !in found;
      found := found + [x];
      rest := rest - {x};
    }
    xs := Sort(ByName(name), found);
    NamesOrder(name);
    SortCorrect(ByName(name), found);
    PermutedDistinct(found, xs);
    forall x ensures x in xs <==> x in s {
      assert x in xs <==> x in multiset(xs);
      assert x in found <==> x in multiset(found);
    }
  }

  /** There is one listing, and so map iteration order cannot show, exactly when no two members
      share a name. */
  lemma ListingUniqueIff<T(!new)>(name: T -> string, s: set<T>)
    ensures (forall xs, ys :: IsListing(name, s, xs) && IsListing(name, s, ys) ==> xs == ys) <==> Separate(name, s)
  {
    hide Less;
    if Separate(name, s) {
      forall xs, ys | IsListing(name, s, xs) && IsListing(name, s, ys) ensures xs == ys {
        ListingUnique(name, s, xs, ys);
      }
    } else {
      var a, b :| a in s && b in s && name(a) == name(b) && a != b;
      var xs := SomeListing(name, s);
      var i :| 0 <= i < |xs| && xs[i] == a;
      var j :| 0 <= j < |xs| && xs[j] == b;
      var ys := xs[i := b][j := a];
      Swapped(name, s, xs, i, j);
      assert xs[i] != ys[i];
    }
  }

  lemma ListingUnique<T(!new)>(name: T -> string, s: set<T>, xs: seq<T>, ys: seq<T>)
    requires Separate(name, s) && IsListing(name, s, xs) && IsListing(name, s, ys)
    ensures xs == ys
  {
    hide Less;
    SameMembers(xs, ys);
    forall a, b | a in xs && b in xs && !ByName(name)(a, b) && !ByName(name)(b, a) ensures a == b {
      LessTotal(name(a), name(b));
    }
    SortedUnique(ByName(name), xs, ys);
  }

  function Other(i: nat, j: nat, k: nat): nat {
    if k == i then j else if k == j then i else k
  }

  lemma Swapped<T(!new)>(name: T -> string, s: set<T>, xs: seq<T>, i: nat, j: nat)
    requires IsListing(name, s, xs) && i < |xs| && j < |xs| && i != j && name(xs[i]) == name(xs[j])
    ensures IsListing(name, s, xs[i := xs[j]][j := xs[i]])
  {
    hide Less, IsListing;
    var ys := xs[i := xs[j]][j := xs[i]];
    assert Distinct(xs) && forall x :: x in xs <==> x in s by { Unfold(name, s, xs); }
    forall k | 0 <= k < |xs| ensures ys[k] == xs[Other(i, j, k)] {}
    assert Distinct(ys);
    forall x ensures x in ys <==> x in s {
      if x in xs {
        var k :| 0 <= k < |xs| && xs[k] == x;
        assert ys[Other(i, j, k)] == x;
      }
    }
    StillAscending(name, s, xs, ys);
  }

  lemma Unfold<T(!new)>(name: T -> string, s: set<T>, xs: seq<T>)
    requires IsListing(name, s, xs)
    ensures Distinct(xs) && forall x :: x in xs <==> x in s
  {
    hide Less;
  }

  lemma StillAscending<T(!new)>(name: T -> string, s: set<T>, xs: seq<T>, ys: seq<T>)
    requires IsListing(name, s, xs) && Distinct(ys) && forall x :: x in ys <==> x in s
    requires |ys| == |xs| && forall k :: 0 <= k < |xs| ==> name(ys[k]) == name(xs[k])
    ensures IsListing(name, s, ys)
  {
    hide Less;
  }

  lemma SomeListing<T(!new)>(name: T -> string, s: set<T>) returns (xs: seq<T>)
    ensures IsListing(name, s, xs)
  {
    hide Less;
    var found := Enumerated(s);
    xs := Sort(ByName(name), found);
    NamesOrder(name);
    SortCorrect(ByName(name), found);
    PermutedDistinct(found, xs);
    forall x ensures x in xs <==> x in s {
      assert x in xs <==> x in multiset(xs);
      assert x in found <==> x in multiset(found);
    }
  }

  lemma {:induction false} Enumerated<T>(s: set<T>) returns (xs: seq<T>)
    ensures Distinct(xs) && forall x :: x in xs <==> x in s
    decreases |s|
  {
    xs := [];
    if s != {} {
      var x :| x in s;
      xs := Enumerated(s - {x});
      assert x !in xs;
      xs := xs + [x];
    }
  }

  function Same(s: string): string { s }

  lemma StringsAreSeparate(s: set<string>)
    ensures Separate(Same, s)
  {
  }
}
