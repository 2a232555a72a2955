/**
 Ordered listings, as Durable Object storage and sorted directories give them: every
 stored key once, ascending. Code that loops over a listing starts by taking one.
 */
module Storage {
  import opened Common

  ghost predicate TotalOn<T(!new)>(keys: set<T>, before: (T, T) -> bool) {
    && (forall a, b :: a in keys && b in keys && a != b ==> before(a, b) || before(b, a))
    && (forall a, b :: a in keys && b in keys && a != b ==> !(before(a, b) && before(b, a)))
    && (forall a, b, c :: a in keys && b in keys && c in keys && a != b && b != c && a != c && before(a, b) && before(b, c) ==> before(a, c))
  }

  ghost predicate Ascending<T(!new)>(listing: seq<T>, before: (T, T) -> bool) {
    forall i, j :: 0 <= i < j < |listing| ==> listing[i] != listing[j] && before(listing[i], listing[j])
  }

  ghost predicate Lists<T(!new)>(listing: seq<T>, keys: set<T>, before: (T, T) -> bool) {
    (forall k :: k in listing <==> k in keys) && Ascending(listing, before)
  }

  lemma {:induction false} Inserted<T(!new)>(listing: seq<T>, i: nat, key: T, before: (T, T) -> bool)
    requires Ascending(listing, before) && i <= |listing| && key !in listing
    requires forall j :: 0 <= j < i ==> before(listing[j], key)
    requires i < |listing| ==> before(key, listing[i])
    requires TotalOn((set k | k in listing) + {key}, before)
    ensures Ascending(listing[..i] + [key] + listing[i..], before)
  {
    var inserted := listing[..i] + [key] + listing[i..];
    forall a, b | 0 <= a < b < |inserted| ensures inserted[a] != inserted[b] && before(inserted[a], inserted[b]) {
      if a == i {
        assert inserted[b] == listing[b - 1] && inserted[b] in listing && listing[i] in listing;
      } else if b == i {
        assert inserted[a] == listing[a] && inserted[a] in listing;
      } else {
        assert inserted[a] == listing[if a < i then a else a - 1] && inserted[b] == listing[if b < i then b else b - 1];
      }
    }
  }

  method List<T(==, !new)>(keys: set<T>, before: (T, T) -> bool) returns (listing: seq<T>)
    requires TotalOn(keys, before)
    ensures Lists(listing, keys, before)
  {
    listing := [];
    var rest := keys;
    while rest != {}
      invariant rest <= keys
      invariant forall k :: k in listing <==> k in keys && k !in rest
      invariant Ascending(listing, before)
      decreases |rest|
    {
      var key :| key in rest;
      var i := 0;
      while i < |listing| && before(listing[i], key)
        invariant i <= |listing|
        invariant forall j :: 0 <= j < i ==> before(listing[j], key)
      {
        i := i + 1;
      }
      assert i < |listing| ==> listing[i] in listing;
      Inserted(listing, i, key, before);
      assert listing == listing[..i] + listing[i..];
      listing := listing[..i] + [key] + listing[i..];
      rest := rest - {key};
    }
  }

  /** A listing is determined by the keys that are stored. */
  lemma {:induction false} ListingUnique<T(!new)>(listing: seq<T>, listing': seq<T>, keys: set<T>, before: (T, T) -> bool)
    requires TotalOn(keys, before) && Lists(listing, keys, before) && Lists(listing', keys, before)
    ensures listing == listing'
    decreases |listing|
  {
    assert forall k :: k in listing <==> k in listing';
    assert (listing == []) == (keys == {}) by {
      if listing != [] {
        assert listing[0] in keys;
      }
    }
    assert (listing' == []) == (keys == {}) by {
      if listing' != [] {
        assert listing'[0] in keys;
      }
    }
    if listing != [] {
      var n, n' := |listing| - 1, |listing'| - 1;
      var last := listing[n];
      assert last in listing' && listing'[n'] in listing;
      assert listing'[n'] == last;
      assert last !in listing[..n] && last !in listing'[..n'];
      forall k ensures (k in listing[..n] <==> k in keys - {last}) && (k in listing'[..n'] <==> k in keys - {last}) {
        assert k in listing <==> k in listing[..n] || k == last;
        assert k in listing' <==> k in listing'[..n'] || k == last;
      }
      ListingUnique(listing[..n], listing'[..n'], keys - {last}, before);
      assert listing == listing[..n] + [last] && listing' == listing'[..n'] + [last];
    }
  }

  /** Among keys in a definite order one comes first. */
  lemma {:induction false} Least<T(!new)>(keys: set<T>, before: (T, T) -> bool) returns (first: T)
    requires TotalOn(keys, before) && keys != {}
    ensures first in keys && forall k :: k in keys && k != first ==> before(first, k)
    decreases |keys|
  {
    var key :| key in keys;
    var rest := keys - {key};
    if rest == {} {
      first := key;
      assert keys == {key};
    } else {
      var least := Least(rest, before);
      first := if before(key, least) then key else least;
    }
  }

  // ---------------------------------------------------------------- keys that are plain names

  lemma CodeUnitsDistinguish(a: string, b: string)
    requires CodeUnits(a) == CodeUnits(b)
    ensures a == b
  {
    forall i | 0 <= i < |a| ensures i < |b| && a[i] == b[i] {
      assert |CodeUnits(a)| == |CodeUnits(b)| && CodeUnits(a)[i] == CodeUnits(b)[i];
    }
  }

  predicate NameBefore(a: string, b: string) {
    Before(CodeUnits(a), CodeUnits(b))
  }

  lemma NamesOrdered(names: set<string>)
    ensures TotalOn(names, NameBefore)
  {
    forall a, b | a in names && b in names && a != b
      ensures (NameBefore(a, b) || NameBefore(b, a)) && !(NameBefore(a, b) && NameBefore(b, a))
    {
      BeforeTotal(CodeUnits(a), CodeUnits(b));
      if CodeUnits(a) == CodeUnits(b) {
        CodeUnitsDistinguish(a, b);
      }
    }
    forall a, b, c | a in names && b in names && c in names && NameBefore(a, b) && NameBefore(b, c) ensures NameBefore(a, c) {
      BeforeTransitive(CodeUnits(a), CodeUnits(b), CodeUnits(c));
    }
  }
}
