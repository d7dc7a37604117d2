/**
 * `list.filter((x) => x.id !== id)`: the one list operation the cart, the
 * admin product table and the admin user table share. `key` reads the id
 * of an element.
 */
module Listing {

  /** No two elements of `s` have the same key. */
  ghost predicate DistinctKeys<T>(s: seq<T>, key: T -> int) {
    forall i, j :: 0 <= i < j < |s| ==> key(s[i]) != key(s[j])
  }

  /** The elements of `s` whose key is not `id`, in their original order. */
  function Without<T(==,!new)>(s: seq<T>, key: T -> int, id: int): (r: seq<T>)
    ensures |r| <= |s|
    ensures forall i :: 0 <= i < |r| ==> key(r[i]) != id
    ensures forall x :: x in r <==> x in s && key(x) != id
    ensures (forall i :: 0 <= i < |s| ==> key(s[i]) != id) ==> r == s
  {
    if s == [] then []
    else if key(s[0]) == id then Without(s[1..], key, id)
    else [s[0]] + Without(s[1..], key, id)
  }

  /** Filtering works element by element, so it keeps the relative order of what it keeps. */
  lemma {:induction false} WithoutAppend<T(!new)>(a: seq<T>, b: seq<T>, key: T -> int, id: int)
    ensures Without(a + b, key, id) == Without(a, key, id) + Without(b, key, id)
  {
    if a != [] {
      assert (a + b)[0] == a[0] && (a + b)[1..] == a[1..] + b;
      WithoutAppend(a[1..], b, key, id);
      var head := if key(a[0]) == id then [] else [a[0]];
      assert Without(a + b, key, id) == head + Without(a[1..] + b, key, id);
      assert Without(a, key, id) == head + Without(a[1..], key, id);
    } else {
      assert a + b == b;
    }
  }

  /** Filtering twice by the same id is filtering once. */
  lemma WithoutIdempotent<T(!new)>(s: seq<T>, key: T -> int, id: int)
    ensures Without(Without(s, key, id), key, id) == Without(s, key, id)
  {
  }

  /** A list without duplicate keys has none after filtering. */
  lemma {:induction false} WithoutKeepsDistinct<T(!new)>(s: seq<T>, key: T -> int, id: int)
    requires DistinctKeys(s, key)
    ensures DistinctKeys(Without(s, key, id), key)
  {
    if s != [] {
      var tail := s[1..];
      assert DistinctKeys(tail, key) by {
        forall i, j | 0 <= i < j < |tail| ensures key(tail[i]) != key(tail[j]) {
          assert tail[i] == s[i + 1] && tail[j] == s[j + 1];
        }
      }
      WithoutKeepsDistinct(tail, key, id);
      var rest := Without(tail, key, id);
      if key(s[0]) != id {
        forall x | x in rest ensures key(x) != key(s[0]) {
          var j :| 0 <= j < |tail| && tail[j] == x;
          assert s[j + 1] == x;
        }
        var r := [s[0]] + rest;
        forall i, j | 0 <= i < j < |r| ensures key(r[i]) != key(r[j]) {
          if i == 0 {
            assert r[j] == rest[j - 1] && r[j] in rest;
          } else {
            assert r[i] == rest[i - 1] && r[j] == rest[j - 1];
          }
        }
      }
    }
  }
}
