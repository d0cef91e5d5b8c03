/** Sequences that list the elements of a finite set exactly once: the model
    of the (unspecified) order in which Go ranges over a map. */
module Enumerations {

  predicate Distinct<T(==)>(s: seq<T>) {
    forall i, j :: 0 <= i < j < |s| ==> s[i] != s[j]
  }

  /** `s` lists every element of `keys` exactly once and nothing else. */
  predicate IsEnumeration<T(==)>(s: seq<T>, keys: set<T>) {
    && Distinct(s)
    && (forall x :: x in s ==> x in keys)
    && (forall x :: x in keys ==> x in s)
  }

  /** An enumeration is as long as the set it enumerates. */
  lemma {:induction false} EnumerationSize<T>(s: seq<T>, keys: set<T>)
    requires IsEnumeration(s, keys)
    ensures |s| == |keys|
    decreases |s|
  {
    if |s| > 0 {
      var rest := keys - {s[0]};
      forall x | x in s[1..]
        ensures x in rest
      {
        var k :| 1 <= k < |s| && s[k] == x;
        assert s[0] != s[k];
      }
      assert IsEnumeration(s[1..], rest);
      EnumerationSize(s[1..], rest);
    }
  }

  /** Listing one element in front of an enumeration of the others
      enumerates the whole set. */
  lemma ConsEnumeration<T>(x: T, rest: seq<T>, keys: set<T>)
    requires x in keys && IsEnumeration(rest, keys - {x})
    ensures IsEnumeration([x] + rest, keys)
  {
    var s := [x] + rest;
    forall i, j | 0 <= i < j < |s|
      ensures s[i] != s[j]
    {
      assert s[j] == rest[j - 1];
      if i > 0 {
        assert s[i] == rest[i - 1];
      }
    }
  }

  /** Some enumeration of every finite set exists. */
  ghost function Enumerate<T>(keys: set<T>): (s: seq<T>)
    ensures IsEnumeration(s, keys)
    decreases keys
  {
    if keys == {} then []
    else
      var x :| x in keys;
      var rest := Enumerate(keys - {x});
      assert forall i :: 0 <= i < |rest| ==> rest[i] != x;
      [x] + rest
  }
}
