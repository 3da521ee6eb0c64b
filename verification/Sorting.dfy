// std::sort and std::unique on integers.
module Sorting {
  predicate Ascending(s: seq<int>) { forall i, j :: 0 <= i < j < |s| ==> s[i] <= s[j] }

  predicate Strict(s: seq<int>) { forall i, j :: 0 <= i < j < |s| ==> s[i] < s[j] }

  lemma Prepend(x: int, s: seq<int>)
    requires Ascending(s) && (s != [] ==> x <= s[0])
    ensures Ascending([x] + s)
  {
  }

  lemma AscendingRest(s: seq<int>)
    requires Ascending(s) && s != []
    ensures Ascending(s[1..]) && (|s| > 1 ==> s[0] <= s[1])
  {
  }

  function Insert(x: int, s: seq<int>): (r: seq<int>)
    requires Ascending(s)
    ensures Ascending(r) && multiset(r) == multiset(s) + multiset{x}
    ensures r != [] && (r[0] == x || (s != [] && r[0] == s[0]))
  {
    if s == [] || x <= s[0] then
      Prepend(x, s);
      [x] + s
    else
      assert s == [s[0]] + s[1..];
      AscendingRest(s);
      var t := Insert(x, s[1..]);
      Prepend(s[0], t);
      [s[0]] + t
  }

  function Sort(s: seq<int>): (r: seq<int>)
    ensures Ascending(r) && multiset(r) == multiset(s) && |r| == |s|
  {
    if s == [] then []
    else
      assert s == [s[0]] + s[1..];
      Insert(s[0], Sort(s[1..]))
  }

  function Unique(s: seq<int>): (r: seq<int>)
    requires Ascending(s)
    ensures Strict(r) && (forall x :: x in r <==> x in s)
    ensures s != [] ==> r != [] && r[0] == s[0]
  {
    if |s| <= 1 then s
    else
      var t := Unique(s[1..]);
      assert s == [s[0]] + s[1..];
      if s[0] == s[1] then t else [s[0]] + t
  }

  // sort, then erase duplicates
  function SortUnique(s: seq<int>): (r: seq<int>)
    ensures Strict(r) && (forall x :: x in r <==> x in s)
  {
    var t := Sort(s);
    assert forall x :: x in t <==> x in multiset(t);
    assert forall x :: x in s <==> x in multiset(s);
    Unique(t)
  }

  // A list in strict order is its own sorted list of distinct numbers.
  lemma {:induction false} SortStays(s: seq<int>)
    requires Strict(s)
    ensures Sort(s) == s
  {
    if s != [] { SortStays(s[1..]); }
  }

  lemma {:induction false} UniqueStays(s: seq<int>)
    requires Strict(s)
    ensures Unique(s) == s
  {
    if s != [] { UniqueStays(s[1..]); }
  }
}
