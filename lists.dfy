/**
 * `Array.prototype.filter` and the counting and index-removal idioms the pages
 * build on it, with the properties the pages rely on.
 */
module Lists {

  /** `r` can be obtained from `s` by deleting elements, keeping the rest in order. */
  predicate IsSubsequence<T(==, !new)>(r: seq<T>, s: seq<T>)
    decreases |s|
  {
    r == [] || (s != [] && if r[0] == s[0] then IsSubsequence(r[1..], s[1..]) else IsSubsequence(r, s[1..]))
  }

  /** `s.filter(f)`: the elements satisfying `f`, in their original order. */
  function Filter<T(==, !new)>(s: seq<T>, f: T -> bool): (r: seq<T>)
    ensures |r| <= |s|
    ensures forall x :: x in r <==> x in s && f(x)
    ensures forall x :: multiset(r)[x] == if f(x) then multiset(s)[x] else 0
    ensures IsSubsequence(r, s)
  {
    if s == [] then []
    else
      var rest := Filter(s[1..], f);
      assert s == [s[0]] + s[1..];
      if f(s[0]) then [s[0]] + rest else rest
  }

  /** Filtering with a predicate every element satisfies gives the list back. */
  lemma {:induction false} FilterKeepsAll<T(!new)>(s: seq<T>, f: T -> bool)
    requires forall x :: x in s ==> f(x)
    ensures Filter(s, f) == s
  {
    if s != [] {
      FilterKeepsAll(s[1..], f);
    }
  }

  /** Two predicates that agree on the list's elements filter it alike. */
  lemma {:induction false} FilterAgrees<T(!new)>(s: seq<T>, f: T -> bool, g: T -> bool)
    requires forall x :: x in s ==> f(x) == g(x)
    ensures Filter(s, f) == Filter(s, g)
  {
    if s != [] {
      FilterAgrees(s[1..], f, g);
    }
  }

  /** `s.filter(f).length` */
  function Count<T(==, !new)>(s: seq<T>, f: T -> bool): (n: nat)
    ensures n <= |s|
  {
    |Filter(s, f)|
  }

  /** When every element satisfies exactly one of `f` and `g`, the two counts add up to the length. */
  lemma {:induction false} CountSplit<T(!new)>(s: seq<T>, f: T -> bool, g: T -> bool)
    requires forall x :: x in s ==> f(x) != g(x)
    ensures Count(s, f) + Count(s, g) == |s|
  {
    if s != [] {
      CountSplit(s[1..], f, g);
    }
  }

  /**
   * `s.filter((_, i) => i !== index)`, written as the filter runs: the element
   * at position `pos + k` of the original list is kept unless `pos + k == index`.
   */
  function FilterIndex<T>(s: seq<T>, index: int, pos: int): (r: seq<T>)
  {
    if s == [] then []
    else
      var rest := FilterIndex(s[1..], index, pos + 1);
      if pos != index then [s[0]] + rest else rest
  }

  /** Removing a position that lies outside the (remaining) list keeps the list. */
  lemma {:induction false} FilterIndexOutside<T>(s: seq<T>, index: int, pos: int)
    requires index < pos || index >= pos + |s|
    ensures FilterIndex(s, index, pos) == s
  {
    if s != [] {
      FilterIndexOutside(s[1..], index, pos + 1);
    }
  }

  /** Removing a position inside the list drops exactly that element. */
  lemma {:induction false} FilterIndexInside<T>(s: seq<T>, index: int, pos: int)
    requires pos <= index < pos + |s|
    ensures FilterIndex(s, index, pos) == s[..index - pos] + s[index - pos + 1..]
  {
    var k := index - pos;
    if k == 0 {
      FilterIndexOutside(s[1..], index, pos + 1);
      assert s[..0] + s[1..] == s[1..];
    } else {
      var t := s[1..];
      FilterIndexInside(t, index, pos + 1);
      assert FilterIndex(s, index, pos) == [s[0]] + (t[..k - 1] + t[k..]);
      assert s[..k] == [s[0]] + t[..k - 1];
      assert s[k + 1..] == t[k..];
    }
  }

  /**
   * The delete button's update: the element at `index` is gone, the others keep
   * their relative order, and an index outside the list changes nothing.
   */
  function RemoveAt<T>(s: seq<T>, index: int): (r: seq<T>)
    ensures 0 <= index < |s| ==> r == s[..index] + s[index + 1..] && |r| == |s| - 1
    ensures !(0 <= index < |s|) ==> r == s
  {
    var r := FilterIndex(s, index, 0);
    if 0 <= index < |s| then
      FilterIndexInside(s, index, 0);
      r
    else
      FilterIndexOutside(s, index, 0);
      r
  }
}
