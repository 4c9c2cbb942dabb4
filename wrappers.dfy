/** An optional value: `None` stands for JavaScript's `undefined`, `null` or NaN, as each use says. */
module Wrappers {

  datatype Option<+T> = None | Some(value: T) {

    /** The value, or `default` when there is none (JavaScript's `x ?? default`). */
    function GetOr(default: T): T {
      match this
      case Some(v) => v
      case None => default
    }
  }

  /** The outcome of a call that may throw: its value, or the message of the error thrown. */
  datatype Result<+T> = Success(value: T) | Failure(error: string)
}

/** Sequence helpers shared by the string primitives and the admin order list. */
module Seqs {

  /** `r` is `s` with some elements deleted and the rest kept in their order. */
  ghost predicate IsSubsequence<T>(r: seq<T>, s: seq<T>)
    decreases |s|
  {
    if r == [] then true
    else if s == [] then false
    else if r[0] == s[0] then IsSubsequence(r[1..], s[1..])
    else IsSubsequence(r, s[1..])
  }

  /** JavaScript's `Array.prototype.filter` (and a global `String.prototype.replace` with a
      character class and an empty replacement, which keeps the characters outside the class). */
  function Filter<T(==,!new)>(s: seq<T>, p: T -> bool): (r: seq<T>)
    ensures forall i :: 0 <= i < |r| ==> p(r[i])
    ensures IsSubsequence(r, s)
    ensures (forall i :: 0 <= i < |s| ==> p(s[i])) ==> r == s
  {
    if s == [] then []
    else if p(s[0]) then
      var r := [s[0]] + Filter(s[1..], p);
      assert r[0] == s[0] && r[1..] == Filter(s[1..], p);
      r
    else Filter(s[1..], p)
  }

  /** The filter keeps every occurrence of the elements that pass and none of the others. */
  lemma {:induction false} FilterCounts<T(!new)>(s: seq<T>, p: T -> bool)
    ensures forall x :: multiset(Filter(s, p))[x] == if p(x) then multiset(s)[x] else 0
  {
    if s != [] {
      FilterCounts(s[1..], p);
      assert s == [s[0]] + s[1..];
    }
  }
}
