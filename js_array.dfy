/** The two JavaScript array operations the server relies on for its bookkeeping lists:
    `indexOf`, which answers -1 for a missing element, and `splice(start, 1)`, which counts a
    negative start from the end. Together they make `list.splice(list.indexOf(x), 1)` remove
    the LAST element when `x` is missing. */
module JsArray {

  /** `s.indexOf(x)`: the first position holding `x`, or -1. */
  function IndexOf<T(==)>(s: seq<T>, x: T): (i: int)
    ensures -1 <= i < |s|
    ensures i == -1 <==> x !in s
    ensures 0 <= i ==> s[i] == x && x !in s[..i]
    decreases |s|
  {
    if s == [] then -1
    else if s[0] == x then 0
    else
      var j := IndexOf(s[1..], x);
      if j == -1 then -1
      else
        assert s[..j + 1] == [s[0]] + s[1..][..j];
        j + 1
  }

  /** `s.splice(start, 1)` on the array, seen through its new contents: a negative start
      counts from the end and is clamped at 0, a start past the end removes nothing. */
  function SpliceOne<T>(s: seq<T>, start: int): (r: seq<T>)
    ensures |r| == if -|s| <= start < |s| then |s| - 1 else if start < -|s| && |s| > 0 then |s| - 1 else |s|
  {
    var at := if start < 0 then (if |s| + start < 0 then 0 else |s| + start) else start;
    if at < |s| then s[..at] + s[at + 1..] else s
  }

  /** Splicing at a position inside the array removes exactly that element. */
  lemma SpliceAt<T>(s: seq<T>, i: int)
    requires 0 <= i < |s|
    ensures SpliceOne(s, i) == s[..i] + s[i + 1..]
    ensures multiset(SpliceOne(s, i)) == multiset(s) - multiset{s[i]}
  {
    assert s == s[..i] + ([s[i]] + s[i + 1..]);
    calc {
      multiset(s);
      multiset(s[..i]) + multiset([s[i]] + s[i + 1..]);
      multiset(s[..i] + s[i + 1..]) + multiset{s[i]};
    }
  }

  /** Removing a present element removes its first occurrence and keeps the order of the
      rest. */
  lemma SpliceFound<T>(s: seq<T>, x: T, i: int)
    requires x in s && i == IndexOf(s, x)
    ensures SpliceOne(s, i) == s[..i] + s[i + 1..] && x !in s[..i]
    ensures multiset(SpliceOne(s, i)) == multiset(s) - multiset{x}
  {
    SpliceAt(s, i);
  }

  /** Removing a missing element removes the last element instead. */
  lemma SpliceMissing<T>(s: seq<T>, x: T)
    requires x !in s && s != []
    ensures SpliceOne(s, IndexOf(s, x)) == s[..|s| - 1]
  {
  }

  /** Where Node's `removeListener` finds a listener: it scans from the end, so the most
      recently added occurrence, or -1. */
  function LastIndexOf<T(==)>(s: seq<T>, x: T): (i: int)
    ensures -1 <= i < |s|
    ensures i == -1 <==> x !in s
    ensures 0 <= i ==> s[i] == x && x !in s[i + 1..]
    decreases |s|
  {
    if s == [] then -1
    else if s[|s| - 1] == x then |s| - 1
    else
      var init := s[..|s| - 1];
      var i := LastIndexOf(init, x);
      assert s == init + [s[|s| - 1]];
      if i < 0 then i
      else
        assert s[i + 1..] == init[i + 1..] + [s[|s| - 1]];
        i
  }

  /** Node's `emitter.removeListener(event, f)`: the most recently added occurrence of `f`
      goes, nothing else changes. */
  function RemoveLastOccurrence<T(==)>(s: seq<T>, x: T): (r: seq<T>)
    ensures x !in s ==> r == s
    ensures x in s ==> |r| == |s| - 1 && multiset(r) == multiset(s) - multiset{x}
    ensures x in s ==> exists i :: 0 <= i < |s| && s[i] == x && x !in s[i + 1..] && r == s[..i] + s[i + 1..]
  {
    var i := LastIndexOf(s, x);
    if i < 0 then s
    else
      assert s == s[..i] + [s[i]] + s[i + 1..];
      s[..i] + s[i + 1..]
  }
}
