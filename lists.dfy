/** `List<T>.Remove`: the one list operation several classes share. */
module Lists {

  /** The position of the first occurrence of `x` (`List.IndexOf`). */
  function IndexOf<T(==)>(s: seq<T>, x: T): (k: nat)
    requires x in s
    ensures k < |s| && s[k] == x && x !in s[..k]
  {
    if s[0] == x then 0
    else
      var k := IndexOf(s[1..], x);
      assert s[..k + 1] == [s[0]] + s[1..][..k];
      k + 1
  }

  /**
   * `List.Remove(x)`: drop the first occurrence of `x`; a list without `x`
   * is returned unchanged.
   */
  function RemoveFirst<T(==)>(s: seq<T>, x: T): (r: seq<T>)
    ensures x !in s ==> r == s
    ensures x in s ==> r == s[..IndexOf(s, x)] + s[IndexOf(s, x) + 1..]
  {
    if s == [] then []
    else if s[0] == x then s[1..]
    else
      var t := RemoveFirst(s[1..], x);
      if x in s[1..] then
        var k := IndexOf(s[1..], x);
        assert IndexOf(s, x) == k + 1;
        assert [s[0]] + s[1..][..k] == s[..k + 1];
        assert s[1..][k + 1..] == s[k + 2..];
        [s[0]] + t
      else
        assert s == [s[0]] + s[1..];
        [s[0]] + t
  }

  /** Removing drops exactly one copy of `x` when there is one, and nothing else. */
  lemma RemoveFirstMultiset<T>(s: seq<T>, x: T)
    ensures multiset(RemoveFirst(s, x)) == multiset(s) - multiset{x}
  {
    if x in s {
      var k := IndexOf(s, x);
      var a, b := s[..k], s[k + 1..];
      assert s == a + [x] + b;
      assert multiset(s) == multiset(a) + multiset{x} + multiset(b);
      assert RemoveFirst(s, x) == a + b;
      assert multiset(a + b) == multiset(a) + multiset(b);
    } else {
      assert multiset(s)[x] == 0;
      assert multiset(s) - multiset{x} == multiset(s);
    }
  }
}

/** Optional values and outcomes that can fail. */
module Wrappers {
  datatype Option<T> = None | Some(value: T)
  datatype Result<T, E> = Success(value: T) | Failure(error: E)
}
