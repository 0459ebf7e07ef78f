/** The two list operations of .NET that the stat graph relies on:
    `List<T>.Remove`, which drops the FIRST occurrence of an element, and the
    removal of a handler from a multicast delegate (`-=`), which drops the
    LAST occurrence. Also the Option type standing for a nullable reference. */
module Lists {

  /** A reference that may be null. */
  datatype Option<T> = None | Some(value: T)

  /** Index of the first occurrence of `x` in `s`. */
  function FirstIndex<T(==)>(s: seq<T>, x: T): (k: nat)
    requires x in s
    ensures k < |s| && s[k] == x && x !in s[..k]
  {
    if s[0] == x then 0 else 1 + FirstIndex(s[1..], x)
  }

  /** Index of the last occurrence of `x` in `s`. */
  function LastIndex<T(==)>(s: seq<T>, x: T): (k: nat)
    requires x in s
    ensures k < |s| && s[k] == x && x !in s[k + 1..]
  {
    if s[|s| - 1] == x then |s| - 1 else LastIndex(s[..|s| - 1], x)
  }

  /** `List<T>.Remove(x)`: removes the first occurrence of `x`, if there is one. */
  function RemoveFirst<T(==)>(s: seq<T>, x: T): (r: seq<T>)
    ensures x !in s ==> r == s
    ensures x in s ==> |r| == |s| - 1
    ensures forall y :: y in r ==> y in s
    ensures forall y :: y in s && y != x ==> y in r
  {
    if s == [] then []
    else if s[0] == x then s[1..]
    else [s[0]] + RemoveFirst(s[1..], x)
  }

  /** Delegate `-=`: removes the last occurrence of `x`, if there is one. */
  function RemoveLast<T(==)>(s: seq<T>, x: T): (r: seq<T>)
    ensures x !in s ==> r == s
    ensures x in s ==> |r| == |s| - 1
    ensures forall y :: y in r ==> y in s
    ensures forall y :: y in s && y != x ==> y in r
  {
    if s == [] then []
    else if s[|s| - 1] == x then s[..|s| - 1]
    else RemoveLast(s[..|s| - 1], x) + [s[|s| - 1]]
  }

  /** Only the first occurrence goes: everything before and after it keeps its place. */
  lemma {:induction false} RemoveFirstAt<T>(s: seq<T>, x: T)
    requires x in s
    ensures RemoveFirst(s, x) == s[..FirstIndex(s, x)] + s[FirstIndex(s, x) + 1..]
  {
    if s[0] != x {
      var t := s[1..];
      var k := FirstIndex(t, x);
      RemoveFirstAt(t, x);
      assert FirstIndex(s, x) == k + 1;
      assert s[..k + 1] == [s[0]] + t[..k];
      assert s[k + 2..] == t[k + 1..];
      calc {
        RemoveFirst(s, x);
        [s[0]] + RemoveFirst(t, x);
        [s[0]] + (t[..k] + t[k + 1..]);
        ([s[0]] + t[..k]) + t[k + 1..];
      }
    }
  }

  /** Only the last occurrence goes: everything before and after it keeps its place. */
  lemma {:induction false} RemoveLastAt<T>(s: seq<T>, x: T)
    requires x in s
    ensures RemoveLast(s, x) == s[..LastIndex(s, x)] + s[LastIndex(s, x) + 1..]
  {
    var n := |s| - 1;
    if s[n] != x {
      var p := s[..n];
      var k := LastIndex(p, x);
      RemoveLastAt(p, x);
      assert LastIndex(s, x) == k;
      assert p[..k] == s[..k];
      assert s[k + 1..] == p[k + 1..] + [s[n]];
    }
  }

  /** `List<T>.Remove` takes away exactly one copy of `x` when there is one. */
  lemma {:induction false} RemoveFirstMultiset<T>(s: seq<T>, x: T)
    ensures multiset(RemoveFirst(s, x)) == multiset(s) - multiset{x}
  {
    if s != [] {
      assert s == [s[0]] + s[1..];
      if s[0] != x {
        RemoveFirstMultiset(s[1..], x);
      }
    }
  }

  /** Delegate `-=` takes away exactly one copy of `x` when there is one. */
  lemma {:induction false} RemoveLastMultiset<T>(s: seq<T>, x: T)
    ensures multiset(RemoveLast(s, x)) == multiset(s) - multiset{x}
  {
    if s != [] {
      var n := |s| - 1;
      assert s == s[..n] + [s[n]];
      if s[n] != x {
        RemoveLastMultiset(s[..n], x);
      }
    }
  }

  /** Removing the first occurrence of an element found at or before index `i`
      only touches the prefix up to `i`. */
  lemma {:induction false} RemoveFirstInPrefix<T>(s: seq<T>, i: nat, x: T)
    requires i < |s| && x in s[..i + 1]
    ensures RemoveFirst(s, x) == RemoveFirst(s[..i + 1], x) + s[i + 1..]
  {
    if s[0] != x {
      assert s[..i + 1][1..] == s[1..][..i];
      assert i > 0;
      RemoveFirstInPrefix(s[1..], i - 1, x);
      assert s[1..][i..] == s[i + 1..];
    }
  }

  /** Subscribing a handler and then unsubscribing it restores the invocation list. */
  lemma SubscribeThenUnsubscribe<T>(s: seq<T>, x: T)
    ensures RemoveLast(s + [x], x) == s
  {
    assert (s + [x])[..|s|] == s;
  }
}
