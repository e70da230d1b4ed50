/** The Python list operations the client registry uses. */
module Lists {
  import opened Wrappers
  import opened Json

  /** No object occurs twice. */
  ghost predicate Distinct<T>(s: seq<T>)
  {
    forall i, j :: 0 <= i < j < |s| ==> s[i] != s[j]
  }

  /** The position of the first occurrence of `x`. */
  function IndexOf<T(==)>(s: seq<T>, x: T): (i: nat)
    requires x in s
    ensures i < |s| && s[i] == x
    ensures x !in s[..i]
  {
    if s[0] == x then 0 else 1 + IndexOf(s[1..], x)
  }

  /** Python's `list.remove(x)`: drop the first occurrence of `x`, or raise
      ValueError when there is none. */
  function Remove<T(==)>(s: seq<T>, x: T): (r: Result<seq<T>, PyError>)
    ensures r.Failure? <==> x !in s
    ensures r.Failure? ==> r.error == ValueError
    ensures r.Success? ==> var i := IndexOf(s, x);
      i <= |r.value| && s == r.value[..i] + [x] + r.value[i..]
  {
    if x in s then
      var i := IndexOf(s, x);
      assert s == s[..i] + [x] + s[i + 1..];
      Success(s[..i] + s[i + 1..])
    else
      Failure(ValueError)
  }

  /** Deleting position `i` keeps the elements before it and shifts every
      later element down by one. */
  lemma DeleteAt<T>(s: seq<T>, i: nat, r: seq<T>)
    requires i < |s| && r == s[..i] + s[i + 1..]
    ensures |r| == |s| - 1
    ensures forall k :: 0 <= k < i ==> r[k] == s[k]
    ensures forall k :: i <= k < |r| ==> r[k] == s[k + 1]
  {
  }

  /** Deleting a position of a duplicate-free list leaves it duplicate-free. */
  lemma DeleteDistinct<T>(s: seq<T>, i: nat, r: seq<T>)
    requires Distinct(s) && i < |s| && r == s[..i] + s[i + 1..]
    ensures Distinct(r)
  {
    DeleteAt(s, i, r);
    forall a, b | 0 <= a < b < |r| ensures r[a] != r[b] {
      var a', b' := if a < i then a else a + 1, if b < i then b else b + 1;
      assert r[a] == s[a'] && r[b] == s[b'] && a' < b';
    }
  }

  /** Deleting the only occurrence of `s[i]` leaves exactly the other members. */
  lemma DeleteMembers<T>(s: seq<T>, i: nat, r: seq<T>)
    requires Distinct(s) && i < |s| && r == s[..i] + s[i + 1..]
    ensures forall y :: y in r <==> y in s && y != s[i]
  {
    DeleteAt(s, i, r);
    forall y | y in r ensures y in s && y != s[i] {
      var k :| 0 <= k < |r| && r[k] == y;
      var k' := if k < i then k else k + 1;
      assert s[k'] == y && k' != i;
    }
    forall y | y in s && y != s[i] ensures y in r {
      var k :| 0 <= k < |s| && s[k] == y;
      var k' := if k < i then k else k - 1;
      assert r[k'] == y;
    }
  }

  /** Removing a member of a duplicate-free list leaves exactly the other
      members, still duplicate-free and in their original order. */
  lemma RemoveDistinct<T>(s: seq<T>, x: T)
    requires Distinct(s) && x in s
    ensures Remove(s, x).Success?
    ensures Distinct(Remove(s, x).value)
    ensures |Remove(s, x).value| == |s| - 1
    ensures forall y :: y in Remove(s, x).value <==> y in s && y != x
  {
    var i := IndexOf(s, x);
    var r := s[..i] + s[i + 1..];
    assert Remove(s, x) == Success(r);
    DeleteDistinct(s, i, r);
    DeleteMembers(s, i, r);
  }
}
