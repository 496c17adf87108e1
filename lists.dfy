/** Python list operations that the engine and the scripts share. */
module Lists {

  /** `list.remove(x)`: drops the first element equal to `x`. */
  function RemoveFirst<T(==)>(s: seq<T>, x: T): (r: seq<T>)
    ensures x in s ==> |r| == |s| - 1 && multiset(r) == multiset(s) - multiset{x}
    ensures x !in s ==> r == s
  {
    if s == [] then []
    else if s[0] == x then
      assert s == [s[0]] + s[1..];
      s[1..]
    else
      var r := RemoveFirst(s[1..], x);
      assert s == [s[0]] + s[1..];
      [s[0]] + r
  }

  /** Removing the element found at `i` drops index `i` when nothing before `i` equals it. */
  lemma {:induction false} RemoveFirstAt<T>(s: seq<T>, i: nat)
    requires i < |s| && forall j :: 0 <= j < i ==> s[j] != s[i]
    ensures RemoveFirst(s, s[i]) == s[..i] + s[i + 1..]
  {
    if i > 0 {
      var tail := s[1..];
      assert s[0] != s[i] && tail[i - 1] == s[i];
      assert RemoveFirst(s, s[i]) == [s[0]] + RemoveFirst(tail, s[i]);
      hide RemoveFirst;
      assert forall j :: 0 <= j < i - 1 ==> tail[j] == s[j + 1];
      RemoveFirstAt(tail, i - 1);
      SkipAfterHead(s, i);
    }
  }

  /** Dropping index `i - 1` of the tail, then putting the head back, drops index `i`. */
  lemma SkipAfterHead<T>(s: seq<T>, i: nat)
    requires 0 < i < |s|
    ensures [s[0]] + (s[1..][..i - 1] + s[1..][i..]) == s[..i] + s[i + 1..]
  {
    assert s[1..][..i - 1] == s[1..i];
    assert s[1..][i..] == s[i + 1..];
    assert [s[0]] + s[1..i] == s[..i];
  }
}
