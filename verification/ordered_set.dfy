/**
 * A JavaScript `Set` as a duplicate-free sequence in insertion order:
 * `add` of a present element changes nothing, `delete` removes just that
 * element and keeps the order of the rest, iteration visits insertion order.
 */
module OrderedSet {

  predicate NoDup<T(==,!new)>(s: seq<T>) {
    forall i, j :: 0 <= i < j < |s| ==> s[i] != s[j]
  }

  /** `set.add(x)`. */
  function Add<T(==,!new)>(s: seq<T>, x: T): (r: seq<T>)
    ensures NoDup(s) ==> NoDup(r)
    ensures forall y :: y in r <==> y in s || y == x
    ensures x in s ==> r == s
    ensures |r| >= |s| && r[..|s|] == s
  {
    if x in s then s else s + [x]
  }

  /** `set.delete(x)`. */
  function Delete<T(==,!new)>(s: seq<T>, x: T): (r: seq<T>)
    ensures forall y :: y in r <==> y in s && y != x
    ensures NoDup(s) ==> NoDup(r)
    ensures x !in s ==> r == s
    ensures NoDup(s) && x in s ==> |r| == |s| - 1
  {
    if s == [] then []
    else
      var rest := Delete(s[1..], x);
      assert forall y :: y in s <==> y == s[0] || y in s[1..];
      if s[0] == x then rest
      else
        assert NoDup(s) ==> s[0] !in s[1..];
        [s[0]] + rest
  }

  /** Deleting a present element from a duplicate-free sequence keeps the others in their order. */
  lemma {:induction false} DeleteKeepsOrder<T(!new)>(s: seq<T>, x: T, i: int)
    requires NoDup(s) && 0 <= i < |s| && s[i] == x
    ensures Delete(s, x) == s[..i] + s[i + 1..]
    decreases |s|
  {
    var tail := s[1..];
    if i == 0 {
      assert x !in tail by {
        forall j | 0 <= j < |tail| ensures tail[j] != x {
          assert tail[j] == s[j + 1];
        }
      }
      assert s[..0] + s[1..] == tail;
    } else {
      assert s[0] != x by { assert s[0] != s[i]; }
      assert NoDup(tail) by {
        forall j, k | 0 <= j < k < |tail| ensures tail[j] != tail[k] {
          assert tail[j] == s[j + 1] && tail[k] == s[k + 1];
        }
      }
      DeleteKeepsOrder(tail, x, i - 1);
      calc {
        Delete(s, x);
        [s[0]] + Delete(tail, x);
        [s[0]] + (tail[..i - 1] + tail[i..]);
        { assert [s[0]] + tail[..i - 1] == s[..i]; assert tail[i..] == s[i + 1..]; }
        s[..i] + s[i + 1..];
      }
    }
  }
}
