/**
  The like toggle of `likePost`: a search of the post's `likes` for the
  caller's id, then either an append or a removal of every occurrence.
 */
module Likes {

  /** Each user id occurs at most once. */
  predicate NoDup(s: seq<string>) {
    forall i, j :: 0 <= i < j < |s| ==> s[i] != s[j]
  }

  /** `a` is `b` with some elements dropped, the rest kept in order. */
  predicate IsSubsequence(a: seq<string>, b: seq<string>) {
    if |a| == 0 then true
    else if |b| == 0 then false
    else if a[0] == b[0] then IsSubsequence(a[1..], b[1..])
    else IsSubsequence(a, b[1..])
  }

  /** `likes.findIndex(id => id === u)`: the first position holding `u`, or -1. */
  function FindIndex(likes: seq<string>, u: string): (r: int)
    ensures -1 <= r < |likes|
    ensures r == -1 <==> u !in likes
    ensures 0 <= r ==> likes[r] == u && u !in likes[..r]
  {
    if |likes| == 0 then -1
    else if likes[0] == u then 0
    else
      var k := FindIndex(likes[1..], u);
      if k == -1 then -1
      else
        assert likes[..k + 1] == [likes[0]] + likes[1..][..k];
        k + 1
  }

  /** `likes.filter(id => id !== u)`. */
  function RemoveAll(likes: seq<string>, u: string): (r: seq<string>)
    ensures multiset(r) == multiset(likes)[u := 0]
    ensures u !in r
  {
    if |likes| == 0 then []
    else
      assert likes == [likes[0]] + likes[1..];
      if likes[0] == u then RemoveAll(likes[1..], u)
      else [likes[0]] + RemoveAll(likes[1..], u)
  }

  /** The removal keeps the remaining ids in their original relative order. */
  lemma {:induction false} RemoveAllKeepsOrder(likes: seq<string>, u: string)
    ensures IsSubsequence(RemoveAll(likes, u), likes)
  {
    if |likes| > 0 {
      RemoveAllKeepsOrder(likes[1..], u);
      var r := RemoveAll(likes, u);
      if likes[0] != u {
        assert r[1..] == RemoveAll(likes[1..], u);
      }
    }
  }

  /** Removing an id that is not there changes nothing. */
  lemma {:induction false} RemoveAllAbsent(likes: seq<string>, u: string)
    requires u !in likes
    ensures RemoveAll(likes, u) == likes
  {
    if |likes| > 0 {
      RemoveAllAbsent(likes[1..], u);
      assert likes == [likes[0]] + likes[1..];
    }
  }

  /** Removing `u` from `likes + [u]` removes the appended copy too. */
  lemma {:induction false} RemoveAllAppended(likes: seq<string>, u: string)
    ensures RemoveAll(likes + [u], u) == RemoveAll(likes, u)
  {
    if |likes| > 0 {
      assert (likes + [u])[1..] == likes[1..] + [u];
      RemoveAllAppended(likes[1..], u);
    }
  }

  /** The removal keeps the ids pairwise distinct. */
  lemma {:induction false} RemoveAllKeepsNoDup(likes: seq<string>, u: string)
    requires NoDup(likes)
    ensures NoDup(RemoveAll(likes, u))
  {
    if |likes| > 0 {
      var tail := likes[1..];
      assert NoDup(tail) by {
        forall i, j | 0 <= i < j < |tail| ensures tail[i] != tail[j] {
          assert tail[i] == likes[i + 1] && tail[j] == likes[j + 1];
        }
      }
      RemoveAllKeepsNoDup(tail, u);
      var rest := RemoveAll(tail, u);
      if likes[0] != u {
        assert likes[0] !in tail by {
          forall j | 0 <= j < |tail| ensures tail[j] != likes[0] {
            assert tail[j] == likes[j + 1];
          }
        }
        assert likes[0] !in multiset(rest);
        var r := [likes[0]] + rest;
        forall i, j | 0 <= i < j < |r| ensures r[i] != r[j] {
          if i == 0 {
            assert r[j] == rest[j - 1];
          } else {
            assert r[i] == rest[i - 1] && r[j] == rest[j - 1];
          }
        }
      }
    }
  }

  /** In a duplicate-free list a present id occurs exactly once. */
  lemma {:induction false} NoDupOccursOnce(likes: seq<string>, u: string)
    requires NoDup(likes) && u in likes
    ensures multiset(likes)[u] == 1
  {
    var tail := likes[1..];
    assert likes == [likes[0]] + tail;
    if likes[0] == u {
      assert u !in tail by {
        forall j | 0 <= j < |tail| ensures tail[j] != u {
          assert tail[j] == likes[j + 1];
        }
      }
    } else {
      assert NoDup(tail) by {
        forall i, j | 0 <= i < j < |tail| ensures tail[i] != tail[j] {
          assert tail[i] == likes[i + 1] && tail[j] == likes[j + 1];
        }
      }
      NoDupOccursOnce(tail, u);
    }
  }

  /**
    The toggle of `likePost`: when `findIndex` finds no `u` the id is pushed
    at the end; otherwise every occurrence of it is filtered out.
   */
  function Toggle(likes: seq<string>, u: string): (r: seq<string>)
    ensures u !in likes ==> r == likes + [u]
    ensures u in likes ==> u !in r && multiset(r) == multiset(likes)[u := 0] && IsSubsequence(r, likes)
  {
    if FindIndex(likes, u) == -1 then likes + [u]
    else
      RemoveAllKeepsOrder(likes, u);
      RemoveAll(likes, u)
  }

  /** Toggling flips whether `u` liked the post and leaves every other id's membership as it was. */
  lemma ToggleFlipsMembership(likes: seq<string>, u: string, x: string)
    ensures u in Toggle(likes, u) <==> u !in likes
    ensures x != u ==> (x in Toggle(likes, u) <==> x in likes)
  {
    if u in likes {
      var r := Toggle(likes, u);
      assert x in r <==> x in multiset(r);
      assert x in likes <==> x in multiset(likes);
    }
  }

  /** The toggle keeps the ids of a post's likes pairwise distinct. */
  lemma ToggleKeepsNoDup(likes: seq<string>, u: string)
    requires NoDup(likes)
    ensures NoDup(Toggle(likes, u))
  {
    if u in likes {
      RemoveAllKeepsNoDup(likes, u);
    } else {
      var r := likes + [u];
      forall i, j | 0 <= i < j < |r| ensures r[i] != r[j] {
        if j == |likes| {
          assert r[i] == likes[i];
        }
      }
    }
  }

  /** Liking and then unliking from a post the user had not liked restores `likes` exactly. */
  lemma ToggleTwiceFromAbsent(likes: seq<string>, u: string)
    requires u !in likes
    ensures Toggle(Toggle(likes, u), u) == likes
  {
    assert u in likes + [u];
    RemoveAllAppended(likes, u);
    RemoveAllAbsent(likes, u);
  }

  /**
    Unliking and then liking again, on duplicate-free likes, gives back the
    same ids with the same multiplicities; `u` moves to the end.
   */
  lemma ToggleTwiceFromPresent(likes: seq<string>, u: string)
    requires NoDup(likes) && u in likes
    ensures Toggle(Toggle(likes, u), u) == RemoveAll(likes, u) + [u]
    ensures multiset(Toggle(Toggle(likes, u), u)) == multiset(likes)
  {
    NoDupOccursOnce(likes, u);
    var once := Toggle(likes, u);
    assert once == RemoveAll(likes, u);
    assert multiset(once + [u]) == multiset(once) + multiset{u};
  }
}
