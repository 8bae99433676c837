/** The category selection of the listing screen: the list of selected item ids
    and the toggle that a tap on a category chip applies to it. The toggle works
    on values (findIndex, filter and spread build a new list); the screen stores
    the new list in its state slot, see PointsScreen. */
module Selection {

  /** The position of the first occurrence of `id` in `s`, or -1 when there is
      none, as Array.prototype.findIndex with an `===` test returns it. */
  function FindIndex(s: seq<int>, id: int): (r: int)
    ensures -1 <= r < |s|
    ensures r == -1 <==> id !in s
    ensures r >= 0 ==> s[r] == id && forall j :: 0 <= j < r ==> s[j] != id
  {
    if s == [] then -1
    else if s[0] == id then 0
    else
      var k := FindIndex(s[1..], id);
      if k == -1 then -1 else k + 1
  }

  /** `s` without any occurrence of `id`, the others kept in order: the
      `filter(item => item !== id)` of the toggle. */
  function Without(s: seq<int>, id: int): (r: seq<int>)
    ensures forall x :: x in r <==> x in s && x != id
    ensures multiset(r) == multiset(s)[id := 0]
    ensures |r| == |s| - multiset(s)[id]
  {
    if s == [] then []
    else
      assert s == [s[0]] + s[1..];
      if s[0] == id then Without(s[1..], id)
      else [s[0]] + Without(s[1..], id)
  }

  /** The toggle of handleSelectItem: a selected id is filtered out, any other id
      is appended at the end. */
  function Toggle(s: seq<int>, id: int): (r: seq<int>)
    ensures forall x :: x in r <==> (if x == id then id !in s else x in s)
  {
    var alreadySelected := FindIndex(s, id);
    if alreadySelected >= 0 then Without(s, id) else s + [id]
  }

  /** The ids of a selection, as a set. */
  function Ids(s: seq<int>): (r: set<int>)
    ensures forall x :: x in r <==> x in s
  {
    set x | x in s
  }

  /** No id occurs twice in `s`. */
  predicate NoDuplicates(s: seq<int>)
  {
    forall i, j :: 0 <= i < j < |s| ==> s[i] != s[j]
  }

  /** The selection after tapping the chips `taps` in order, starting from the
      empty selection the screen begins with. */
  function Replay(taps: seq<int>): seq<int>
  {
    if taps == [] then [] else Toggle(Replay(taps[..|taps| - 1]), taps[|taps| - 1])
  }

  /** Replaying one more tap toggles its id in the replayed selection. */
  lemma {:induction false} ReplaySnoc(taps: seq<int>, id: int)
    ensures Replay(taps + [id]) == Toggle(Replay(taps), id)
  {
    assert (taps + [id])[..|taps|] == taps;
  }

  /** Filtering distributes over concatenation: the ids other than `id` keep
      their relative order. */
  lemma {:induction false} WithoutConcat(a: seq<int>, b: seq<int>, id: int)
    ensures Without(a + b, id) == Without(a, id) + Without(b, id)
  {
    if a == [] {
      assert a + b == b;
    } else {
      assert (a + b)[1..] == a[1..] + b;
      WithoutConcat(a[1..], b, id);
    }
  }

  /** Filtering out an id that does not occur changes nothing. */
  lemma {:induction false} WithoutAbsent(s: seq<int>, id: int)
    requires id !in s
    ensures Without(s, id) == s
  {
    if s != [] {
      WithoutAbsent(s[1..], id);
    }
  }

  /** Toggling an id that is not selected appends it: earlier entries and their
      order are unchanged and the new id is last. */
  lemma ToggleAbsent(s: seq<int>, id: int)
    requires id !in s
    ensures Toggle(s, id) == s + [id]
    ensures |Toggle(s, id)| == |s| + 1 && Toggle(s, id)[|s|] == id
    ensures Toggle(s, id)[..|s|] == s
  {
  }

  /** Toggling a selected id removes every occurrence of it and keeps every
      other id, in its relative order (stated as the distribution over
      concatenation of the filter it applies). */
  lemma TogglePresent(s: seq<int>, id: int)
    requires id in s
    ensures Toggle(s, id) == Without(s, id)
    ensures id !in Toggle(s, id)
    ensures multiset(Toggle(s, id)) == multiset(s)[id := 0]
    ensures forall a, b :: s == a + b ==> Toggle(s, id) == Without(a, id) + Without(b, id)
  {
    forall a, b | s == a + b
      ensures Toggle(s, id) == Without(a, id) + Without(b, id)
    {
      WithoutConcat(a, b, id);
    }
  }

  /** As a set, the toggle is the symmetric difference with {id}. */
  lemma ToggleIds(s: seq<int>, id: int)
    ensures Ids(Toggle(s, id)) == if id in s then Ids(s) - {id} else Ids(s) + {id}
  {
  }

  /** Toggling twice restores the set of selected ids. */
  lemma ToggleTwiceIds(s: seq<int>, id: int)
    ensures Ids(Toggle(Toggle(s, id), id)) == Ids(s)
  {
    ToggleIds(s, id);
    ToggleIds(Toggle(s, id), id);
  }

  /** Toggling an unselected id twice restores the very same list. */
  lemma ToggleTwiceAbsent(s: seq<int>, id: int)
    requires id !in s
    ensures Toggle(Toggle(s, id), id) == s
  {
    WithoutConcat(s, [id], id);
    WithoutAbsent(s, id);
  }

  /** Toggling a selected id twice moves it to the end: the list is the old
      one without the id, followed by the id once. */
  lemma ToggleTwicePresent(s: seq<int>, id: int)
    requires id in s
    ensures Toggle(Toggle(s, id), id) == Without(s, id) + [id]
  {
  }

  /** The list-level involution fails: from [1, 2], tapping 1 twice gives [2, 1]. */
  lemma ToggleTwiceReorders()
    ensures Toggle(Toggle([1, 2], 1), 1) == [2, 1]
    ensures Toggle(Toggle([1, 2], 1), 1) != [1, 2]
  {
    assert Toggle([1, 2], 1) == Without([1, 2], 1) == [2] by {
      assert [1, 2][1..] == [2];
      assert Without([2], 1) == [2] + Without([], 1) by { assert [2][1..] == []; }
    }
    assert FindIndex([2], 1) == -1;
  }

  /** The toggle keeps a duplicate-free selection duplicate-free; on such a
      selection it removes or adds exactly one entry. */
  lemma {:induction false} ToggleNoDuplicates(s: seq<int>, id: int)
    requires NoDuplicates(s)
    ensures NoDuplicates(Toggle(s, id))
    ensures |Toggle(s, id)| == if id in s then |s| - 1 else |s| + 1
  {
    if id in s {
      WithoutNoDuplicates(s, id);
      NoDuplicatesCount(s, id);
    }
  }

  lemma {:induction false} WithoutNoDuplicates(s: seq<int>, id: int)
    requires NoDuplicates(s)
    ensures NoDuplicates(Without(s, id))
  {
    if s != [] {
      assert NoDuplicates(s[1..]) by {
        forall i, j | 0 <= i < j < |s[1..]| ensures s[1..][i] != s[1..][j] {
          assert s[1..][i] == s[i + 1] && s[1..][j] == s[j + 1];
        }
      }
      WithoutNoDuplicates(s[1..], id);
      if s[0] != id {
        var w := Without(s[1..], id);
        assert s[0] !in w by {
          assert s[0] !in s[1..];
          assert multiset(w)[s[0]] <= multiset(s[1..])[s[0]];
        }
        forall i, j | 0 <= i < j < |[s[0]] + w| ensures ([s[0]] + w)[i] != ([s[0]] + w)[j] {
          if i == 0 {
            assert ([s[0]] + w)[j] == w[j - 1];
          } else {
            assert ([s[0]] + w)[i] == w[i - 1] && ([s[0]] + w)[j] == w[j - 1];
          }
        }
      }
    }
  }

  lemma {:induction false} NoDuplicatesCount(s: seq<int>, id: int)
    requires NoDuplicates(s) && id in s
    ensures multiset(s)[id] == 1
  {
    var k := FindIndex(s, id);
    assert s == s[..k] + [id] + s[k + 1..];
    assert id !in s[..k];
    assert id !in s[k + 1..] by {
      forall j | k + 1 <= j < |s| ensures s[j] != id {
      }
    }
    calc {
      multiset(s)[id];
      multiset(s[..k])[id] + multiset([id])[id] + multiset(s[k + 1..])[id];
      1;
    }
  }

  /** Starting from the empty selection, any sequence of taps leaves the
      selection free of duplicates. */
  lemma {:induction false} ReplayNoDuplicates(taps: seq<int>)
    ensures NoDuplicates(Replay(taps))
  {
    if taps != [] {
      ReplayNoDuplicates(taps[..|taps| - 1]);
      ToggleNoDuplicates(Replay(taps[..|taps| - 1]), taps[|taps| - 1]);
    }
  }

  /** One more tap flips the parity of a tap count. */
  lemma SuccessorParity(n: int)
    ensures (n + 1) % 2 == 1 <==> n % 2 != 1
  {
  }

  /** Starting from the empty selection, an id is selected exactly when it was
      tapped an odd number of times. */
  lemma {:induction false} ReplayParity(taps: seq<int>, x: int)
    ensures x in Replay(taps) <==> multiset(taps)[x] % 2 == 1
  {
    if taps == [] {
      assert multiset(taps)[x] == 0;
    } else {
      var front, last := taps[..|taps| - 1], taps[|taps| - 1];
      assert taps == front + [last];
      var before := Replay(front);
      assert Replay(taps) == Toggle(before, last);
      ReplayParity(front, x);
      var n, m := multiset(front)[x], multiset(taps)[x];
      assert x in before <==> n % 2 == 1;
      if x == last {
        assert m == n + 1;
        assert x in Replay(taps) <==> x !in before;
        SuccessorParity(n);
      } else {
        assert m == n;
        assert x in Replay(taps) <==> x in before;
      }
    }
  }
}
