/**
 * The opt-out list: the ids of players who turned award notifications off.
 * The plugin keeps it as a `List<string>`; `RemoveFirst` is that list's
 * `Remove` (drop the first occurrence, if any) and `Toggled` is the chat
 * command's update: remove the id, and append it when nothing was removed.
 */
module OptOut {

  /** A player, identified by its user id string. */
  type PlayerId = string

  /** `i` is the index of the first occurrence of `x` in `s`. */
  ghost predicate IsFirstIndex(s: seq<PlayerId>, x: PlayerId, i: int) {
    0 <= i < |s| && s[i] == x && x !in s[..i]
  }

  /** Every element occurs at most once. */
  ghost predicate NoDuplicates(s: seq<PlayerId>) {
    forall y :: multiset(s)[y] <= 1
  }

  /** `List.Remove`: drops the first occurrence of `x`; `s` itself when `x` is absent. */
  function RemoveFirst(s: seq<PlayerId>, x: PlayerId): (r: seq<PlayerId>)
    ensures x !in s ==> r == s
    ensures multiset(r) == multiset(s) - multiset{x}
  {
    if s == [] then []
    else if s[0] == x then
      assert s == [s[0]] + s[1..];
      s[1..]
    else
      assert s == [s[0]] + s[1..];
      [s[0]] + RemoveFirst(s[1..], x)
  }

  /** A first occurrence past the front is a first occurrence in the tail. */
  lemma FirstIndexInTail(s: seq<PlayerId>, x: PlayerId, i: int)
    requires IsFirstIndex(s, x, i) && i > 0
    ensures s[0] != x && IsFirstIndex(s[1..], x, i - 1)
  {
    assert s[0] == s[..i][0];
    assert s[1..][..i - 1] == s[1..i];
  }

  /** Dropping index `i` of `s` is keeping `s[0]` and dropping index `i - 1` of the tail. */
  lemma DropInTail(s: seq<PlayerId>, i: int)
    requires 0 < i < |s|
    ensures [s[0]] + (s[1..][..i - 1] + s[1..][i..]) == s[..i] + s[i + 1..]
  {
    assert s[..i] == [s[0]] + s[1..][..i - 1];
    assert s[i + 1..] == s[1..][i..];
  }

  /** What `RemoveFirst` removes is exactly the first occurrence, and the rest keeps its order. */
  lemma {:induction false} RemoveFirstAt(s: seq<PlayerId>, x: PlayerId, i: int)
    requires IsFirstIndex(s, x, i)
    ensures RemoveFirst(s, x) == s[..i] + s[i + 1..]
  {
    if i > 0 {
      FirstIndexInTail(s, x, i);
      RemoveFirstAt(s[1..], x, i - 1);
      assert RemoveFirst(s, x) == [s[0]] + RemoveFirst(s[1..], x);
      DropInTail(s, i);
    }
  }

  /**
   * The list after the toggle command, `if (!Remove(x)) Add(x)`: one entry
   * of `x` fewer when it was listed, one more when it was not. Every other
   * element keeps its membership, whether or not the list has duplicates.
   */
  function Toggled(s: seq<PlayerId>, x: PlayerId): (r: seq<PlayerId>)
    ensures multiset(r) == if x in s then multiset(s) - multiset{x} else multiset(s) + multiset{x}
    ensures forall y :: y != x ==> (y in r <==> y in s)
  {
    assert forall y :: y in s <==> multiset(s)[y] > 0;
    var r := if x in s then RemoveFirst(s, x) else s + [x];
    assert forall y :: y in r <==> multiset(r)[y] > 0;
    r
  }

  /**
   * On a duplicate-free list the toggle flips the membership of `x`, leaves
   * every other element's membership alone and keeps the list duplicate-free.
   */
  lemma ToggleFlips(s: seq<PlayerId>, x: PlayerId)
    requires NoDuplicates(s)
    ensures x in Toggled(s, x) <==> x !in s
    ensures forall y :: y != x ==> (y in Toggled(s, x) <==> y in s)
    ensures NoDuplicates(Toggled(s, x))
  {
    var t := Toggled(s, x);
    if x in s {
      assert multiset(t) == multiset(s) - multiset{x};
      assert multiset(s)[x] == 1;
    } else {
      assert multiset(t) == multiset(s) + multiset{x};
    }
    assert x in t <==> multiset(t)[x] > 0;
    forall y | y != x
      ensures y in t <==> y in s
    {
      assert multiset(t)[y] == multiset(s)[y];
    }
    forall y
      ensures multiset(t)[y] <= 1
    {
      assert multiset(s)[y] <= 1;
    }
  }

  /**
   * The toggle flips the membership of `x` exactly when `x` is listed at most
   * once; with two or more entries one `Remove` leaves it listed.
   */
  lemma ToggleFlipsIff(s: seq<PlayerId>, x: PlayerId)
    ensures (x in Toggled(s, x) <==> x !in s) <==> multiset(s)[x] <= 1
  {
    var t := Toggled(s, x);
    assert x in t <==> multiset(t)[x] > 0;
    assert x in s <==> multiset(s)[x] > 0;
  }

  /**
   * When `x` is listed at most once, toggling it twice restores the list's
   * contents (as a multiset, hence every element's membership).
   */
  lemma ToggleTwice(s: seq<PlayerId>, x: PlayerId)
    requires multiset(s)[x] <= 1
    ensures multiset(Toggled(Toggled(s, x), x)) == multiset(s)
    ensures forall y :: y in Toggled(Toggled(s, x), x) <==> y in s
  {
    var t := Toggled(s, x);
    var u := Toggled(t, x);
    if x in s {
      assert multiset(t) == multiset(s) - multiset{x};
      assert multiset(t)[x] == 0;
      assert x !in t;
      assert multiset(u) == multiset(t) + multiset{x};
      assert multiset(s) == multiset(t) + multiset{x};
    } else {
      assert multiset(t) == multiset(s) + multiset{x};
      assert x in t by {
        assert multiset(t)[x] > 0;
      }
      assert multiset(u) == multiset(t) - multiset{x};
    }
    forall y
      ensures y in u <==> y in s
    {
      assert y in u <==> multiset(u)[y] > 0;
      assert y in s <==> multiset(s)[y] > 0;
    }
  }

  /** With `x` listed twice, two toggles remove both entries: the round trip fails. */
  lemma ToggleTwiceWithDuplicate()
    ensures Toggled(Toggled(["a", "a"], "a"), "a") == []
  {
    assert RemoveFirst(["a", "a"], "a") == ["a"];
    assert RemoveFirst(["a"], "a") == [];
  }

  /** ...but not necessarily its order: a removed id comes back at the end. */
  lemma ToggleTwiceReorders()
    ensures Toggled(Toggled(["a", "b"], "a"), "a") == ["b", "a"]
  {
  }

  /** Without the duplicate-free precondition the toggle need not flip membership. */
  lemma ToggleWithDuplicate()
    ensures "a" in Toggled(["a", "a"], "a") && "a" in ["a", "a"]
  {
  }
}
