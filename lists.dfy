/** The one JavaScript array operation the game's removal loops use. */
module Lists {

  /** `list.splice(i, 1)`: removes element i, and nothing when i is past
      the end. */
  function Splice<T>(list: seq<T>, i: nat): seq<T>
  {
    if i < |list| then list[..i] + list[i + 1..] else list
  }

  /** The rest of a list after its first element; empty stays empty. */
  function DropFirst<T>(s: seq<T>): seq<T>
  {
    if |s| == 0 then [] else s[1..]
  }

  /** Splicing at the position of `x` removes exactly `x`. */
  lemma SpliceRemoves<T>(front: seq<T>, x: T, back: seq<T>)
    ensures Splice(front + [x] + back, |front|) == front + back
  {
    var list := front + [x] + back;
    assert list[..|front|] == front;
    assert list[|front| + 1..] == back;
  }

  /** Splicing at the end of `front` removes the first element of what
      follows, if anything follows. */
  lemma SpliceShifts<T>(front: seq<T>, back: seq<T>)
    ensures Splice(front + back, |front|) == front + DropFirst(back)
  {
    var list := front + back;
    if |back| > 0 {
      assert list[..|front|] == front;
      assert list[|front| + 1..] == back[1..];
    }
  }

  /** Splicing removes one occurrence of the element, or nothing. */
  lemma SpliceMultiset<T>(list: seq<T>, i: nat)
    ensures i < |list| ==> multiset(Splice(list, i)) + multiset{list[i]} == multiset(list)
    ensures i >= |list| ==> Splice(list, i) == list
  {
    if i < |list| {
      assert list == list[..i] + [list[i]] + list[i + 1..];
    }
  }
}
