/** Odd one out: toggle options; choosing option 2 completes the puzzle. */
module LogicPuzzle {

  const CorrectId := 2

  predicate NoDuplicates(s: seq<int>)
  {
    forall i, j :: 0 <= i < j < |s| ==> s[i] != s[j]
  }

  /** `selected.filter(item => item !== id)`. */
  function Remove(s: seq<int>, id: int): (r: seq<int>)
    ensures forall x :: x in r <==> x in s && x != id
    ensures |r| <= |s|
    ensures NoDuplicates(s) ==> NoDuplicates(r)
    ensures id !in s ==> r == s
  {
    if s == [] then []
    else if s[|s| - 1] == id then Remove(s[..|s| - 1], id)
    else
      var init, last := s[..|s| - 1], s[|s| - 1];
      assert NoDuplicates(s) ==>
               NoDuplicates(init) && forall i :: 0 <= i < |init| ==> init[i] != last;
      assert NoDuplicates(s) ==> last !in init;
      AppendKeepsNoDuplicates(Remove(init, id), last);
      Remove(init, id) + [last]
  }

  lemma AppendKeepsNoDuplicates(s: seq<int>, x: int)
    ensures NoDuplicates(s) && x !in s ==> NoDuplicates(s + [x])
  {
    if NoDuplicates(s) && x !in s {
      forall i, j | 0 <= i < j < |s + [x]| ensures (s + [x])[i] != (s + [x])[j] {
        if j == |s| { assert (s + [x])[i] == s[i]; }
      }
    }
  }

  /** The selection after pressing `id`: removed if present, appended if absent. */
  function Toggle(selected: seq<int>, id: int): (r: seq<int>)
    ensures id in selected ==> id !in r && forall x :: x != id ==> (x in r <==> x in selected)
    ensures id !in selected ==> r == selected + [id]
    ensures NoDuplicates(selected) ==> NoDuplicates(r)
  {
    if id in selected then Remove(selected, id) else selected + [id]
  }

  /** Pressing an unselected option twice restores the selection exactly. */
  lemma {:induction false} ToggleTwiceFromAbsent(selected: seq<int>, id: int)
    requires id !in selected
    ensures Toggle(Toggle(selected, id), id) == selected
  {
    RemoveLast(selected, id);
  }

  lemma {:induction false} RemoveLast(s: seq<int>, id: int)
    requires id !in s
    ensures Remove(s + [id], id) == s
  {
    assert (s + [id])[..|s|] == s;
  }

  /**
   * Pressing a selected option twice restores the same set of options, but
   * the option moves to the end: `[2, 1]` becomes `[1, 2]`.
   */
  lemma ToggleTwiceFromPresent(selected: seq<int>, id: int)
    requires id in selected
    ensures forall x :: x in Toggle(Toggle(selected, id), id) <==> x in selected
    ensures Toggle(Toggle([2, 1], 2), 2) == [1, 2]
  {
    assert Remove([2, 1], 2) == [1] by {
      assert [2, 1][..1] == [2];
      assert Remove([2], 2) == Remove([], 2);
    }
  }

  class LogicPuzzle {
    var selected: seq<int>
    /** How many times `onComplete` has been called. */
    var completions: nat

    ghost predicate Valid()
      reads this
    {
      NoDuplicates(selected)
    }

    /** The `config` prop is accepted and never read, so it is not modelled. */
    constructor ()
      ensures Valid() && selected == [] && completions == 0
    {
      selected := [];
      completions := 0;
    }

    /** Toggles the option; option 2 calls `onComplete` in either direction. */
    method HandleSelect(id: int)
      requires Valid()
      modifies this
      ensures Valid()
      ensures selected == Toggle(old(selected), id)
      ensures (id in selected) <==> (id !in old(selected))
      ensures completions == old(completions) + (if id == CorrectId then 1 else 0)
    {
      if id in selected {
        selected := Remove(selected, id);
      } else {
        selected := selected + [id];
      }
      if id == CorrectId {
        completions := completions + 1;
      }
    }
  }
}
