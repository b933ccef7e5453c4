/** The frequently-asked-questions accordion: at most one answer is open at a time. */
module Accordion {
  import opened Common

  const FaqCount := 5

  /** The open index after toggling `index`: closes it if open, otherwise opens it alone. */
  function Toggled(open: Option<int>, index: int): (r: Option<int>)
    ensures r == Some(index) <==> open != Some(index)
    ensures r != Some(index) ==> r.None?
  {
    if open == Some(index) then None else Some(index)
  }

  /** Toggling the same question twice restores the panel only if it was the open one. */
  lemma {:induction false} ToggleTwice(open: Option<int>, index: int)
    ensures Toggled(Toggled(open, index), index) == (if open == Some(index) then open else None)
  {
    if open == Some(index) {
      assert Toggled(open, index) == None;
    } else {
      assert Toggled(open, index) == Some(index);
    }
  }

  class Panels {
    var openIndex: Option<int>

    ghost predicate Valid()
      reads this
    {
      openIndex.Some? ==> 0 <= openIndex.value < FaqCount
    }

    /** The first question starts open. */
    constructor()
      ensures Valid() && openIndex == Some(0)
    {
      openIndex := Some(0);
    }

    method Toggle(index: int)
      requires Valid() && 0 <= index < FaqCount
      modifies this
      ensures Valid()
      ensures openIndex == Toggled(old(openIndex), index)
    {
      openIndex := if openIndex == Some(index) then None else Some(index);
    }

    /** The indices whose answer is expanded. */
    function OpenPanels(): (r: set<int>)
      reads this
      requires Valid()
      ensures |r| <= 1
      ensures forall i :: i in r <==> openIndex == Some(i)
    {
      if openIndex.Some? then {openIndex.value} else {}
    }
  }
}
