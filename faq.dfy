/** The FAQ accordion: at most one answer is open, and clicking a question
    opens it or, if it was the open one, closes it. */
module Faq {
  import opened Optional

  /** The click handler's update of `openIndex`. */
  function Toggle(openIndex: Option<nat>, i: nat): (r: Option<nat>)
    ensures r == None <==> openIndex == Some(i)
    ensures r != None ==> r == Some(i)
  {
    if openIndex == Some(i) then None else Some(i)
  }

  /** Clicking the same question twice restores the state exactly when that
      question was open, or nothing was; if another question was open, two
      clicks leave the clicked one closed and the other one closed too. */
  lemma ToggleTwice(openIndex: Option<nat>, i: nat)
    ensures Toggle(Toggle(openIndex, i), i) == openIndex <==> openIndex == None || openIndex == Some(i)
    ensures openIndex != None && openIndex != Some(i) ==> Toggle(Toggle(openIndex, i), i) == None
  {
  }

  class Accordion {
    /** Number of questions rendered. */
    const count: nat
    var openIndex: Option<nat>

    /** Whether question `i` shows its answer and a rotated chevron. */
    predicate IsOpen(i: nat)
      reads this
    {
      openIndex == Some(i)
    }

    /** The first question starts open. */
    constructor (count: nat)
      ensures this.count == count
      ensures openIndex == Some(0)
      ensures forall j :: IsOpen(j) <==> j == 0
    {
      this.count := count;
      openIndex := Some(0);
    }

    /** A click on question `i`, one of the rendered ones. Afterwards no other
        question is open, and question `i` is open exactly when it was closed. */
    method Click(i: nat)
      requires i < count
      modifies this
      ensures openIndex == Toggle(old(openIndex), i)
      ensures IsOpen(i) <==> !old(IsOpen(i))
      ensures forall j :: j != i ==> !IsOpen(j)
    {
      openIndex := Toggle(openIndex, i);
    }
  }
}
