/**
 * The questions and answers of the landing page, an accordion in which at most one answer is
 * open: the open item's index, or none.
 */
module Faq {
  import opened Wrappers

  /** The first answer is open when the page loads. */
  const InitialOpen: Option<nat> := Some(0)

  /** An item's answer shows, and its chevron turns, when it is the open one. */
  predicate AnswerShown(open: Option<nat>, index: nat) {
    open == Some(index)
  }

  /** A click on a question: the open item closes, any other item opens in its place. */
  function Click(open: Option<nat>, index: nat): (r: Option<nat>)
    ensures r.None? <==> AnswerShown(open, index)
    ensures r.Some? ==> r.value == index
  {
    if open == Some(index) then None else Some(index)
  }

  /** After a click, the clicked answer alone shows, unless it was the one open, and then none. */
  lemma ClickShows(open: Option<nat>, index: nat, j: nat)
    ensures AnswerShown(Click(open, index), j) <==> j == index && !AnswerShown(open, index)
    ensures AnswerShown(open, index) ==> forall k :: !AnswerShown(Click(open, index), k)
  {
  }

  /** A question clicked twice from closed is closed again, and so is every other. */
  lemma ClickTwiceCloses(open: Option<nat>, index: nat)
    requires !AnswerShown(open, index)
    ensures Click(Click(open, index), index) == None
  {
  }

  /** Only the first answer shows when the page loads. */
  lemma InitiallyFirst(j: nat)
    ensures AnswerShown(InitialOpen, j) <==> j == 0
  {
  }
}
