/** The FAQ page's accordion: one `openIndex` state, toggled by a click on a question. */
module Faq {
  import opened Base

  /** `openIndex === index ? null : index`. */
  function Toggled(open: Option<int>, index: int): (next: Option<int>)
    ensures open == Some(index) ==> next == None
    ensures open != Some(index) ==> next == Some(index)
  {
    if open == Some(index) then None else Some(index)
  }

  /** The answer of entry `index` is rendered, and its chevron points up. */
  predicate AnswerShown(open: Option<int>, index: int)
  {
    open == Some(index)
  }

  /** At most one answer is shown at a time, whatever the state. */
  lemma AtMostOneShown(open: Option<int>, i: int, j: int)
    requires AnswerShown(open, i) && AnswerShown(open, j)
    ensures i == j
  {
  }

  /** The state after a series of clicks. */
  function AfterClicks(open: Option<int>, clicks: seq<int>): Option<int>
  {
    if clicks == [] then open else Toggled(AfterClicks(open, clicks[..|clicks| - 1]), clicks[|clicks| - 1])
  }

  /** After any clicks the open entry, if any, is the last one clicked or, with no click,
      the one open before. */
  lemma {:induction false} AfterClicksOpen(open: Option<int>, clicks: seq<int>)
    ensures clicks == [] ==> AfterClicks(open, clicks) == open
    ensures clicks != [] ==> AfterClicks(open, clicks) in {None, Some(clicks[|clicks| - 1])}
  {
  }

  /** Every entry starts closed and a series of clicks opens at most the entry last
      clicked, so an answer shown was clicked. */
  lemma {:induction false} ShownWasClicked(clicks: seq<int>, index: int)
    requires AnswerShown(AfterClicks(None, clicks), index)
    ensures index in clicks
  {
    if clicks != [] {
      AfterClicksOpen(None, clicks);
    }
  }

  /** Clicking the same question twice restores the state when that question, or none,
      was open. */
  lemma ToggleTwiceRestores(open: Option<int>, index: int)
    requires open == None || open == Some(index)
    ensures Toggled(Toggled(open, index), index) == open
  {
  }

  /** With another question open, two clicks on the same question close everything:
      the first click opens the clicked question in place of the other. */
  lemma ToggleTwiceFromOther(j: int, index: int)
    requires j != index
    ensures Toggled(Some(j), index) == Some(index)
    ensures Toggled(Toggled(Some(j), index), index) == None
  {
  }

  /** The page's state. */
  class FaqPage {
    var openIndex: Option<int>

    /** No entry is open at first. */
    constructor ()
      ensures openIndex == None
    {
      openIndex := None;
    }

    /** `toggleFAQ`. */
    method ToggleFaq(index: int)
      modifies this
      ensures openIndex == Toggled(old(openIndex), index)
      ensures AnswerShown(openIndex, index) <==> !AnswerShown(old(openIndex), index)
      ensures forall i :: i != index ==> !AnswerShown(openIndex, i)
    {
      openIndex := if openIndex == Some(index) then None else Some(index);
    }
  }
}
