/** The landing page's FAQ accordion: a list of questions of which at most one shows its
    answer. `null` is `None`. */
module Faq {
  import opened Wrappers

  datatype FaqEntry = FaqEntry(question: string, answer: string)

  const Faqs: seq<FaqEntry> := [
    FaqEntry("How does ChattercraftAI learn about my products and services?",
      "ChattercraftAI can learn about your products and services by a prompt. You can manually this information through our dashboard."),
    FaqEntry("Is any coding knowledge required to implement ChattercraftAI?",
      "No coding knowledge is required! For basic implementation, you simply copy and paste a single line of code into your website. We also offer no-code plugins for platforms like Shopify, WordPress, and Wix for even easier setup.")
  ]

  /** `toggleFaq(index)`'s new value for `activeIndex`. */
  function Toggle(active: Option<nat>, index: nat): (r: Option<nat>)
    ensures active == Some(index) ==> r == None
    ensures active != Some(index) ==> r == Some(index)
  {
    if active == Some(index) then None else Some(index)
  }

  /** Whether entry `k`'s answer is rendered. */
  predicate IsOpen(active: Option<nat>, k: nat) {
    active == Some(k)
  }

  /** After a toggle, `index` is the only entry that can be open, and it is open exactly
      when it was closed before. */
  lemma ToggleOpensOnlyIndex(active: Option<nat>, index: nat, k: nat)
    ensures IsOpen(Toggle(active, index), k) <==> k == index && !IsOpen(active, index)
  {
  }

  /** Toggling the same entry twice restores the state exactly when nothing or that entry
      was open; with another entry open, the second toggle leaves everything closed. */
  lemma ToggleTwice(active: Option<nat>, index: nat)
    ensures Toggle(Toggle(active, index), index) == active <==> active.None? || active == Some(index)
  {
  }

  /** The state after a series of clicks, starting all closed. */
  function AfterClicks(clicks: seq<nat>): Option<nat> {
    if clicks == [] then None else Toggle(AfterClicks(clicks[..|clicks| - 1]), clicks[|clicks| - 1])
  }

  /** After any series of clicks, the open entry, if any, is the last one clicked, and the
      accordion is closed exactly when the last click closed it. */
  lemma OpenIsLastClicked(clicks: seq<nat>)
    ensures AfterClicks(clicks).Some? ==> clicks != [] && AfterClicks(clicks).value == clicks[|clicks| - 1]
    ensures |clicks| >= 1 && AfterClicks(clicks).None? ==>
              AfterClicks(clicks[..|clicks| - 1]) == Some(clicks[|clicks| - 1])
  {
  }

  /** Clicking the same entry twice from all closed closes it again. */
  lemma DoubleClickFromClosed(index: nat)
    ensures AfterClicks([index, index]) == None
  {
    assert [index][..0] == [];
    assert AfterClicks([index]) == Some(index);
    assert [index, index][..1] == [index];
    assert AfterClicks([index, index]) == Toggle(Some(index), index);
  }

  /** The answers the first `n` entries of `faqs` render: entry `k` renders its answer when it
      is open. */
  function RenderedAnswers(faqs: seq<FaqEntry>, active: Option<nat>, n: nat): seq<string>
    requires n <= |faqs|
  {
    if n == 0 then []
    else RenderedAnswers(faqs, active, n - 1) + (if IsOpen(active, n - 1) then [faqs[n - 1].answer] else [])
  }

  /** At most one answer is on screen: the open entry's, when it is among the first `n`. */
  lemma {:induction false} AtMostOneAnswer(faqs: seq<FaqEntry>, active: Option<nat>, n: nat)
    requires n <= |faqs|
    ensures |RenderedAnswers(faqs, active, n)| <= 1
    ensures |RenderedAnswers(faqs, active, n)| == 1 <==> active.Some? && active.value < n
    ensures |RenderedAnswers(faqs, active, n)| == 1 ==> RenderedAnswers(faqs, active, n)[0] == faqs[active.value].answer
  {
    if n > 0 {
      AtMostOneAnswer(faqs, active, n - 1);
    }
  }

  class Accordion {
    var activeIndex: Option<nat>

    /** The open entry, if any, is one of the list's. */
    ghost predicate Valid()
      reads this
    {
      activeIndex.Some? ==> activeIndex.value < |Faqs|
    }

    constructor ()
      ensures Valid() && activeIndex == None
    {
      activeIndex := None;
    }

    /** The click handler of entry `index`. */
    method ToggleFaq(index: nat)
      requires Valid() && index < |Faqs|
      modifies this
      ensures Valid() && activeIndex == Toggle(old(activeIndex), index)
    {
      if activeIndex == Some(index) {
        activeIndex := None;
      } else {
        activeIndex := Some(index);
      }
    }
  }
}
