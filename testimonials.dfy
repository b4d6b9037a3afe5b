/** The landing page's testimonial carousel: four quotes and the index of the one shown on
    small screens, stepped forwards and backwards with wrap-around. */
module Testimonials {
  datatype Testimonial = Testimonial(name: string, title: string, quote: string, avatar: string, rating: nat)

  const TestimonialList: seq<Testimonial> := [
    Testimonial("Sarah Johnson", "E-commerce Manager at StyleHub",
      "Chatwise has revolutionized our customer support. Our response time dropped from 24 hours to instant, and we've seen a 30% increase in sales conversions.",
      "SJ", 5),
    Testimonial("Michael Chen", "CEO of TechGadgets",
      "The AI is remarkably accurate at answering product questions. We've reduced support tickets by 65% and our team can focus on complex issues rather than repetitive questions.",
      "MC", 5),
    Testimonial("Emma Rodriguez", "Marketing Director at FitnessPro",
      "Implementation was incredibly easy. Just one line of code and we had an AI assistant handling customer inquiries 24/7. Definitely worth every penny.",
      "ER", 5),
    Testimonial("David Patel", "Operations Manager at HomeDecor",
      "The product recommendation feature has been a game-changer. Customers love getting instant, personalized suggestions that actually match what they're looking for.",
      "DP", 4)
  ]

  /** `testimonials.length`. */
  const N := |TestimonialList|

  /** `nextTestimonial`'s update. */
  function NextIndex(i: nat): (r: nat)
    ensures r < N
    ensures i < N - 1 ==> r == i + 1
    ensures i == N - 1 ==> r == 0
  {
    (i + 1) % N
  }

  /** `prevTestimonial`'s update. The left operand of `%` is never negative here, so
      JavaScript's remainder and Dafny's agree. */
  function PrevIndex(i: nat): (r: nat)
    ensures r < N
    ensures 0 < i < N ==> r == i - 1
    ensures i == 0 ==> r == N - 1
  {
    (i - 1 + N) % N
  }

  /** Stepping back undoes stepping forward and the other way round. */
  lemma StepsAreInverse(i: nat)
    requires i < N
    ensures PrevIndex(NextIndex(i)) == i
    ensures NextIndex(PrevIndex(i)) == i
  {
  }

  /** `k` presses of the next button. */
  function NextTimes(k: nat, i: nat): (r: nat)
    ensures k > 0 ==> r < N
  {
    if k == 0 then i else NextIndex(NextTimes(k - 1, i))
  }

  /** `k` forward steps from a shown index move it `k` places round the circle. */
  lemma {:induction false} NextTimesAdvances(k: nat, i: nat)
    requires i < N
    ensures NextTimes(k, i) == (i + k) % N
  {
    if k > 0 {
      NextTimesAdvances(k - 1, i);
      assert NextTimes(k, i) == ((i + k - 1) % N + 1) % N;
      ModSucc(i + k - 1);
    }
  }

  /** Taking a remainder before adding one does not change the next remainder. */
  lemma ModSucc(x: nat)
    ensures (x % N + 1) % N == (x + 1) % N
  {
  }

  /** A full round of forward steps comes back to the start. */
  lemma FullRoundReturns(i: nat)
    requires i < N
    ensures NextTimes(N, i) == i
  {
    NextTimesAdvances(N, i);
  }

  class Carousel {
    var currentIndex: nat

    /** The shown index is a position of the list. */
    ghost predicate Valid()
      reads this
    {
      currentIndex < N
    }

    constructor ()
      ensures Valid() && currentIndex == 0
    {
      currentIndex := 0;
    }

    /** The testimonial on screen: `testimonials[currentIndex]`, in bounds by `Valid`. */
    function Shown(): (t: Testimonial)
      requires Valid()
      reads this
      ensures t in TestimonialList
    {
      TestimonialList[currentIndex]
    }

    method Next()
      requires Valid()
      modifies this
      ensures Valid() && currentIndex == NextIndex(old(currentIndex))
    {
      currentIndex := (currentIndex + 1) % N;
    }

    method Prev()
      requires Valid()
      modifies this
      ensures Valid() && currentIndex == PrevIndex(old(currentIndex))
    {
      currentIndex := (currentIndex - 1 + N) % N;
    }
  }
}
