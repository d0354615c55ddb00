/** Client testimonials and the star row rendered for each rating. */
module Testimonials {
  import opened Wrappers

  datatype Testimonial = Testimonial(id: string, name: string, role: string, comment: string, rating: int)

  const ClientTestimonials: seq<Testimonial> := [
    Testimonial("1", "Maria Papadopoulos", "Homeowner",
      "Christiano Immobiliare helped us find our dream apartment in Kolonaki. Their attention to detail and knowledge of renovated properties made all the difference. Highly recommended!",
      5),
    Testimonial("2", "John Anderson", "Property Investor",
      "Professional service from start to finish. They showed us only quality properties that matched our criteria. The renovation standards are exceptional.",
      5),
    Testimonial("3", "Sofia Dimitriou", "First-time Buyer",
      "As a first-time buyer, I appreciated their patience and expertise. They guided me through every step and helped me find a beautiful renovated home in Pagrati.",
      5)
  ]

  /** The error `Array(n)` throws for a length that is not a valid array length. */
  datatype RangeError = InvalidArrayLength

  /** One more than the largest array length JavaScript allows (2^32 - 1). */
  const ArrayLengthBound: int := 0x1_0000_0000

  /** `Array(rating).fill(0)`: one zero per star, or the error for an invalid length. */
  function GetStarArray(rating: int): (r: Result<seq<int>, RangeError>)
    ensures r.Success? <==> 0 <= rating < ArrayLengthBound
    ensures r.Success? ==> |r.value| == rating && forall i :: 0 <= i < |r.value| ==> r.value[i] == 0
  {
    if 0 <= rating < ArrayLengthBound then Success(seq(rating, _ => 0)) else Failure(InvalidArrayLength)
  }

  /** A rating of zero renders no star. */
  lemma NoStarsForZero()
    ensures GetStarArray(0) == Success([])
  {
  }

  /** Every testimonial is rated five, so each renders a row of five stars. */
  lemma EveryTestimonialHasFiveStars()
    ensures forall t :: t in ClientTestimonials ==> t.rating == 5 && GetStarArray(t.rating) == Success([0, 0, 0, 0, 0])
  {
    assert GetStarArray(5).value == [0, 0, 0, 0, 0];
  }
}
