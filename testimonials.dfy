/**
 * The testimonials section of the home page (`components/home/Testimonials.tsx`): each
 * testimonial's rating is drawn as a row of star icons by `renderStars`.
 */
module Testimonials {

  /** A star icon of the row, with the key it is rendered under. */
  datatype StarIcon = FullStar(key: nat) | HalfStar

  /** A testimonial; its quote and portrait are static text and are not modelled. */
  datatype Testimonial = Testimonial(id: nat, name: string, role: string, rating: real)

  const BusinessTestimonials: seq<Testimonial> := [
    Testimonial(1, "James Wilson", "CEO, FitTech Solutions", 5.0),
    Testimonial(2, "Sandra Lee", "Marketing Director, EcoBox", 4.5)]

  const InfluencerTestimonials: seq<Testimonial> := [
    Testimonial(1, "Tina Rodriguez", "Fashion & Lifestyle Influencer", 5.0),
    Testimonial(2, "Marcus Green", "Tech & Gaming Creator", 4.5)]

  /** The number of full stars the loop draws: `Math.floor(rating)`, none when that is not positive. */
  function FullStarCount(rating: real): (n: nat)
    ensures n as real <= rating || n == 0
    ensures rating < n as real + 1.0
  {
    if rating.Floor > 0 then rating.Floor else 0
  }

  /** `rating % 1 !== 0`: the rating is not a whole number. */
  predicate HasHalfStar(rating: real) {
    rating.Floor as real != rating
  }

  /** The row `renderStars` returns: the full stars keyed by position, then the half star. */
  function StarsFor(rating: real): seq<StarIcon> {
    seq(FullStarCount(rating), i requires 0 <= i => FullStar(i)) + (if HasHalfStar(rating) then [HalfStar] else [])
  }

  /** `renderStars`: a counting loop pushes the full stars, then the half star is pushed when there is one. */
  method RenderStars(rating: real) returns (stars: seq<StarIcon>)
    ensures stars == StarsFor(rating)
  {
    stars := [];
    var fullStars := rating.Floor;
    var i := 0;
    while i < fullStars
      invariant 0 <= i && (i <= fullStars || i == 0)
      invariant stars == seq(i, k requires 0 <= k => FullStar(k))
    {
      stars := stars + [FullStar(i)];
      i := i + 1;
    }
    assert i == FullStarCount(rating);
    if rating.Floor as real != rating {
      stars := stars + [HalfStar];
    }
  }
}

/** What a row of stars shows. */
module TestimonialsFacts {
  import opened Testimonials

  /** The row has the whole part of the rating in full stars, in key order, and one half star last exactly when the rating is fractional. */
  lemma StarsForFacts(rating: real)
    ensures var stars := StarsFor(rating);
      |stars| == FullStarCount(rating) + (if HasHalfStar(rating) then 1 else 0)
      && (forall i :: 0 <= i < FullStarCount(rating) ==> stars[i] == FullStar(i))
      && (HalfStar in stars <==> HasHalfStar(rating))
      && (HasHalfStar(rating) ==> stars[|stars| - 1] == HalfStar)
  {
    var stars := StarsFor(rating);
    if HalfStar in stars {
      var j :| 0 <= j < |stars| && stars[j] == HalfStar;
      assert j >= FullStarCount(rating);
    }
  }

  /** For a non-negative rating the full stars are exactly its whole part. */
  lemma FullStarsOfRating(rating: real)
    requires rating >= 0.0
    ensures FullStarCount(rating) == rating.Floor
    ensures FullStarCount(rating) as real <= rating < FullStarCount(rating) as real + 1.0
  {
  }

  /** A rating of 4.5 shows four full stars and a half star; a rating of 5 shows five full stars. */
  lemma TestimonialRows()
    ensures StarsFor(4.5) == [FullStar(0), FullStar(1), FullStar(2), FullStar(3), HalfStar]
    ensures StarsFor(5.0) == [FullStar(0), FullStar(1), FullStar(2), FullStar(3), FullStar(4)]
  {
    assert 4.5.Floor == 4;
    assert 5.0.Floor == 5;
  }

  /** Every testimonial on the page shows five icons. */
  lemma EveryRowHasFiveIcons()
    ensures forall t :: t in BusinessTestimonials + InfluencerTestimonials ==> |StarsFor(t.rating)| == 5
  {
    TestimonialRows();
  }
}
