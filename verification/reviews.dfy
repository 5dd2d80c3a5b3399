/** A Steam user review as the review endpoint returns it, reduced to the
    fields the pipeline reads. */
module Reviews {
  import opened Results

  /** The `author` object of a review; `playtime_at_review` may be absent. */
  datatype Author = Author(playtimeAtReview: Option<int>)

  /** A review: its `recommendationid`, its `review` text, and its
      `author` object, which may be absent. */
  datatype Review = Review(recommendationId: string, review: string, author: Option<Author>)

  /** The `review` texts of a list of reviews, in order. */
  function Texts(reviews: seq<Review>): (texts: seq<string>)
    ensures |texts| == |reviews|
    ensures forall i :: 0 <= i < |reviews| ==> texts[i] == reviews[i].review
  {
    if |reviews| == 0 then [] else [reviews[0].review] + Texts(reviews[1..])
  }

  /** Texts of a concatenation are the concatenated texts. */
  lemma TextsAppend(a: seq<Review>, b: seq<Review>)
    ensures Texts(a + b) == Texts(a) + Texts(b)
  {
    assert |Texts(a + b)| == |Texts(a) + Texts(b)|;
    forall i | 0 <= i < |a| + |b|
      ensures Texts(a + b)[i] == (Texts(a) + Texts(b))[i]
    {
      if i < |a| {
        assert (a + b)[i] == a[i];
      } else {
        assert (a + b)[i] == b[i - |a|];
      }
    }
  }
}
