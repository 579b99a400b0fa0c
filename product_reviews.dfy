/** Customer reviews of a product: the average rating, the per-star
    histogram, the star display and the review form with its ordered
    validation ladder. */
module ProductReviews {
  import opened Wrappers
  import opened Text

  datatype Review = Review(id: int, name: string, rating: int, comment: string, date: string, verified: bool)

  /** The demonstration reviews shown when a product has none of its own. */
  const DefaultReviews: seq<Review> := [
    Review(1, "Sophie M.", 5,
           "Excellent produit ! Je le recommande à 100%. La qualité est au rendez-vous et les bienfaits se font ressentir rapidement. \U{1F31F}",
           "Il y a 1 semaine", true),
    Review(2, "Thomas L.", 5,
           "Livraison rapide et produit conforme à la description. Je suis conquis par le goût et l'effet sur mon énergie quotidienne ! \U{1F4AA}",
           "Il y a 2 semaines", true),
    Review(3, "Aminata D.", 4,
           "Très bon produit, authentique comme au Sénégal. J'aurais aimé un format plus grand mais sinon parfait ! \U{1F1F8}\U{1F1F3}",
           "Il y a 3 semaines", true),
    Review(4, "Pierre B.", 5,
           "Ma famille adore ! Les enfants en redemandent. Un vrai plaisir naturel et bon pour la santé. \U{2764}\U{FE0F}",
           "Il y a 1 mois", true)
  ]

  predicate RatingsInRange(reviews: seq<Review>) {
    forall i :: 0 <= i < |reviews| ==> 1 <= reviews[i].rating <= 5
  }

  function SumRatings(reviews: seq<Review>): int {
    if reviews == [] then 0 else reviews[0].rating + SumRatings(reviews[1..])
  }

  /** The sum divided by the count; `0 / 0` has no value, so an empty list
      has no average. */
  function AverageRating(reviews: seq<Review>): (avg: Option<real>)
    ensures avg.None? <==> reviews == []
    ensures avg.Some? ==> avg.value * |reviews| as real == SumRatings(reviews) as real
  {
    if |reviews| == 0 then None else Some(SumRatings(reviews) as real / |reviews| as real)
  }

  lemma {:induction false} SumRatingsBounds(reviews: seq<Review>)
    requires RatingsInRange(reviews)
    ensures |reviews| <= SumRatings(reviews) <= 5 * |reviews|
  {
    if reviews != [] {
      SumRatingsBounds(reviews[1..]);
    }
  }

  /** With every rating in 1..5, a non-empty list averages within 1..5. */
  lemma {:induction false} AverageInRange(reviews: seq<Review>)
    requires RatingsInRange(reviews) && |reviews| > 0
    ensures AverageRating(reviews).Some?
    ensures 1.0 <= AverageRating(reviews).value <= 5.0
  {
    SumRatingsBounds(reviews);
    var n := |reviews| as real;
    var s := SumRatings(reviews) as real;
    assert n <= s <= 5.0 * n;
    QuotientBounds(s, n);
    assert AverageRating(reviews) == Some(s / n);
  }

  lemma QuotientBounds(s: real, n: real)
    requires n > 0.0 && n <= s <= 5.0 * n
    ensures 1.0 <= s / n <= 5.0
  {
    assert (5.0 * n) / n == 5.0;
    assert n / n == 1.0;
    DivideMonotone(s, 5.0 * n, n);
    DivideMonotone(n, s, n);
  }

  lemma DivideMonotone(x: real, y: real, n: real)
    requires n > 0.0 && x <= y
    ensures x / n <= y / n
  {
    assert y / n - x / n == (y - x) / n;
  }

  /** `reviews.filter(r => r.rating === star).length`. */
  function CountRating(reviews: seq<Review>, star: int): nat {
    if reviews == [] then 0
    else (if reviews[0].rating == star then 1 else 0) + CountRating(reviews[1..], star)
  }

  datatype DistributionRow = DistributionRow(star: int, count: nat, percentage: Option<real>)

  function Row(reviews: seq<Review>, star: int): DistributionRow {
    var count := CountRating(reviews, star);
    DistributionRow(star, count,
      if |reviews| == 0 then None else Some(count as real / |reviews| as real * 100.0))
  }

  /** The histogram lists stars 5, 4, 3, 2, 1 in that order. */
  function RatingDistribution(reviews: seq<Review>): (rows: seq<DistributionRow>)
    ensures |rows| == 5
    ensures forall i :: 0 <= i < 5 ==> rows[i].star == 5 - i && rows[i].count == CountRating(reviews, 5 - i)
  {
    [Row(reviews, 5), Row(reviews, 4), Row(reviews, 3), Row(reviews, 2), Row(reviews, 1)]
  }

  function SumCounts(rows: seq<DistributionRow>): int {
    if rows == [] then 0 else rows[0].count + SumCounts(rows[1..])
  }

  /** With every rating in 1..5 the five counts add up to the number of
      reviews. */
  lemma {:induction false} DistributionCoversAll(reviews: seq<Review>)
    requires RatingsInRange(reviews)
    ensures SumCounts(RatingDistribution(reviews)) == |reviews|
  {
    var rows := RatingDistribution(reviews);
    assert SumCounts(rows[4..]) == rows[4].count by {
      assert rows[4..][1..] == [];
    }
    assert SumCounts(rows[3..]) == rows[3].count + SumCounts(rows[4..]) by { assert rows[3..][1..] == rows[4..]; }
    assert SumCounts(rows[2..]) == rows[2].count + SumCounts(rows[3..]) by { assert rows[2..][1..] == rows[3..]; }
    assert SumCounts(rows[1..]) == rows[1].count + SumCounts(rows[2..]) by { assert rows[1..][1..] == rows[2..]; }
    CountsPartition(reviews);
  }

  lemma {:induction false} CountsPartition(reviews: seq<Review>)
    requires RatingsInRange(reviews)
    ensures CountRating(reviews, 5) + CountRating(reviews, 4) + CountRating(reviews, 3)
            + CountRating(reviews, 2) + CountRating(reviews, 1) == |reviews|
  {
    if reviews != [] {
      CountsPartition(reviews[1..]);
    }
  }

  /** The demonstration reviews average 4.75 with three fives and a four. */
  lemma {:induction false} DefaultStatistics()
    ensures AverageRating(DefaultReviews) == Some(4.75)
    ensures RatingDistribution(DefaultReviews)[0].count == 3
    ensures RatingDistribution(DefaultReviews)[1].count == 1
  {
    assert DefaultReviews[1..][1..][1..][1..] == [];
  }

  /** `renderStars`: star `i` of five is filled exactly when `i < rating`. */
  function Stars(rating: int): (stars: seq<bool>)
    ensures |stars| == 5
    ensures forall i :: 0 <= i < 5 ==> (stars[i] <==> i < rating)
  {
    seq(5, i => i < rating)
  }

  function FilledCount(stars: seq<bool>): nat {
    if stars == [] then 0 else (if stars[0] then 1 else 0) + FilledCount(stars[1..])
  }

  /** A rating between 0 and 5 fills exactly that many stars. */
  lemma {:induction false} StarsFilledCount(rating: int)
    requires 0 <= rating <= 5
    ensures FilledCount(Stars(rating)) == rating
  {
    var s := Stars(rating);
    assert FilledCount(s[4..]) == (if s[4] then 1 else 0) by { assert s[4..][1..] == []; }
    assert FilledCount(s[3..]) == (if s[3] then 1 else 0) + FilledCount(s[4..]) by { assert s[3..][1..] == s[4..]; }
    assert FilledCount(s[2..]) == (if s[2] then 1 else 0) + FilledCount(s[3..]) by { assert s[2..][1..] == s[3..]; }
    assert FilledCount(s[1..]) == (if s[1] then 1 else 0) + FilledCount(s[2..]) by { assert s[1..][1..] == s[2..]; }
  }

  /** `Math.round` on a non-negative number: halves round up. */
  function Round(x: real): (n: int)
    ensures n as real - 0.5 <= x < n as real + 0.5
  {
    (x + 0.5).Floor
  }

  /** The stars under the average: `renderStars(Math.round(average))`;
      `Math.round(NaN)` compares false, so no star is filled. */
  function AverageStars(reviews: seq<Review>): (stars: seq<bool>)
    ensures |stars| == 5
    ensures reviews == [] ==> forall i :: 0 <= i < 5 ==> !stars[i]
    ensures reviews != [] && RatingsInRange(reviews) ==> stars[0]
    ensures reviews != [] ==>
      forall i :: 0 <= i < 5 ==> (stars[i] <==> i as real + 0.5 <= AverageRating(reviews).value)
  {
    match AverageRating(reviews)
    case None => seq(5, i => false)
    case Some(avg) =>
      if RatingsInRange(reviews) then
        AverageInRange(reviews);
        Stars(Round(avg))
      else Stars(Round(avg))
  }

  /** The interactive stars show the hovered rating, or else the chosen one. */
  function InteractiveStars(hoverRating: int, rating: int): seq<bool> {
    Stars(if hoverRating != 0 then hoverRating else rating)
  }

  /** While a star is hovered exactly that many stars are lit, whatever the
      chosen rating; with no hover the chosen rating is shown. */
  lemma InteractiveStarsShown(hoverRating: int, rating: int)
    requires 0 <= hoverRating <= 5 && 0 <= rating <= 5
    ensures hoverRating != 0 ==> FilledCount(InteractiveStars(hoverRating, rating)) == hoverRating
    ensures hoverRating == 0 ==> InteractiveStars(hoverRating, rating) == Stars(rating)
    ensures FilledCount(InteractiveStars(hoverRating, rating)) == if hoverRating != 0 then hoverRating else rating
  {
    StarsFilledCount(if hoverRating != 0 then hoverRating else rating);
  }

  // ---------------------------------------------------------------------
  // The review form

  datatype ReviewError = RatingRequired | NameTooShort | CommentTooShort

  const MinNameLength := 2
  const MinCommentLength := 10

  /** `handleSubmitReview`'s checks in order; the first failure wins. */
  function ValidateReview(rating: int, name: string, comment: string): (r: Option<ReviewError>)
    ensures r.None? <==> rating != 0 && |Trim(name)| >= MinNameLength && |Trim(comment)| >= MinCommentLength
    ensures rating == 0 ==> r == Some(RatingRequired)
    ensures rating != 0 && |Trim(name)| < MinNameLength ==> r == Some(NameTooShort)
    ensures rating != 0 && |Trim(name)| >= MinNameLength && |Trim(comment)| < MinCommentLength
      ==> r == Some(CommentTooShort)
  {
    if rating == 0 then Some(RatingRequired)
    else if |Trim(name)| < MinNameLength then Some(NameTooShort)
    else if |Trim(comment)| < MinCommentLength then Some(CommentTooShort)
    else None
  }

  /** Whitespace around the name or the comment does not count. */
  lemma {:induction false} PaddingDoesNotHelp(rating: int, name: string, comment: string)
    requires rating != 0
    requires forall i :: 0 <= i < |name| ==> IsSpace(name[i])
    ensures ValidateReview(rating, name, comment) == Some(NameTooShort)
  {
    AllSpaceTrimsToEmpty(name);
  }

  lemma {:induction false} AllSpaceTrimsToEmpty(s: string)
    requires forall i :: 0 <= i < |s| ==> IsSpace(s[i])
    ensures Trim(s) == []
  {
    if s != [] {
      assert TrimStart(s) == TrimStart(s[1..]);
      AllSpaceTrimsToEmpty(s[1..]);
    }
  }

  class ReviewForm {
    var isDialogOpen: bool
    var rating: int
    var hoverRating: int
    var name: string
    var comment: string

    ghost predicate Valid()
      reads this
    {
      0 <= rating <= 5 && 0 <= hoverRating <= 5
    }

    constructor ()
      ensures Valid() && !isDialogOpen && rating == 0 && hoverRating == 0 && name == "" && comment == ""
    {
      isDialogOpen, rating, hoverRating, name, comment := false, 0, 0, "", "";
    }

    /** The dialog's `onOpenChange`. */
    method SetDialogOpen(open: bool)
      requires Valid()
      modifies this
      ensures Valid() && isDialogOpen == open
      ensures rating == old(rating) && name == old(name) && comment == old(comment) && hoverRating == old(hoverRating)
    {
      isDialogOpen := open;
    }

    /** Clicking interactive star `i` (0-based) chooses rating `i + 1`. */
    method ClickStar(i: nat)
      requires Valid() && i < 5
      modifies this
      ensures Valid() && rating == i + 1 && 1 <= rating <= 5
      ensures isDialogOpen == old(isDialogOpen) && name == old(name) && comment == old(comment) && hoverRating == old(hoverRating)
    {
      rating := i + 1;
    }

    /** Entering star `i` previews `i + 1`; leaving resets the preview. */
    method HoverStar(i: Option<nat>)
      requires Valid() && (i.Some? ==> i.value < 5)
      modifies this
      ensures Valid() && hoverRating == (if i.Some? then i.value + 1 else 0)
      ensures isDialogOpen == old(isDialogOpen) && rating == old(rating) && name == old(name) && comment == old(comment)
      ensures i.Some? ==> FilledCount(InteractiveStars(hoverRating, rating)) == i.value + 1
      ensures i.None? ==> InteractiveStars(hoverRating, rating) == Stars(rating)
    {
      hoverRating := if i.Some? then i.value + 1 else 0;
      InteractiveStarsShown(hoverRating, rating);
    }

    method EditFields(newName: string, newComment: string)
      requires Valid()
      modifies this
      ensures Valid() && name == newName && comment == newComment
      ensures isDialogOpen == old(isDialogOpen) && rating == old(rating) && hoverRating == old(hoverRating)
    {
      name, comment := newName, newComment;
    }

    /** An accepted review resets rating, name and comment and closes the
        dialog; a rejected one changes nothing. */
    method HandleSubmitReview() returns (error: Option<ReviewError>)
      requires Valid()
      modifies this
      ensures Valid()
      ensures error == ValidateReview(old(rating), old(name), old(comment))
      ensures error.Some? ==>
        isDialogOpen == old(isDialogOpen) && rating == old(rating) && name == old(name) && comment == old(comment)
      ensures error.None? ==> !isDialogOpen && rating == 0 && name == "" && comment == ""
      ensures hoverRating == old(hoverRating)
    {
      error := ValidateReview(rating, name, comment);
      if error.Some? {
        return;
      }
      rating := 0;
      name := "";
      comment := "";
      isDialogOpen := false;
    }
  }
}
