/**
 * The received-reviews page (src/pages/reviews/page.tsx): the star string of
 * a rating and which of the summary card and the empty message is shown.
 */
module ReviewsList {
  import opened Common
  import opened Strings

  const FilledStar: char := '\U{2B50}'
  const EmptyStar: char := '\U{2606}'
  const MaxStars := 5
  const FetchFailed := "レビューの取得に失敗しました"

  datatype Review = Review(
    id: string, projectId: string, reviewerId: string, reviewerName: string,
    rating: int, comment: string, createdAt: string)

  /**
   * `'⭐'.repeat(r) + '☆'.repeat(5 - r)`. Either count may be negative, which
   * makes `repeat` throw a RangeError (None): exactly the ratings 0..5 render,
   * as five glyphs with the `r` filled ones first.
   */
  function RenderStars(r: int): (stars: Option<string>)
    ensures stars.Some? <==> 0 <= r <= MaxStars
    ensures stars.Some? ==> |stars.value| == MaxStars
    ensures stars.Some? ==> forall i | 0 <= i < MaxStars :: stars.value[i] == (if i < r then FilledStar else EmptyStar)
  {
    match Repeat(FilledStar, r)
    case None => None
    case Some(filled) =>
      match Repeat(EmptyStar, MaxStars - r)
      case None => None
      case Some(empty) => Some(filled + empty)
  }

  /** The number of filled glyphs a star string starts with. */
  function LeadingFilled(s: string): (n: nat)
    ensures n <= |s|
  {
    if s == [] || s[0] != FilledStar then 0 else 1 + LeadingFilled(s[1..])
  }

  lemma {:induction false} LeadingFilledOf(s: string, r: nat)
    requires r <= |s|
    requires forall i | 0 <= i < |s| :: s[i] == (if i < r then FilledStar else EmptyStar)
    ensures LeadingFilled(s) == r
  {
    if r > 0 {
      assert s[0] == FilledStar;
      assert forall i | 0 <= i < |s[1..]| :: s[1..][i] == s[i + 1];
      LeadingFilledOf(s[1..], r - 1);
    } else if s != [] {
      assert s[0] == EmptyStar;
    }
  }

  /** The rating can be read back from its star string. */
  lemma RenderStarsRoundTrip(r: int)
    requires 0 <= r <= MaxStars
    ensures LeadingFilled(RenderStars(r).value) == r
  {
    LeadingFilledOf(RenderStars(r).value, r);
  }

  /** What the page shows below the header once loading is over. */
  datatype Layout = NoReviewsYet | SummaryAndList(count: nat)

  /** The average card (with the review count) exactly when there are reviews; otherwise the "no reviews yet" message. */
  function LayoutFor(reviews: seq<Review>): (l: Layout)
    ensures l.NoReviewsYet? <==> |reviews| == 0
    ensures l.SummaryAndList? ==> l.count == |reviews| && l.count > 0
  {
    if |reviews| == 0 then NoReviewsYet else SummaryAndList(|reviews|)
  }

  /** The count line of the average card. */
  function CountText(l: Layout): string
    requires l.SummaryAndList?
  {
    Decimal(l.count) + "件のレビュー"
  }

  /** Different numbers of reviews give different count lines. */
  lemma CountTextDistinguishes(a: seq<Review>, b: seq<Review>)
    requires |a| > 0 && |b| > 0
    requires CountText(LayoutFor(a)) == CountText(LayoutFor(b))
    ensures |a| == |b|
  {
    var da, db := Decimal(|a|), Decimal(|b|);
    var unit := "件のレビュー";
    assert |da| == |db|;
    assert da == (da + unit)[..|da|];
    assert db == (db + unit)[..|db|];
    DecimalInjective(|a|, |b|);
  }

  /** The page's data after `fetchReviews`. */
  datatype ReviewsState = ReviewsState(reviews: seq<Review>, averageRating: real, error: string)

  /** The body of a successful reviews response. */
  datatype ReviewsBody = ReviewsBody(reviews: seq<Review>, averageRating: real)

  /** `fetchReviews`: a good response replaces list and average; any failure keeps them and shows a message (the default one when the thrown message is empty). */
  function AfterFetch(s: ReviewsState, response: Fetched<ReviewsBody>): (t: ReviewsState)
    ensures response.Ok? ==> t == s.(reviews := response.body.reviews, averageRating := response.body.averageRating)
    ensures !response.Ok? ==> t.reviews == s.reviews && t.averageRating == s.averageRating && t.error != ""
    ensures response.NotOk? ==> t.error == FetchFailed
    ensures response.Failed? ==> t.error == OrElse(response.message, FetchFailed)
  {
    match response
    case Ok(body) => s.(reviews := body.reviews, averageRating := body.averageRating)
    case NotOk(_) => s.(error := FetchFailed)
    case Failed(message) => s.(error := OrElse(message, FetchFailed))
  }
}
