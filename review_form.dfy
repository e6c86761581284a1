/**
 * The review form (src/pages/reviews/new/page.tsx): a 1..5 star rating, a
 * comment, and the guards in front of the submission.
 */
module ReviewForm {
  import opened Common
  import opened Strings
  import ReviewsList

  const InitialRating := 5
  const MissingIds := "案件IDまたは評価対象者IDが指定されていません"
  const BlankComment := "コメントを入力してください"
  const SubmitFailed := "レビューの投稿に失敗しました"

  /** The five star buttons: button i + 1 (at position i) shows a filled star exactly when i + 1 <= rating. */
  function StarButtons(rating: int): (stars: seq<char>)
    ensures |stars| == 5
    ensures forall i | 0 <= i < 5 :: stars[i] == (if i + 1 <= rating then ReviewsList.FilledStar else ReviewsList.EmptyStar)
  {
    seq(5, i => if i + 1 <= rating then ReviewsList.FilledStar else ReviewsList.EmptyStar)
  }

  /** For every rating the form can hold, the buttons look like the list page's star string for it. */
  lemma StarButtonsMatchList(rating: int)
    requires 1 <= rating <= 5
    ensures ReviewsList.RenderStars(rating) == Some(StarButtons(rating))
  {
    var s := ReviewsList.RenderStars(rating).value;
    var b := StarButtons(rating);
    assert forall i | 0 <= i < 5 :: s[i] == b[i];
    assert s == b;
  }

  /** The payload posted to the reviews endpoint. */
  datatype ReviewRequest = ReviewRequest(url: string, projectId: string, revieweeId: string, rating: int, comment: string)

  /** The request URL as written: a single-quoted string, so the `${...}` placeholder is sent literally. */
  function ReviewsUrlAsWritten(apiBase: string): string {
    "${import.meta.env.VITE_API_URL}/api/reviews"
  }

  /** Whatever API base is configured (say `https://api.task-et.com`), the as-written URL does not start with it. */
  lemma ReviewsUrlAsWrittenMissesHost(apiBase: string)
    requires apiBase != [] && apiBase[0] != '$'
    ensures !StartsWith(ReviewsUrlAsWritten(apiBase), apiBase)
  {
    var url := ReviewsUrlAsWritten(apiBase);
    assert url[0] == '$';
  }

  /** The intended URL: the configured API base followed by the reviews path. */
  function ReviewsUrl(apiBase: string): (url: string)
    ensures StartsWith(url, apiBase)
    ensures url[|apiBase|..] == "/api/reviews"
  {
    apiBase + "/api/reviews"
  }

  /** What pressing submit leads to, before any request is made. */
  datatype SubmitStep = Ignored | RejectBlank | Send(request: ReviewRequest)

  /**
   * `handleSubmit`'s guards: nothing without a user or either id; a blank
   * comment is rejected; otherwise the ids, the rating and the trimmed
   * comment are sent.
   */
  function SubmitStepFor(signedIn: bool, projectId: Option<string>, revieweeId: Option<string>,
                         rating: int, comment: string, apiBase: string): (step: SubmitStep)
    ensures step.Ignored? <==> !signedIn || !Truthy(projectId) || !Truthy(revieweeId)
    ensures step.RejectBlank? <==> signedIn && Truthy(projectId) && Truthy(revieweeId) && IsBlank(comment)
    ensures step.Send? ==>
      step.request == ReviewRequest(ReviewsUrl(apiBase), projectId.value, revieweeId.value, rating, Trim(comment)) &&
      step.request.comment != []
  {
    TrimEmptyIffBlank(comment);
    if !signedIn || !Truthy(projectId) || !Truthy(revieweeId) then Ignored
    else if Trim(comment) == [] then RejectBlank
    else Send(ReviewRequest(ReviewsUrl(apiBase), projectId.value, revieweeId.value, rating, Trim(comment)))
  }

  /** The submit button is disabled while submitting or while the comment is blank. */
  predicate SubmitDisabled(isSubmitting: bool, comment: string) {
    isSubmitting || Trim(comment) == []
  }

  /** With the button enabled, a signed-in user and both ids present, pressing it sends the review. */
  lemma EnabledSubmitSends(isSubmitting: bool, projectId: Option<string>, revieweeId: Option<string>,
                           rating: int, comment: string, apiBase: string)
    requires !SubmitDisabled(isSubmitting, comment) && Truthy(projectId) && Truthy(revieweeId)
    ensures SubmitStepFor(true, projectId, revieweeId, rating, comment, apiBase).Send?
  {
    TrimEmptyIffBlank(comment);
  }

  class ReviewDraft {
    const projectId: Option<string>
    const revieweeId: Option<string>
    var rating: int
    var comment: string
    var isSubmitting: bool
    var error: string

    /** The rating stays in 1..5. */
    predicate Valid()
      reads this
    {
      1 <= rating <= 5
    }

    constructor (projectId: Option<string>, revieweeId: Option<string>)
      ensures Valid()
      ensures this.projectId == projectId && this.revieweeId == revieweeId
      ensures rating == InitialRating && comment == "" && !isSubmitting && error == ""
    {
      this.projectId := projectId;
      this.revieweeId := revieweeId;
      rating := InitialRating;
      comment := "";
      isSubmitting := false;
      error := "";
    }

    /** The mount effect: a missing id is reported at once. */
    method CheckParams()
      modifies this
      ensures !Truthy(projectId) || !Truthy(revieweeId) ==> error == MissingIds
      ensures Truthy(projectId) && Truthy(revieweeId) ==> error == old(error)
      ensures rating == old(rating) && comment == old(comment) && isSubmitting == old(isSubmitting)
    {
      if !Truthy(projectId) || !Truthy(revieweeId) {
        error := MissingIds;
      }
    }

    /** Clicking star button `star`; the buttons are numbered 1..5. */
    method SetRating(star: int)
      requires Valid() && 1 <= star <= 5
      modifies this
      ensures Valid() && rating == star
      ensures comment == old(comment) && isSubmitting == old(isSubmitting) && error == old(error)
    {
      rating := star;
    }

    method SetComment(text: string)
      requires Valid()
      modifies this
      ensures Valid() && comment == text
      ensures rating == old(rating) && isSubmitting == old(isSubmitting) && error == old(error)
    {
      comment := text;
    }

    /**
     * `handleSubmit`: the guards of SubmitStepFor, then the request; on
     * success the page moves to the review list, otherwise the server's
     * message (or the default one) is shown. Submitting is over either way.
     */
    method HandleSubmit(signedIn: bool, apiBase: string, response: Fetched<()>)
      returns (request: Option<ReviewRequest>, navigateTo: Option<string>)
      requires Valid()
      modifies this
      ensures Valid() && rating == old(rating) && comment == old(comment)
      ensures var step := SubmitStepFor(signedIn, projectId, revieweeId, old(rating), old(comment), apiBase);
        (step.Ignored? ==> request == None && navigateTo == None && error == old(error) && isSubmitting == old(isSubmitting)) &&
        (step.RejectBlank? ==> request == None && navigateTo == None && error == BlankComment && isSubmitting == old(isSubmitting)) &&
        (step.Send? ==> request == Some(step.request) && !isSubmitting) &&
        (step.Send? && response.Ok? ==> navigateTo == Some("/reviews") && error == "") &&
        (step.Send? && response.NotOk? ==> navigateTo == None && error == OptOrElse(response.errorMessage, SubmitFailed)) &&
        (step.Send? && response.Failed? ==> navigateTo == None && error == OrElse(response.message, SubmitFailed))
    {
      var step := SubmitStepFor(signedIn, projectId, revieweeId, rating, comment, apiBase);
      match step {
        case Ignored =>
          return None, None;
        case RejectBlank =>
          error := BlankComment;
          return None, None;
        case Send(req) =>
          isSubmitting := true;
          error := "";
          request := Some(req);
          navigateTo := None;
          match response {
            case Ok(_) => navigateTo := Some("/reviews");
            case NotOk(message) => error := OrElse(OptOrElse(message, SubmitFailed), SubmitFailed);
            case Failed(message) => error := OrElse(message, SubmitFailed);
          }
          isSubmitting := false;
      }
    }
  }
}
