/**
 * The notification e-mails (src/lib/email.ts): their subjects, the message
 * preview and review stars inside them, and the send wrapper that reports
 * failures without throwing.
 */
module Email {
  import opened Common
  import opened Strings
  import ReviewsList

  const DefaultSender := "Tasket <noreply@tasket.dev>"
  const SubjectTag := "【Tasket】"
  const PreviewLimit := 200
  const Ellipsis := "..."

  /** The five notification e-mails. */
  datatype EmailKind = ProposalReceived | ProposalAccepted | ProposalRejected | NewMessage | ReviewReceived

  /** The fixed start of each subject; every one but the review subject goes on with the project title. */
  function SubjectHead(k: EmailKind): (head: string)
    ensures StartsWith(head, SubjectTag) && |head| >= |SubjectTag| + 4
    ensures HasTitle(k) ==> head[|head| - 3..] == " - "
  {
    match k
    case ProposalReceived => SubjectTag + "新しい提案が届きました - "
    case ProposalAccepted => SubjectTag + "提案が承認されました - "
    case ProposalRejected => SubjectTag + "提案について - "
    case NewMessage => SubjectTag + "新しいメッセージ - "
    case ReviewReceived => SubjectTag + "新しいレビューが投稿されました"
  }

  predicate HasTitle(k: EmailKind) {
    k != ReviewReceived
  }

  /** The subject line: every subject starts with the service tag, and the ones about a project end with its title. */
  function Subject(k: EmailKind, projectTitle: string): (s: string)
    ensures StartsWith(s, SubjectTag) && StartsWith(s, SubjectHead(k))
    ensures HasTitle(k) ==> s[|SubjectHead(k)|..] == projectTitle
    ensures !HasTitle(k) ==> s == SubjectHead(k)
  {
    if HasTitle(k) then SubjectHead(k) + projectTitle else SubjectHead(k)
  }

  /** Which e-mail a subject line belongs to, read from the two characters after the tag's first two. */
  function KindOfSubject(s: string): Option<EmailKind> {
    var n := |SubjectTag|;
    if |s| < n + 4 then None
    else if s[n + 2] == 'が' then Some(ProposalAccepted)
    else if s[n + 2] == 'に' then Some(ProposalRejected)
    else if s[n + 3] == '提' then Some(ProposalReceived)
    else if s[n + 3] == 'メ' then Some(NewMessage)
    else if s[n + 3] == 'レ' then Some(ReviewReceived)
    else None
  }

  /** The subject tells which e-mail it is, whatever the project title. */
  lemma SubjectNamesKind(k: EmailKind, projectTitle: string)
    ensures KindOfSubject(Subject(k, projectTitle)) == Some(k)
  {
    var s := Subject(k, projectTitle);
    var h := SubjectHead(k);
    assert s[..|h|] == h;
    assert s[|SubjectTag| + 2] == h[|SubjectTag| + 2] && s[|SubjectTag| + 3] == h[|SubjectTag| + 3];
  }

  /** Different e-mails never share a subject line. */
  lemma SubjectsDistinct(k1: EmailKind, t1: string, k2: EmailKind, t2: string)
    requires k1 != k2
    ensures Subject(k1, t1) != Subject(k2, t2)
  {
    SubjectNamesKind(k1, t1);
    SubjectNamesKind(k2, t2);
  }

  /** The project title can be read back from a subject that carries one. */
  lemma SubjectTitleRoundTrip(k: EmailKind, t1: string, t2: string)
    requires HasTitle(k) && Subject(k, t1) == Subject(k, t2)
    ensures t1 == t2
  {
  }

  /**
   * `preview.substring(0, 200)` followed by `...` when the preview is longer
   * than 200 characters.
   */
  function MessagePreview(m: string): (p: string)
    ensures |m| <= PreviewLimit ==> p == m
    ensures |m| > PreviewLimit ==> p == m[..PreviewLimit] + Ellipsis
  {
    (if |m| <= PreviewLimit then m else m[..PreviewLimit]) + (if |m| > PreviewLimit then Ellipsis else "")
  }

  /** The preview is never longer than 203 characters and always starts with as much of the message as fits. */
  lemma PreviewBounded(m: string)
    ensures |MessagePreview(m)| <= PreviewLimit + |Ellipsis|
    ensures |m| <= PreviewLimit ==> |MessagePreview(m)| == |m|
    ensures StartsWith(MessagePreview(m), m[..if |m| <= PreviewLimit then |m| else PreviewLimit])
  {
    var k := if |m| <= PreviewLimit then |m| else PreviewLimit;
    assert MessagePreview(m)[..k] == m[..k];
  }

  /** `'⭐'.repeat(rating)`: a RangeError (None), thrown before any send, for a negative rating. */
  function ReviewStars(rating: int): (stars: Option<string>)
    ensures stars.Some? <==> rating >= 0
    ensures stars.Some? ==> |stars.value| == rating && forall i | 0 <= i < rating :: stars.value[i] == ReviewsList.FilledStar
  {
    Repeat(ReviewsList.FilledStar, rating)
  }

  /** For a rating of 0..5 the e-mail shows the filled part of the review list's star string. */
  lemma ReviewStarsMatchList(rating: int)
    requires 0 <= rating <= ReviewsList.MaxStars
    ensures ReviewsList.RenderStars(rating).value[..rating] == ReviewStars(rating).value
  {
    var s := ReviewsList.RenderStars(rating).value;
    var e := ReviewStars(rating).value;
    assert forall i | 0 <= i < rating :: s[..rating][i] == e[i];
  }

  /** The message handed to the mail service. */
  datatype OutgoingEmail = OutgoingEmail(from: string, to: string, subject: string, html: string)

  /** How `sendEmail` ends; in every case it returns normally. */
  datatype SendOutcome = NoApiKey | Delivered(email: OutgoingEmail) | ServiceFailed(email: OutgoingEmail)

  /**
   * `sendEmail`: with no API key the client cannot be created and the error
   * is only logged; otherwise the message, from the given sender or the
   * default one, is handed to the service, whose failure is logged too.
   */
  function SendEmail(to: string, subject: string, html: string, from: Option<string>,
                     apiKey: Option<string>, serviceAccepts: bool): (o: SendOutcome)
    ensures o.NoApiKey? <==> !Truthy(apiKey)
    ensures o.Delivered? <==> Truthy(apiKey) && serviceAccepts
    ensures !o.NoApiKey? ==> o.email == OutgoingEmail(OptOrElse(from, DefaultSender), to, subject, html)
    ensures !o.NoApiKey? && !Truthy(from) ==> o.email.from == DefaultSender
  {
    if !Truthy(apiKey) then NoApiKey
    else
      var email := OutgoingEmail(OptOrElse(from, DefaultSender), to, subject, html);
      if serviceAccepts then Delivered(email) else ServiceFailed(email)
  }

  /** The sender is never empty: a missing or empty `from` falls back to the default address. */
  lemma SenderNeverEmpty(to: string, subject: string, html: string, from: Option<string>, apiKey: Option<string>, serviceAccepts: bool)
    requires Truthy(apiKey)
    ensures SendEmail(to, subject, html, from, apiKey, serviceAccepts).email.from != ""
  {
  }
}
