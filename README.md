# Tasket front-end rules, modelled in Dafny

Tasket is a marketplace where clients post automation projects and vendors
send proposals. This project models the decision rules and state updates of
its React front-end, one Dafny module per page or library file:

- **Sidebar**: which navigation entry is highlighted for a path, and the
  unread badge.
- **NotificationStore**: the notification provider. It is a class whose
  list and unread counter are overwritten by fetch, mark-one-read and
  mark-all-read.
- **NotificationsPage**: relative dates, icons, the header, and the click
  handler on an entry.
- **ProjectsList**: free-text search and budget buckets over the project
  list.
- **ProposalsList**: tabs, counters, status labels, badge colours and
  action links.
- **RequirementsReview**: the generated requirements document. Its text
  fields and its two lists are edited in place, then published. It also
  covers the loading effect.
- **ProjectChat**: the AI chat that drafts a project. The transcript starts
  with a greeting and then alternates user and assistant turns. It ends
  with the link to the review page.
- **ProfilePage**: loading, editing, saving and cancelling the profile form.
- **ReviewForm** and **ReviewsList**: the star rating, the submission
  guards, the star string and the list layout.
- **ProposalForm**: the proposal schema, submission and the not-found view.
- **Signup**: the sign-up schema, the account-creation sequence and its
  error messages.
- **Email**: subjects, the message preview, review stars and the send
  wrapper that never throws.

**Common**, **Strings** and **Lists** hold the shared vocabulary:
`Option`, fetch outcomes, the JavaScript `trim`/`||`/`repeat` string
operations, and filtering.

**Input conventions.** A network request is never performed. Its outcome
(`Fetched`: thrown, non-ok response, or ok with a body) is an input to the
operation that awaits it. The signed-in user, the clock, the API key and
the mail service's verdict are parameters too. Two rules are given as
uninterpreted functions, because both depend on code outside the core:
locale lower-casing (`lower`) and the schema library's e-mail rule
(`emailValid`). `parseInt` arrives as its result (`Option<int>`, with None
for NaN).

**Modelling choices.**
- Stateful handlers are methods of classes that own the page's state
  fields. Pure mappings are functions.
- The source has no explicit loops; it iterates with `map` and `filter`. The model writes these as recursive functions (`MarkRead`, `MarkAllRead`, `Lists.Filter`, `Lists.FilterIndex`).
- Request bodies are returned from the methods, so their contents can be
  stated.

## Model

| member | source | states |
|---|---|---|
| Sidebar.Navigation | src/components/Sidebar.tsx:19-28 | the navigation has exactly eight entries |
| Sidebar.IsActive | src/components/Sidebar.tsx:30-52 | `isActive`, written as its chain of tests; what it means is stated by the lemmas below (exact match, dashboard, projects, prefix, at most one) |
| Sidebar.ExactMatchIsActive | src/components/Sidebar.tsx:32-34 | an entry is active whenever the path equals its href |
| Sidebar.DashboardOnlyExact | src/components/Sidebar.tsx:37-39 | `/dashboard` is active only on exactly `/dashboard`, never on sub-paths |
| Sidebar.ProjectsRule | src/components/Sidebar.tsx:41-48 | `/projects` is active for `/projects` and `/projects/...`, except any path starting with `/projects/new` |
| Sidebar.OtherEntriesByPrefix | src/components/Sidebar.tsx:51 | every other entry is active exactly when the path starts with its href as a raw string |
| Sidebar.ActiveIsPrefix | src/components/Sidebar.tsx:30-52 | an active entry's href is always a prefix of the path |
| Sidebar.ActiveFixesKey | src/components/Sidebar.tsx:30-52 | an active href of five or more characters fixes the path's 2nd and 5th characters |
| Sidebar.ProjectsExcludesNew | src/components/Sidebar.tsx:41-48 | no path activates both `/projects` and `/projects/new` |
| Sidebar.AtMostOneActive | src/components/Sidebar.tsx:19-52 | for every path, at most one navigation entry is active |
| Sidebar.RootHighlightsNothing | src/components/Sidebar.tsx:19-52 | the path `/` activates no entry |
| Sidebar.IconBadge | src/components/Sidebar.tsx:105-109 | collapsed badge: shown iff the count is defined and positive; `9+` iff above 9; otherwise the number, in 1..9 |
| Sidebar.LabelBadge | src/components/Sidebar.tsx:114-118 | expanded badge: shown iff defined and positive, with the raw number |
| Sidebar.BadgesAgree | src/components/Sidebar.tsx:105-118 | both badges appear together and show the same number up to 9 |
| NotificationStore.MarkRead | src/lib/notification-context.tsx:82-86 | the entry with the id becomes read; all others and the length are unchanged |
| NotificationStore.MarkAllRead | src/lib/notification-context.tsx:108-110 | every entry becomes read, with nothing else changed |
| NotificationStore.DecrementUnread | src/lib/notification-context.tsx:87 | the counter drops by one but never below zero |
| NotificationStore.MarkReadEffect | src/lib/notification-context.tsx:82-86 | after marking, every entry with the id is read and every other entry is unchanged |
| NotificationStore.MarkReadIdempotent | src/lib/notification-context.tsx:82-86 | marking the same id twice is marking it once |
| NotificationStore.MarkAllReadLeavesNoUnread | src/lib/notification-context.tsx:108-111 | after mark-all no entry is unread, matching the counter 0 |
| NotificationStore.MarkReadRemovesOneUnread | src/lib/notification-context.tsx:82-87 | with unique ids, marking an unread entry removes exactly one unread entry, so the counter stays accurate |
| NotificationStore.MarkReadOfAbsent | src/lib/notification-context.tsx:82-86 | marking an id that is not in the list leaves the list unchanged |
| NotificationStore.CounterCanUndercount | src/lib/notification-context.tsx:80-87 | marking an already-read entry still decrements the counter, so the counter can fall below the real unread count |
| NotificationStore.CountAfterMarkRead | src/lib/notification-context.tsx:87 | the intended counter update: it drops (not below zero) only when the marked id still had an unread entry |
| NotificationStore.MarkReadOfRead | src/lib/notification-context.tsx:80-84 | marking an id whose entries are all read leaves the list unchanged |
| NotificationStore.CountAfterMarkReadKeepsAgreement | src/lib/notification-context.tsx:80-87 | with the intended update, a counter equal to the number of unread entries stays equal after any mark-read (ids unique) |
| NotificationStore.NotificationProvider.constructor | src/lib/notification-context.tsx:34-36 | empty list, counter 0, loading |
| NotificationStore.NotificationProvider.FetchNotifications | src/lib/notification-context.tsx:38-66 | signed out: everything is cleared. Ok: the body is stored, with missing parts as `[]`/0. Failure: the state is kept. Loading ends in every case |
| NotificationStore.NotificationProvider.MarkAsRead | src/lib/notification-context.tsx:68-92 | on an ok response with a user: MarkRead plus DecrementUnread; otherwise nothing changes |
| NotificationStore.NotificationProvider.MarkAllAsRead | src/lib/notification-context.tsx:94-116 | on an ok response with a user: every entry is read and the counter is 0; otherwise nothing changes |
| NotificationsPage.FormatDate | src/pages/notifications/page.tsx:47-60 | an unparsable date gives the locale date; minutes shown are in 1..59, hours in 1..23, days in 1..6 (the intervals are in FormatDateIntervals) |
| NotificationsPage.LabelText | src/pages/notifications/page.tsx:55-59 | the text of each label: `たった今`, the number followed by its unit, or the locale date; read back by MinutesTextRoundTrip |
| NotificationsPage.FormatDateIntervals | src/pages/notifications/page.tsx:47-60 | each label covers its millisecond interval (under 1 minute, 1 hour, 1 day, 1 week); the counts are floors within their unit ranges; no date means the locale date |
| NotificationsPage.FormatDateMonotone | src/pages/notifications/page.tsx:47-60 | an older notification never gets a more recent label |
| NotificationsPage.MinutesTextRoundTrip | src/pages/notifications/page.tsx:51-57 | the minutes label holds the decimal minute count, which reads back as that count |
| NotificationsPage.NotificationIcon | src/pages/notifications/page.tsx:28-45 | each of the six known kinds gets its own icon, and the bell appears exactly for unknown kinds |
| NotificationsPage.IconsDistinct | src/pages/notifications/page.tsx:28-45 | the known kinds all get different icons |
| NotificationsPage.HeaderFor | src/pages/notifications/page.tsx:83-93 | the unread line and the mark-all button appear together, exactly when the counter is positive, and the line shows the counter |
| NotificationsPage.HandleNotificationClick | src/pages/notifications/page.tsx:21-26 | the entry is marked read through the provider; navigation happens exactly when the link is a non-empty string |
| ProjectsList.FilteredProjects | src/pages/projects/page.tsx:77-92 | the shown projects are the listed ones, in order, that match both the search and the budget bucket, each as often as it is listed |
| ProjectsList.MatchesSearch | src/pages/projects/page.tsx:78-80 | the lowercased title or description contains the lowercased query; the empty query matches all (InitialFiltersShowAll) |
| ProjectsList.MatchesBudget | src/pages/projects/page.tsx:82-89 | the three buckets and the unrestricted default; BucketsPartition shows the buckets partition every budget |
| Lists.Filter | src/pages/projects/page.tsx:77 | `Array.prototype.filter`: a subsequence of the list whose elements are exactly those satisfying the predicate, each as often as in the list (also src/pages/proposals/page.tsx:99) |
| ProjectsList.BucketsPartition | src/pages/projects/page.tsx:82-89 | every budget falls into exactly one of low, medium and high |
| ProjectsList.InitialFiltersShowAll | src/pages/projects/page.tsx:25-26 | the initial empty search with the "all" bucket shows the whole list (also lines 77-92) |
| ProjectsList.BucketsSplitResult | src/pages/projects/page.tsx:82-89 | for any search, the three buckets' results add up to the unbucketed result |
| ProjectsList.ListViewFor | src/pages/projects/page.tsx:64-106 | the intended page: loading while auth or the list loads, nothing without a user, otherwise the filtered list |
| ProjectsList.ListViewAsWritten | src/pages/projects/page.tsx:106 | as written, every render that would show the list throws instead (unimported `Link`); the earlier branches agree with the intended page |
| ProjectsList.ListingUnreachableAsWritten | src/pages/projects/page.tsx:106 | a signed-in user with a loaded list should see it, but the page as written throws |
| ProposalsList.FilteredProposals | src/pages/proposals/page.tsx:99-102 | the "all" tab shows every proposal; the others show exactly the proposals of that kind, in order, each as often as it is listed |
| ProposalsList.KindCount | src/pages/proposals/page.tsx:140-160 | a tab counter never exceeds the list length |
| ProposalsList.TabCountMatchesList | src/pages/proposals/page.tsx:99-102 | each tab's counter equals the number of proposals the tab shows (also lines 140-160) |
| ProposalsList.SentPlusReceivedIsAll | src/pages/proposals/page.tsx:140-160 | when every proposal is sent or received, the two counters add up to the "all" counter |
| ProposalsList.StatusText | src/pages/proposals/page.tsx:84-97 | an unknown status is shown as itself |
| ProposalsList.StatusTextsDistinct | src/pages/proposals/page.tsx:84-97 | known statuses get different labels, none of which is a status name |
| ProposalsList.StatusBadge | src/pages/proposals/page.tsx:70-82 | red exactly for the two rejections; gray exactly for unknown statuses |
| ProposalsList.RejectionsShareBadge | src/pages/proposals/page.tsx:70-97 | manual and automatic rejection share the red badge but have different labels |
| ProposalsList.ActionLinksExclusive | src/pages/proposals/page.tsx:263-278 | no proposal shows both the confirm link and the chat link; sent proposals never show the confirm link; the confirm link goes with the yellow badge |
| ProposalsList.Counterpart | src/pages/proposals/page.tsx:224-227 | sent proposals name the client; the others name the vendor |
| ProposalsList.CounterpartByTab | src/pages/proposals/page.tsx:224-227 | every card on the sent tab names its client and every card on the received tab its vendor (also lines 99-102) |
| ProposalsList.ShowsConfirmLink | src/pages/proposals/page.tsx:263-270 | the confirm link's condition: received and pending; ActionLinksExclusive relates it to the chat link |
| ProposalsList.ShowsChatLink | src/pages/proposals/page.tsx:271-278 | the chat link's condition: accepted |
| RequirementsReview.SetText | src/pages/projects/review/page.tsx:166-168 | editing title, description or background changes only that field (also lines 180-182, 195-197) |
| RequirementsReview.SetItems | src/pages/projects/review/page.tsx:214-218 | replacing one list leaves the other list and every other field alone (also lines 259-265) |
| RequirementsReview.EditAt | src/pages/projects/review/page.tsx:214-218 | only position `index` takes the new text; the length is kept (also lines 259-265) |
| RequirementsReview.AppendBlank | src/pages/projects/review/page.tsx:235-240 | one empty item is added at the end, and the rest is untouched (also lines 286-291) |
| RequirementsReview.EditUndone | src/pages/projects/review/page.tsx:214-218 | typing the old text back restores the list |
| RequirementsReview.AppendThenRemove | src/pages/projects/review/page.tsx:222-240 | deleting the item just added restores the list |
| RequirementsReview.RemoveShifts | src/pages/projects/review/page.tsx:222-227 | deleting item `index` removes exactly it; the rest keep their order and move one place earlier (also lines 270-277) |
| Lists.RemoveAt | src/pages/projects/review/page.tsx:222-227 | an index in range drops that element, shortening the list by one; an index out of range changes nothing |
| RequirementsReview.NumberInput | src/pages/projects/review/page.tsx:310 | the parsed number is stored, or 0 for NaN (also line 331) |
| RequirementsReview.PublishBodyComplete | src/pages/projects/review/page.tsx:92-101 | the publish body carries all seven requirement fields unchanged, plus the conversation id |
| RequirementsReview.PublishBodyFor | src/pages/projects/review/page.tsx:92-101 | the JSON body of the publish request; PublishBodyComplete shows the requirements read back from it unchanged |
| RequirementsReview.ReviewPage.constructor | src/pages/projects/review/page.tsx:20-25 | no requirements, loading, not publishing, no error |
| RequirementsReview.ReviewPage.LoadRequirements | src/pages/projects/review/page.tsx:33-75 | no conversation id: the missing-id error, loading ends, no request. Otherwise a request is made iff auth has settled on a user; it stores the document or the error, and loading ends |
| RequirementsReview.ReviewPage.EditText | src/pages/projects/review/page.tsx:166-197 | the document becomes SetText of the old one; the flags are unchanged |
| RequirementsReview.ReviewPage.EditItem | src/pages/projects/review/page.tsx:214-218 | the chosen list becomes EditAt of itself (also lines 259-265) |
| RequirementsReview.ReviewPage.DeleteItem | src/pages/projects/review/page.tsx:222-227 | the chosen list becomes RemoveAt of itself (also lines 270-277) |
| RequirementsReview.ReviewPage.AddItem | src/pages/projects/review/page.tsx:235-240 | the chosen list becomes AppendBlank of itself (also lines 286-291) |
| RequirementsReview.ReviewPage.EditBudget | src/pages/projects/review/page.tsx:306-311 | the budget becomes NumberInput of the parse |
| RequirementsReview.ReviewPage.EditDeadline | src/pages/projects/review/page.tsx:327-332 | the deadline becomes NumberInput of the parse |
| RequirementsReview.ReviewPage.HandlePublish | src/pages/projects/review/page.tsx:77-116 | nothing without a document or a user. Otherwise the body built for the request is PublishBodyFor the document. Success navigates to `/projects/<id>` with no error; failure sets the fixed or the thrown message. Publishing ends either way |
| ProjectChat.TurnKeepsWellFormed | src/pages/projects/new/page.tsx:36 | appending a trimmed user turn and then an assistant turn keeps the transcript well formed (also lines 60-63, 67-73) |
| ProjectChat.WellFormedPositions | src/pages/projects/new/page.tsx:13-19 | a well-formed transcript has odd length and starts with the greeting; user turns sit at odd positions, are non-empty and start and end with non-whitespace (also line 36) |
| ProjectChat.EnterSends | src/pages/projects/new/page.tsx:142-150 | a key sends exactly when it is Enter without Shift and no IME is composing (including key code 229) |
| ProjectChat.EnabledButtonHasText | src/pages/projects/new/page.tsx:152 | an enabled send button implies non-blank input and an enabled text field (also line 157) |
| ProjectChat.SendEnabled | src/pages/projects/new/page.tsx:157 | the send button is enabled unless loading, the trimmed input is empty, or the chat is complete |
| ProjectChat.InputEnabled | src/pages/projects/new/page.tsx:152 | the text input is enabled unless loading or complete |
| ProjectChat.RequirementsTarget | src/pages/projects/new/page.tsx:80-85 | no target without a conversation id; otherwise a `/projects/review?conversationId=` URL |
| ProjectChat.RequirementsTargetRoundTrip | src/pages/projects/new/page.tsx:84 | the review page reads back exactly the id the chat sent, for ids that need no URL escaping (also src/pages/projects/review/page.tsx:20) |
| ProjectChat.ChatSession.constructor | src/pages/projects/new/page.tsx:13-23 | the transcript is just the greeting; empty input, no id, idle, not complete |
| ProjectChat.ChatSession.SetInput | src/pages/projects/new/page.tsx:141 | typing only replaces the input |
| ProjectChat.ChatSession.HandleSend | src/pages/projects/new/page.tsx:32-78 | keeps the transcript well formed. Blank input or no user: nothing changes. Otherwise the request is built from the trimmed text and the current id, the input clears, and the transcript grows by the user turn and the reply. The reply is the server's message or the error text; only a good reply updates the id and completion. Loading ends |
| ProjectChat.ChatSession.CompletionPanelHasTarget | src/pages/projects/new/page.tsx:164-172 | when the completion panel shows, its generate button has a target |
| ProfilePage.FormFromProfile | src/pages/profile/page.tsx:69-74 | each form field is the profile's value, or empty when missing (also lines 133-138) |
| ProfilePage.UpdateField | src/pages/profile/page.tsx:83-90 | the named field takes the value; the other three keep theirs |
| ProfilePage.UpdateUndone | src/pages/profile/page.tsx:83-90 | typing the old value back restores the form |
| ProfilePage.UpdatesCommute | src/pages/profile/page.tsx:83-90 | edits to different fields commute |
| ProfilePage.DisplayValue | src/pages/profile/page.tsx:249 | the read-only view never shows an empty value (also lines 274, 299, 324) |
| ProfilePage.DisplayMatchesForm | src/pages/profile/page.tsx:69-74 | the view shows `-` exactly where the form field would be empty, and the form's value elsewhere (also lines 249-324) |
| ProfilePage.StripeBadge | src/pages/profile/page.tsx:350-358 | "connected" exactly when an account id is present and non-empty |
| ProfilePage.ProfileView.constructor | src/pages/profile/page.tsx:24-36 | no profile, loading, not editing, no messages, empty form |
| ProfilePage.ProfileView.FetchProfile | src/pages/profile/page.tsx:51-80 | nothing without a user. Ok with a `user`: profile and form are filled. Ok without one: the profile is cleared and the TypeError's message shown. Non-ok: the fixed message. Thrown: its message. Loading ends |
| ProfilePage.ProfileView.StartEditing | src/pages/profile/page.tsx:190 | the edit button only turns editing on |
| ProfilePage.ProfileView.HandleInputChange | src/pages/profile/page.tsx:83-90 | the form becomes UpdateField of itself |
| ProfilePage.ProfileView.HandleSave | src/pages/profile/page.tsx:92-129 | nothing without a user. Otherwise the messages are cleared and the form is the body built for the request. Success stores the returned profile (none when the body has no `user`), ends editing and confirms. Failure shows the server's message or the default, and editing goes on. Saving ends |
| ProfilePage.ProfileView.HandleCancel | src/pages/profile/page.tsx:131-142 | the form returns to the profile's values (when there is a profile); editing ends and the error clears |
| ReviewsList.RenderStars | src/pages/reviews/page.tsx:69-71 | defined (no RangeError) exactly for 0..5: five glyphs with the first r filled |
| ReviewsList.RenderStarsRoundTrip | src/pages/reviews/page.tsx:70 | the rating reads back from its star string as the number of leading filled glyphs |
| ReviewsList.LayoutFor | src/pages/reviews/page.tsx:102-121 | the "no reviews yet" message iff the list is empty; otherwise the summary, with the list's length as count |
| ReviewsList.CountTextDistinguishes | src/pages/reviews/page.tsx:111 | different review counts give different count lines |
| ReviewsList.CountText | src/pages/reviews/page.tsx:111 | the summary's count line: the number of reviews followed by `件のレビュー` |
| ReviewsList.AfterFetch | src/pages/reviews/page.tsx:40-66 | success replaces list and average; a failure keeps them and sets a non-empty message: the fixed one for non-ok responses, the thrown message for a thrown error, or the fixed one when that message is empty |
| ReviewForm.StarButtons | src/pages/reviews/new/page.tsx:77-92 | five buttons; button k shows a filled star exactly when k is at most the rating |
| ReviewForm.StarButtonsMatchList | src/pages/reviews/new/page.tsx:87 | for ratings 1..5 the form's stars equal the list page's star string (also src/pages/reviews/page.tsx:70) |
| ReviewForm.ReviewsUrlAsWrittenMissesHost | src/pages/reviews/new/page.tsx:49 | as written, the request URL does not start with the configured API host |
| ReviewForm.ReviewsUrlAsWritten | src/pages/reviews/new/page.tsx:49 | the URL as written: the fixed text `${import.meta.env.VITE_API_URL}/api/reviews`, whatever the API base |
| ReviewForm.ReviewsUrl | src/pages/reviews/new/page.tsx:49 | the intended URL is the API base followed by `/api/reviews` |
| ReviewForm.SubmitStepFor | src/pages/reviews/new/page.tsx:37-42 | ignored iff the user or either id is missing; rejected iff the comment is blank; otherwise sends both ids, the rating and the non-empty trimmed comment (also lines 55-60) |
| ReviewForm.EnabledSubmitSends | src/pages/reviews/new/page.tsx:167 | an enabled submit button with both ids and a user always sends (also lines 37-42) |
| ReviewForm.SubmitDisabled | src/pages/reviews/new/page.tsx:167 | the submit button is disabled while submitting or while the trimmed comment is empty |
| ReviewForm.ReviewDraft.constructor | src/pages/reviews/new/page.tsx:17-20 | the rating starts at 5, which is in 1..5 |
| ReviewForm.ReviewDraft.CheckParams | src/pages/reviews/new/page.tsx:28-32 | a missing id sets the missing-id error |
| ReviewForm.ReviewDraft.SetRating | src/pages/reviews/new/page.tsx:80-84 | a star click sets the rating, which stays in 1..5 |
| ReviewForm.ReviewDraft.SetComment | src/pages/reviews/new/page.tsx:145 | typing replaces only the comment |
| ReviewForm.ReviewDraft.HandleSubmit | src/pages/reviews/new/page.tsx:34-75 | follows SubmitStepFor. A blank comment sets its error and sends nothing. A send clears the error and moves to `/reviews` on success; otherwise it shows the response's or the default message. Submitting ends |
| ProposalForm.NumberProblem | src/pages/proposals/new/page.tsx:13-15 | a number field is fine iff it is a number at or above its minimum; NaN and below-minimum are reported apart |
| ProposalForm.Validate | src/pages/proposals/new/page.tsx:13-17 | each field reports its own minimum message exactly when it violates its threshold; all three are checked |
| ProposalForm.ValidIff | src/pages/proposals/new/page.tsx:13-17 | valid iff budget >= 10000, timeline >= 1 and message length >= 50 |
| ProposalForm.ProblemsDistinct | src/pages/proposals/new/page.tsx:14-16 | the three minimum messages differ |
| ProposalForm.Submit | src/pages/proposals/new/page.tsx:81-120 | invalid: only errors. No project id: an alert and no request. Otherwise exactly the four values are posted; success alerts and moves to the dashboard, failure alerts the message |
| ProposalForm.PostedIsValid | src/pages/proposals/new/page.tsx:13-17 | every posted proposal meets the three thresholds (also lines 98-103) |
| ProposalForm.LoadProject | src/pages/proposals/new/page.tsx:46-78 | requested iff there is a user and a project id; only a good response sets the project; with a user, loading ends |
| ProposalForm.ViewFor | src/pages/proposals/new/page.tsx:122-140 | the intended page: loading first; "not found" exactly when signed in without a project id or project; otherwise the form |
| ProposalForm.ViewAsWritten | src/pages/proposals/new/page.tsx:154 | as written, the form view never shows: where the intended page shows the form the render throws (unimported `Link`); every other branch agrees |
| ProposalForm.FormUnreachableAsWritten | src/pages/proposals/new/page.tsx:154 | a signed-in user with a project id and a loaded project should see the form, but the page as written throws |
| ProposalForm.FailedFetchShowsNotFound | src/pages/proposals/new/page.tsx:62-72 | a failed project fetch ends on the "not found" view (also lines 134-140) |
| Signup.Validate | src/pages/auth/signup/page.tsx:13-18 | each field's message appears exactly when its rule fails |
| Signup.ValidIff | src/pages/auth/signup/page.tsx:13-18 | valid iff name >= 2, the e-mail is valid, password >= 8 and the role is client or vendor |
| Signup.FailureMessage | src/pages/auth/signup/page.tsx:74-78 | the "already in use" message exactly for that error code; the generic one otherwise |
| Signup.OnSubmit | src/pages/auth/signup/page.tsx:35-82 | the dashboard iff every step succeeds, with the error cleared. The first failing Firebase step decides the message. The record saved holds name, e-mail and role. A failed save gives the generic message |
| Signup.SaveFailureIsGeneric | src/pages/auth/signup/page.tsx:67-69 | a failed save never reports "already in use" (also lines 74-78) |
| Signup.PasswordNotSaved | src/pages/auth/signup/page.tsx:60-64 | the saved record does not depend on the password |
| Email.SubjectHead | src/lib/email.ts:108 | every subject start begins with the `【Tasket】` tag, and the four that are followed by a project title end with ` - ` (also lines 165, 220, 281, 343) |
| Email.Subject | src/lib/email.ts:108 | subjects start with the tag; the four project subjects end with the project title (also lines 165, 220, 281, 343) |
| Email.SubjectNamesKind | src/lib/email.ts:108 | the kind of e-mail can be read back from its subject, whatever the title (also lines 165, 220, 281, 343) |
| Email.SubjectsDistinct | src/lib/email.ts:108 | different e-mails never share a subject (also lines 165, 220, 281, 343) |
| Email.SubjectTitleRoundTrip | src/lib/email.ts:108 | the title is determined by the subject (also lines 165, 220, 281) |
| Email.MessagePreview | src/lib/email.ts:263 | short messages are kept whole; longer ones are cut to 200 characters plus `...` |
| Email.PreviewBounded | src/lib/email.ts:263 | the preview has at most 203 characters and starts with as much of the message as fits |
| Email.ReviewStars | src/lib/email.ts:298 | defined exactly for non-negative ratings, as that many filled stars |
| Email.ReviewStarsMatchList | src/lib/email.ts:298 | for 0..5 the e-mail's stars are the filled part of the list page's string (also src/pages/reviews/page.tsx:70) |
| Email.SendEmail | src/lib/email.ts:10-48 | always returns. No API key: nothing is sent. Otherwise the message goes out from the given or the default sender; delivered iff the service accepts |
| Email.SenderNeverEmpty | src/lib/email.ts:36 | the sender is never empty |
| Strings.Trim | src/pages/projects/new/page.tsx:33-35 | `trim` never lengthens the text, and the result neither starts nor ends with whitespace |
| Strings.TrimEmptyIffBlank | src/pages/reviews/new/page.tsx:39 | the trimmed text is empty exactly when the text is all whitespace |
| Strings.Repeat | src/pages/reviews/page.tsx:70 | `repeat` throws (None) exactly for a negative count; otherwise n copies |

## Findings

| source | as written | input that shows it | evidently intended | confidence | as-written member | corrected member |
|---|---|---|---|---|---|---|
| src/pages/proposals/new/page.tsx:154 | `Link` is rendered but never imported (imports at lines 6-11), so the form branch throws a ReferenceError | a signed-in user, a project id and a project fetch that succeeds | `import { Link } from 'react-router-dom'`, so the form shows | medium (not executed) | ProposalForm.FormUnreachableAsWritten | ProposalForm.ViewFor |
| src/pages/projects/page.tsx:106 | `Link` is rendered (also line 214) but never imported (imports at lines 6-8), so the page throws once loading ends with a user | a signed-in user whose project list has loaded | `import { Link } from 'react-router-dom'`, so the filtered list shows | medium (not executed) | ProjectsList.ListingUnreachableAsWritten | ProjectsList.ListViewFor |
| src/lib/notification-context.tsx:87 | the counter is decremented even when the marked entry was already read (the notifications page calls `markAsRead` for every click, src/pages/notifications/page.tsx:21-23) | entries "a" (read) and "b" (unread) with a counter of 1; clicking "a" leaves 0 while "b" is unread | decrement only when an unread entry was marked | medium (not executed) | NotificationStore.CounterCanUndercount | NotificationStore.CountAfterMarkRead |
| src/pages/reviews/new/page.tsx:49 | the URL is in single quotes, so `${import.meta.env.VITE_API_URL}` is sent literally as a relative path | any configured base, e.g. `https://api.task-et.com`: the request goes to `${import.meta.env.VITE_API_URL}/api/reviews` relative to the page | a template literal: the API base followed by `/api/reviews` | high (not executed) | ReviewForm.ReviewsUrlAsWrittenMissesHost | ReviewForm.ReviewsUrl |

`ReviewForm.SubmitStepFor` and `ReviewDraft.HandleSubmit` post to the corrected URL.

## Left out

- Network, Firebase and Resend calls are not performed. Each awaited outcome is an input (`Fetched`, `AuthStep`, `serviceAccepts`).
- Concurrency is not modelled. Pages' async handlers can interleave (e.g. a second send during a pending one), and React batches state updates. Each handler is modelled as running to completion alone.
- Timers are not modelled: the 30-second notification polling and the 3-second removal of the profile success message.
- The request bodies the handlers return are the bodies built for the request. A `Failed` outcome also covers `getIdToken` throwing before any request leaves, so a returned body is not proof that a request was sent.
- `alert`, `navigate` and `window.location` are not performed. Their target is returned as a value.
- The HTML bodies of the e-mails are not modelled, beyond the preview and the stars in them.
- Email.SendEmail: `getResend`'s module-level client cache is not modelled. It takes the key as it would be read on the first call, and does not express that later calls reuse the first client.
- Strings.Trim: it, and every length in the model, counts Dafny characters, whereas JavaScript counts UTF-16 code units. Text outside the Basic Multilingual Plane therefore counts once here and twice in the browser, e.g. against the 50-character message minimum.
- Lower-casing for search, locale date formatting and the e-mail syntax rule are uninterpreted function parameters. Their behaviour belongs to the browser and the schema library.
- `parseInt` is not modelled; its result (`Option<int>`) is an input.
- Averages are floating-point and are not modelled: `averageRating.toFixed(1)` and `Math.round` on the reviews and dashboard pages. The summary's rounded rating is simply a star count for `ReviewsList.RenderStars`.
- ProfilePage.ProfileView.FetchProfile: the wording of the TypeError thrown when a good response lacks `user` is the browser's; it is a parameter.
- Signup.OnSubmit: a failing `getIdToken` is treated like a failed save (no error code, generic message).
- Signup.Validate: the schema library's own messages for an invalid role, and for NaN numbers in `ProposalForm.Validate`, are represented as flags (`invalidRole`, `NotANumber`) rather than text.
- RequirementsReview.ReviewPage.LoadRequirements: the effect re-running when its dependencies change is not modelled; each call is one run.
- The rendering after a failed publish is not modelled: the non-empty error switches the review page to its error view.
- NotificationStore.NotificationProvider.MarkAsRead keeps the source's unconditional decrement (see Findings); the intended update is `NotificationStore.CountAfterMarkRead`, which the provider does not use.
- ProposalForm.ViewFor and ProjectsList.ListViewFor describe which branch the page selects; JSX rendering itself is not modelled.
- Dashboard and admin statistics, the login page, PDF export, Stripe onboarding and routing are not modelled. They fetch and display without decision rules.
