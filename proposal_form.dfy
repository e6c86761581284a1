/**
 * The proposal form (src/pages/proposals/new/page.tsx): the schema a
 * proposal must satisfy, what submitting it leads to, and which view the
 * page shows.
 */
module ProposalForm {
  import opened Common
  import opened Strings

  const MinBudget: real := 10000.0
  const MinTimeline: real := 1.0
  const MinMessageLength := 50

  const BudgetTooLow := "提案金額は10,000円以上である必要があります"
  const TimelineTooShort := "納期は1日以上である必要があります"
  const MessageTooShort := "メッセージは50文字以上である必要があります"
  const MissingProject := "案件IDが指定されていません"
  const SendFailed := "提案の送信に失敗しました"
  const Sent := "提案を送信しました！"

  /**
   * The raw form values. The two number inputs are read with
   * `valueAsNumber`, so an empty or unparsable input arrives as NaN (None).
   */
  datatype ProposalInput = ProposalInput(budget: Option<real>, timeline: Option<real>, message: string)

  /** The one problem the form shows under a field, if any. */
  datatype FieldProblem = NotANumber | BelowMinimum(text: string)

  /** The problems reported under each of the three fields. */
  datatype FieldErrors = FieldErrors(budget: Option<FieldProblem>, timeline: Option<FieldProblem>, message: Option<FieldProblem>)

  /** A `z.number().min(m, text)` check: NaN is not a number; below the minimum reports the text. */
  function NumberProblem(v: Option<real>, minimum: real, text: string): (p: Option<FieldProblem>)
    ensures p == None <==> v.Some? && v.value >= minimum
    ensures p == Some(NotANumber) <==> v.None?
    ensures p == Some(BelowMinimum(text)) <==> v.Some? && v.value < minimum
  {
    match v
    case None => Some(NotANumber)
    case Some(x) => if x < minimum then Some(BelowMinimum(text)) else None
  }

  /** The schema's verdict on every field; all three are checked, not just the first failing one. */
  function Validate(input: ProposalInput): (e: FieldErrors)
    ensures e.budget == Some(BelowMinimum(BudgetTooLow)) <==> input.budget.Some? && input.budget.value < MinBudget
    ensures e.timeline == Some(BelowMinimum(TimelineTooShort)) <==> input.timeline.Some? && input.timeline.value < MinTimeline
    ensures e.message == Some(BelowMinimum(MessageTooShort)) <==> |input.message| < MinMessageLength
    ensures e.message.None? <==> |input.message| >= MinMessageLength
  {
    FieldErrors(
      NumberProblem(input.budget, MinBudget, BudgetTooLow),
      NumberProblem(input.timeline, MinTimeline, TimelineTooShort),
      if |input.message| < MinMessageLength then Some(BelowMinimum(MessageTooShort)) else None)
  }

  predicate NoErrors(e: FieldErrors) {
    e.budget.None? && e.timeline.None? && e.message.None?
  }

  /** A proposal passes exactly when the budget is at least 10000, the timeline at least 1 day and the message at least 50 characters. */
  lemma ValidIff(input: ProposalInput)
    ensures NoErrors(Validate(input)) <==>
      input.budget.Some? && input.budget.value >= MinBudget &&
      input.timeline.Some? && input.timeline.value >= MinTimeline &&
      |input.message| >= MinMessageLength
  {
  }

  /** The three minimum messages are different, so every violated threshold is told apart. */
  lemma ProblemsDistinct()
    ensures BudgetTooLow != TimelineTooShort && TimelineTooShort != MessageTooShort && BudgetTooLow != MessageTooShort
  {
    assert BudgetTooLow[0] != TimelineTooShort[0];
    assert TimelineTooShort[0] != MessageTooShort[0];
    assert BudgetTooLow[0] != MessageTooShort[0];
  }

  /** The JSON body of a proposal: exactly these four values. */
  datatype ProposalBody = ProposalBody(projectId: string, budget: real, timeline: real, message: string)

  /** What pressing submit leads to. */
  datatype SubmitOutcome =
    | ShowErrors(errors: FieldErrors)
    | Alerted(alertText: string)
    | Posted(body: ProposalBody, alertText: string, navigateTo: Option<string>)

  /**
   * `handleSubmit(onSubmit)`: an invalid form only shows its errors; a valid
   * one without a project id alerts and sends nothing; otherwise the four
   * values are posted and the outcome is alerted, moving to the dashboard
   * after a success.
   */
  function Submit(input: ProposalInput, projectId: Option<string>, response: Fetched<()>): (o: SubmitOutcome)
    ensures !NoErrors(Validate(input)) <==> o.ShowErrors?
    ensures o.ShowErrors? ==> o.errors == Validate(input)
    ensures o == Alerted(MissingProject) <==> NoErrors(Validate(input)) && !Truthy(projectId)
    ensures o.Posted? <==> NoErrors(Validate(input)) && Truthy(projectId)
    ensures o.Posted? ==>
      o.body == ProposalBody(projectId.value, input.budget.value, input.timeline.value, input.message) &&
      (o.navigateTo.Some? <==> response.Ok?) &&
      (response.Ok? ==> o.alertText == Sent && o.navigateTo == Some("/dashboard")) &&
      (response.NotOk? ==> o.alertText == SendFailed) &&
      (response.Failed? ==> o.alertText == OrElse(response.message, SendFailed))
  {
    var e := Validate(input);
    if !NoErrors(e) then ShowErrors(e)
    else if !Truthy(projectId) then Alerted(MissingProject)
    else
      var body := ProposalBody(projectId.value, input.budget.value, input.timeline.value, input.message);
      match response
      case Ok(_) => Posted(body, Sent, Some("/dashboard"))
      case NotOk(_) => Posted(body, SendFailed, None)
      case Failed(message) => Posted(body, OrElse(message, SendFailed), None)
  }

  /** A posted proposal always satisfies the schema. */
  lemma PostedIsValid(input: ProposalInput, projectId: Option<string>, response: Fetched<()>)
    requires Submit(input, projectId, response).Posted?
    ensures var b := Submit(input, projectId, response).body;
      b.budget >= MinBudget && b.timeline >= MinTimeline && |b.message| >= MinMessageLength
  {
    ValidIff(input);
  }

  /** The project summary the page fetches; only its presence matters here. */
  datatype ProjectSummary = ProjectSummary(id: string, title: string)

  /** The page's project state after the loading effect, with whether this run made a request. */
  datatype ProjectLoad = ProjectLoad(requested: bool, project: Option<ProjectSummary>, loadingProject: bool)

  /**
   * `fetchProject`: without a project id, loading just ends; with one, and
   * a user, the project is requested and kept only when the response is good
   * (a failure is only logged); without a user nothing happens yet.
   */
  function LoadProject(signedIn: bool, projectId: Option<string>, response: Fetched<ProjectSummary>, before: ProjectLoad): (after: ProjectLoad)
    ensures after.requested <==> signedIn && Truthy(projectId)
    ensures !signedIn ==> after == before.(requested := false)
    ensures signedIn ==> !after.loadingProject
    ensures after.requested && response.Ok? ==> after.project == Some(response.body)
    ensures !(after.requested && response.Ok?) ==> after.project == before.project
  {
    if !signedIn then before.(requested := false)
    else if !Truthy(projectId) then ProjectLoad(false, before.project, false)
    else match response
      case Ok(p) => ProjectLoad(true, Some(p), false)
      case _ => ProjectLoad(true, before.project, false)
  }

  /** `RenderFails`: the render throws (a ReferenceError) instead of producing a view. */
  datatype PageView = Loading | Blank | NotFound | Form | RenderFails

  /** Which view renders: loading first, nothing without a user, "not found" without a project id or project, else the form. */
  function ViewFor(authLoading: bool, loadingProject: bool, signedIn: bool,
                   projectId: Option<string>, project: Option<ProjectSummary>): (v: PageView)
    ensures v == Loading <==> authLoading || loadingProject
    ensures v == NotFound <==> !authLoading && !loadingProject && signedIn && (!Truthy(projectId) || project.None?)
    ensures v == Form <==> !authLoading && !loadingProject && signedIn && Truthy(projectId) && project.Some?
  {
    if authLoading || loadingProject then Loading
    else if !signedIn then Blank
    else if !Truthy(projectId) || project.None? then NotFound
    else Form
  }

  /** A project fetch that fails, starting from no project, ends on the "not found" view. */
  lemma FailedFetchShowsNotFound(projectId: Option<string>, response: Fetched<ProjectSummary>)
    requires !response.Ok?
    ensures var after := LoadProject(true, projectId, response, ProjectLoad(false, None, true));
      ViewFor(false, after.loadingProject, true, projectId, after.project) == NotFound
  {
  }

  /**
   * The view as the page is written: the form branch renders a `Link`
   * element, but `Link` is never imported into the page, so evaluating that
   * branch throws and only the earlier branches ever show.
   */
  function ViewAsWritten(authLoading: bool, loadingProject: bool, signedIn: bool,
                         projectId: Option<string>, project: Option<ProjectSummary>): (v: PageView)
    ensures v != Form
    ensures v == RenderFails <==> ViewFor(authLoading, loadingProject, signedIn, projectId, project) == Form
    ensures v != RenderFails ==> v == ViewFor(authLoading, loadingProject, signedIn, projectId, project)
  {
    var v := ViewFor(authLoading, loadingProject, signedIn, projectId, project);
    if v == Form then RenderFails else v
  }

  /**
   * A signed-in vendor opening the page for project "p1", whose fetch
   * succeeded, should see the form; as written the render throws instead.
   */
  lemma FormUnreachableAsWritten()
    ensures var project := Some(ProjectSummary("p1", "RPA"));
      ViewFor(false, false, true, Some("p1"), project) == Form &&
      ViewAsWritten(false, false, true, Some("p1"), project) == RenderFails
  {
  }
}

