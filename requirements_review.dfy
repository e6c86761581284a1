/**
 * The requirements review page (src/pages/projects/review/page.tsx): the
 * generated requirements are loaded once, edited field by field and item by
 * item, and published as a new project.
 */
module RequirementsReview {
  import opened Common
  import opened Strings
  import opened Lists

  datatype Requirements = Requirements(
    title: string, description: string,
    requirements: seq<string>, technologies: seq<string>,
    budget: int, deadlineDays: int, background: string)

  /** The three free-text fields. */
  datatype TextField = Title | Description | Background

  /** The two editable lists. */
  datatype ListField = RequirementItems | TechnologyItems

  function Text(r: Requirements, f: TextField): string {
    match f
    case Title => r.title
    case Description => r.description
    case Background => r.background
  }

  function Items(r: Requirements, f: ListField): seq<string> {
    match f
    case RequirementItems => r.requirements
    case TechnologyItems => r.technologies
  }

  /** `setRequirements({ ...requirements, <field>: value })` for a text field: only that field changes. */
  function SetText(r: Requirements, f: TextField, v: string): (r': Requirements)
    ensures Text(r', f) == v
    ensures forall g :: g != f ==> Text(r', g) == Text(r, g)
    ensures r'.requirements == r.requirements && r'.technologies == r.technologies
    ensures r'.budget == r.budget && r'.deadlineDays == r.deadlineDays
  {
    match f
    case Title => r.(title := v)
    case Description => r.(description := v)
    case Background => r.(background := v)
  }

  /** Replaces one list, nothing else. */
  function SetItems(r: Requirements, f: ListField, xs: seq<string>): (r': Requirements)
    ensures Items(r', f) == xs
    ensures forall g :: g != f ==> Items(r', g) == Items(r, g)
    ensures forall g :: Text(r', g) == Text(r, g)
    ensures r'.budget == r.budget && r'.deadlineDays == r.deadlineDays
  {
    match f
    case RequirementItems => r.(requirements := xs)
    case TechnologyItems => r.(technologies := xs)
  }

  /** `const copy = [...items]; copy[index] = value`: only position `index` changes. */
  function EditAt(items: seq<string>, index: nat, value: string): (r: seq<string>)
    requires index < |items|
    ensures |r| == |items| && r[index] == value
    ensures forall j | 0 <= j < |items| && j != index :: r[j] == items[j]
  {
    items[index := value]
  }

  /** `[...items, '']`: one empty item at the end. */
  function AppendBlank(items: seq<string>): (r: seq<string>)
    ensures |r| == |items| + 1 && r[..|items|] == items && r[|items|] == ""
  {
    items + [""]
  }

  /** Putting the old text back undoes an edit. */
  lemma EditUndone(items: seq<string>, index: nat, value: string)
    requires index < |items|
    ensures EditAt(EditAt(items, index, value), index, items[index]) == items
  {
  }

  /** Deleting the item just added undoes the addition. */
  lemma AppendThenRemove(items: seq<string>)
    ensures RemoveAt(AppendBlank(items), |items|) == items
  {
    assert AppendBlank(items)[..|items|] == items;
  }

  /** Deleting item `index` keeps every other item, in the same order, one place earlier after it. */
  lemma RemoveShifts(items: seq<string>, index: nat)
    requires index < |items|
    ensures var r := RemoveAt(items, index);
      |r| == |items| - 1 &&
      (forall j | 0 <= j < index :: r[j] == items[j]) &&
      (forall j | index <= j < |r| :: r[j] == items[j + 1])
  {
  }

  /** `parseInt(value) || 0`: a NaN (None) or zero parse stores 0, any other parse stores the number. */
  function NumberInput(parsed: Option<int>): (n: int)
    ensures n == parsed.GetOr(0)
  {
    if parsed.Some? && parsed.value != 0 then parsed.value else 0
  }

  /** The JSON body sent to create the project. */
  datatype PublishBody = PublishBody(
    title: string, description: string, budget: int, deadlineDays: int,
    requirements: seq<string>, technologies: seq<string>, background: string,
    conversationId: Option<string>)

  function PublishBodyFor(r: Requirements, conversationId: Option<string>): (b: PublishBody) {
    PublishBody(r.title, r.description, r.budget, r.deadlineDays, r.requirements, r.technologies, r.background, conversationId)
  }

  /** The requirements a body describes. */
  function RequirementsOf(b: PublishBody): Requirements {
    Requirements(b.title, b.description, b.requirements, b.technologies, b.budget, b.deadlineDays, b.background)
  }

  /** The body carries all seven requirement fields unchanged, and the conversation id. */
  lemma PublishBodyComplete(r: Requirements, conversationId: Option<string>)
    ensures RequirementsOf(PublishBodyFor(r, conversationId)) == r
    ensures PublishBodyFor(r, conversationId).conversationId == conversationId
  {
  }

  const MissingConversation := "会話IDが見つかりません"
  const GenerateFailed := "要件定義書の生成に失敗しました"
  const FetchFailed := "要件定義書の取得に失敗しました"
  const PublishFailed := "案件の公開に失敗しました"

  class ReviewPage {
    /** The `conversationId` query parameter; None when absent. */
    const conversationId: Option<string>
    var requirements: Option<Requirements>
    var isLoading: bool
    var isPublishing: bool
    var error: string

    constructor (conversationId: Option<string>)
      ensures this.conversationId == conversationId
      ensures requirements == None && isLoading && !isPublishing && error == ""
    {
      this.conversationId := conversationId;
      requirements := None;
      isLoading := true;
      isPublishing := false;
      error := "";
    }

    /**
     * The loading effect. Without a (truthy) conversation id it reports the
     * missing id and stops loading without a request; otherwise, once
     * authentication has settled on a signed-in user, it requests the
     * generation and stores the result or the error, and stops loading.
     */
    method LoadRequirements(signedIn: bool, authLoading: bool, response: Fetched<Option<Requirements>>)
      returns (requested: bool)
      modifies this
      ensures requested <==> Truthy(conversationId) && !authLoading && signedIn
      ensures isPublishing == old(isPublishing)
      ensures !Truthy(conversationId) ==>
        error == MissingConversation && !isLoading && requirements == old(requirements)
      ensures Truthy(conversationId) && !requested ==>
        error == old(error) && isLoading == old(isLoading) && requirements == old(requirements)
      ensures requested ==> !isLoading
      ensures requested && response.Ok? ==> requirements == response.body && error == old(error)
      ensures requested && response.NotOk? ==> requirements == old(requirements) && error == GenerateFailed
      ensures requested && response.Failed? ==> requirements == old(requirements) && error == OrElse(response.message, FetchFailed)
    {
      if !Truthy(conversationId) {
        error := MissingConversation;
        isLoading := false;
        return false;
      }
      if authLoading || !signedIn {
        return false;
      }
      requested := true;
      match response {
        case Ok(body) => requirements := body;
        case NotOk(_) => error := GenerateFailed;
        case Failed(message) => error := OrElse(message, FetchFailed);
      }
      isLoading := false;
    }

    /** Typing into the title, description or background field. */
    method EditText(f: TextField, v: string)
      requires requirements.Some?
      modifies this
      ensures requirements == Some(SetText(old(requirements).value, f, v))
      ensures isLoading == old(isLoading) && isPublishing == old(isPublishing) && error == old(error)
    {
      requirements := Some(SetText(requirements.value, f, v));
    }

    /** Typing into item `index` of a list. */
    method EditItem(f: ListField, index: nat, v: string)
      requires requirements.Some? && index < |Items(requirements.value, f)|
      modifies this
      ensures requirements == Some(SetItems(old(requirements).value, f, EditAt(Items(old(requirements).value, f), index, v)))
      ensures isLoading == old(isLoading) && isPublishing == old(isPublishing) && error == old(error)
    {
      var r := requirements.value;
      requirements := Some(SetItems(r, f, EditAt(Items(r, f), index, v)));
    }

    /** The delete button of item `index`. */
    method DeleteItem(f: ListField, index: nat)
      requires requirements.Some?
      modifies this
      ensures requirements == Some(SetItems(old(requirements).value, f, RemoveAt(Items(old(requirements).value, f), index)))
      ensures isLoading == old(isLoading) && isPublishing == old(isPublishing) && error == old(error)
    {
      var r := requirements.value;
      requirements := Some(SetItems(r, f, RemoveAt(Items(r, f), index)));
    }

    /** The "add" button under a list. */
    method AddItem(f: ListField)
      requires requirements.Some?
      modifies this
      ensures requirements == Some(SetItems(old(requirements).value, f, AppendBlank(Items(old(requirements).value, f))))
      ensures isLoading == old(isLoading) && isPublishing == old(isPublishing) && error == old(error)
    {
      var r := requirements.value;
      requirements := Some(SetItems(r, f, AppendBlank(Items(r, f))));
    }

    /** The budget input, given what `parseInt` made of the typed text. */
    method EditBudget(parsed: Option<int>)
      requires requirements.Some?
      modifies this
      ensures requirements == Some(old(requirements).value.(budget := NumberInput(parsed)))
      ensures isLoading == old(isLoading) && isPublishing == old(isPublishing) && error == old(error)
    {
      requirements := Some(requirements.value.(budget := NumberInput(parsed)));
    }

    /** The deadline input, given what `parseInt` made of the typed text. */
    method EditDeadline(parsed: Option<int>)
      requires requirements.Some?
      modifies this
      ensures requirements == Some(old(requirements).value.(deadlineDays := NumberInput(parsed)))
      ensures isLoading == old(isLoading) && isPublishing == old(isPublishing) && error == old(error)
    {
      requirements := Some(requirements.value.(deadlineDays := NumberInput(parsed)));
    }

    /**
     * `handlePublish`: nothing happens without requirements or a user.
     * Otherwise the error is cleared, the body with the seven fields and the
     * conversation id is sent, and the page either moves to the new project or
     * shows the error; publishing is over either way.
     */
    method HandlePublish(signedIn: bool, response: Fetched<string>)
      returns (body: Option<PublishBody>, navigateTo: Option<string>)
      modifies this
      ensures requirements == old(requirements) && isLoading == old(isLoading)
      ensures old(requirements).None? || !signedIn ==>
        body == None && navigateTo == None && isPublishing == old(isPublishing) && error == old(error)
      ensures old(requirements).Some? && signedIn ==>
        body == Some(PublishBodyFor(old(requirements).value, conversationId)) && !isPublishing
      ensures old(requirements).Some? && signedIn && response.Ok? ==>
        navigateTo == Some("/projects/" + response.body) && error == ""
      ensures old(requirements).Some? && signedIn && response.NotOk? ==>
        navigateTo == None && error == PublishFailed
      ensures old(requirements).Some? && signedIn && response.Failed? ==>
        navigateTo == None && error == OrElse(response.message, PublishFailed)
    {
      if requirements.None? || !signedIn {
        return None, None;
      }
      isPublishing := true;
      error := "";
      body := Some(PublishBodyFor(requirements.value, conversationId));
      navigateTo := None;
      match response {
        case Ok(projectId) => navigateTo := Some("/projects/" + projectId);
        case NotOk(_) => error := PublishFailed;
        case Failed(message) => error := OrElse(message, PublishFailed);
      }
      isPublishing := false;
    }
  }
}
