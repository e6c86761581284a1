/**
 * The profile page (src/pages/profile/page.tsx): the signed-in user's record
 * is loaded into an edit form, edited field by field, saved or discarded.
 */
module ProfilePage {
  import opened Common
  import opened Strings

  datatype UserProfile = UserProfile(
    id: string, email: string, name: string,
    bio: Option<string>, phone: Option<string>, address: Option<string>,
    stripeAccountId: Option<string>, stripeAccountStatus: Option<string>,
    createdAt: string)

  /** The four editable fields, as the form holds them: always strings. */
  datatype FormData = FormData(name: string, bio: string, phone: string, address: string)

  datatype FormField = Name | Bio | Phone | Address

  const FetchFailed := "プロフィール情報の取得に失敗しました"
  const SaveFailed := "プロフィール更新に失敗しました"
  const Saved := "プロフィールを更新しました"

  /** The initial form: every field empty. */
  const EmptyForm := FormData("", "", "", "")

  function FieldValue(f: FormData, k: FormField): string {
    match k
    case Name => f.name
    case Bio => f.bio
    case Phone => f.phone
    case Address => f.address
  }

  /** The profile's value of a field, `null` as None. */
  function ProfileValue(p: UserProfile, k: FormField): Option<string> {
    match k
    case Name => Some(p.name)
    case Bio => p.bio
    case Phone => p.phone
    case Address => p.address
  }

  /** The form filled from a profile: a missing value becomes the empty string, a present one is copied. */
  function FormFromProfile(p: UserProfile): (f: FormData)
    ensures forall k :: FieldValue(f, k) == ProfileValue(p, k).GetOr("")
  {
    FormData(OrElse(p.name, ""), OptOrElse(p.bio, ""), OptOrElse(p.phone, ""), OptOrElse(p.address, ""))
  }

  /** `handleInputChange`: the named field takes the typed value, the other three keep theirs. */
  function UpdateField(f: FormData, k: FormField, v: string): (r: FormData)
    ensures FieldValue(r, k) == v
    ensures forall j :: j != k ==> FieldValue(r, j) == FieldValue(f, j)
  {
    match k
    case Name => f.(name := v)
    case Bio => f.(bio := v)
    case Phone => f.(phone := v)
    case Address => f.(address := v)
  }

  /** Two forms with the same four values are the same form. */
  lemma FormExtensional(f: FormData, g: FormData)
    requires forall k :: FieldValue(f, k) == FieldValue(g, k)
    ensures f == g
  {
    assert FieldValue(f, Name) == FieldValue(g, Name);
    assert FieldValue(f, Bio) == FieldValue(g, Bio);
    assert FieldValue(f, Phone) == FieldValue(g, Phone);
    assert FieldValue(f, Address) == FieldValue(g, Address);
  }

  /** Typing the old value back restores the form. */
  lemma UpdateUndone(f: FormData, k: FormField, v: string)
    ensures UpdateField(UpdateField(f, k, v), k, FieldValue(f, k)) == f
  {
    FormExtensional(UpdateField(UpdateField(f, k, v), k, FieldValue(f, k)), f);
  }

  /** Edits to different fields commute. */
  lemma UpdatesCommute(f: FormData, j: FormField, v: string, k: FormField, w: string)
    requires j != k
    ensures UpdateField(UpdateField(f, j, v), k, w) == UpdateField(UpdateField(f, k, w), j, v)
  {
    FormExtensional(UpdateField(UpdateField(f, j, v), k, w), UpdateField(UpdateField(f, k, w), j, v));
  }

  /** What the read-only view shows for a field: `-` for a missing or empty value. */
  function DisplayValue(p: UserProfile, k: FormField): (shown: string)
    ensures shown != ""
  {
    OptOrElse(ProfileValue(p, k), "-")
  }

  /** The view shows the form's value, or `-` exactly where the form field would be empty. */
  lemma DisplayMatchesForm(p: UserProfile, k: FormField)
    ensures FieldValue(FormFromProfile(p), k) == "" ==> DisplayValue(p, k) == "-"
    ensures FieldValue(FormFromProfile(p), k) != "" ==> DisplayValue(p, k) == FieldValue(FormFromProfile(p), k)
  {
  }

  /** The Stripe status badge: connected exactly when an account id is present and non-empty. */
  function StripeBadge(p: UserProfile): (badge: string)
    ensures badge == "連携済み" <==> Truthy(p.stripeAccountId)
    ensures badge == "未連携" <==> !Truthy(p.stripeAccountId)
  {
    if Truthy(p.stripeAccountId) then "連携済み" else "未連携"
  }

  class ProfileView {
    var profile: Option<UserProfile>
    var isLoadingProfile: bool
    var isEditing: bool
    var isSaving: bool
    var error: Option<string>
    var successMessage: Option<string>
    var formData: FormData

    constructor ()
      ensures profile == None && isLoadingProfile && !isEditing && !isSaving
      ensures error == None && successMessage == None && formData == EmptyForm
    {
      profile := None;
      isLoadingProfile := true;
      isEditing := false;
      isSaving := false;
      error := None;
      successMessage := None;
      formData := EmptyForm;
    }

    /**
     * `fetchProfile`: without a user nothing happens. Otherwise the profile
     * and the form are filled from the response, or the error is shown;
     * loading ends either way. The body's `user` is stored before the form is
     * filled from it, so a good response without a `user` (None) clears the
     * profile and then fails reading its fields, showing that TypeError's
     * message (`typeErrorMessage`, worded by the browser).
     */
    method FetchProfile(signedIn: bool, response: Fetched<Option<UserProfile>>, typeErrorMessage: string)
      modifies this
      ensures isEditing == old(isEditing) && isSaving == old(isSaving) && successMessage == old(successMessage)
      ensures !signedIn ==>
        profile == old(profile) && isLoadingProfile == old(isLoadingProfile) &&
        error == old(error) && formData == old(formData)
      ensures signedIn ==> !isLoadingProfile
      ensures signedIn && response.Ok? && response.body.Some? ==>
        profile == response.body && formData == FormFromProfile(response.body.value) && error == old(error)
      ensures signedIn && response.Ok? && response.body.None? ==>
        profile == None && formData == old(formData) && error == Some(typeErrorMessage)
      ensures signedIn && response.NotOk? ==>
        profile == old(profile) && formData == old(formData) && error == Some(FetchFailed)
      ensures signedIn && response.Failed? ==>
        profile == old(profile) && formData == old(formData) && error == Some(response.message)
    {
      if !signedIn {
        return;
      }
      match response {
        case Ok(user) =>
          profile := user;
          if user.Some? {
            formData := FormFromProfile(user.value);
          } else {
            error := Some(typeErrorMessage);
          }
        case NotOk(_) => error := Some(FetchFailed);
        case Failed(message) => error := Some(message);
      }
      isLoadingProfile := false;
    }

    /** The edit button. */
    method StartEditing()
      modifies this
      ensures isEditing
      ensures profile == old(profile) && formData == old(formData) && error == old(error)
      ensures isSaving == old(isSaving) && successMessage == old(successMessage) && isLoadingProfile == old(isLoadingProfile)
    {
      isEditing := true;
    }

    /** Typing into one of the four inputs. */
    method HandleInputChange(k: FormField, v: string)
      modifies this
      ensures formData == UpdateField(old(formData), k, v)
      ensures profile == old(profile) && isEditing == old(isEditing) && error == old(error)
      ensures isSaving == old(isSaving) && successMessage == old(successMessage) && isLoadingProfile == old(isLoadingProfile)
    {
      formData := UpdateField(formData, k, v);
    }

    /**
     * `handleSave`: without a user nothing happens. Otherwise both messages
     * are cleared and the form is sent; on success the returned profile is
     * shown, editing ends and the confirmation appears; on failure the
     * server's message, or the default one, is shown and editing goes on.
     * The returned `user` is stored as it is, so a body without one (None)
     * leaves no profile.
     */
    method HandleSave(signedIn: bool, response: Fetched<Option<UserProfile>>) returns (sent: Option<FormData>)
      modifies this
      ensures formData == old(formData) && isLoadingProfile == old(isLoadingProfile)
      ensures !signedIn ==>
        sent == None && isSaving == old(isSaving) && profile == old(profile) && isEditing == old(isEditing) &&
        error == old(error) && successMessage == old(successMessage)
      ensures signedIn ==> sent == Some(old(formData)) && !isSaving
      ensures signedIn && response.Ok? ==>
        profile == response.body && !isEditing && error == None && successMessage == Some(Saved)
      ensures signedIn && response.NotOk? ==>
        profile == old(profile) && isEditing == old(isEditing) && successMessage == None &&
        error == Some(OptOrElse(response.errorMessage, SaveFailed))
      ensures signedIn && response.Failed? ==>
        profile == old(profile) && isEditing == old(isEditing) && successMessage == None &&
        error == Some(response.message)
    {
      if !signedIn {
        return None;
      }
      isSaving := true;
      error := None;
      successMessage := None;
      sent := Some(formData);
      match response {
        case Ok(user) =>
          profile := user;
          isEditing := false;
          successMessage := Some(Saved);
        case NotOk(message) => error := Some(OptOrElse(message, SaveFailed));
        case Failed(message) => error := Some(message);
      }
      isSaving := false;
    }

    /** `handleCancel`: the form goes back to the profile's values (when there is a profile), editing ends and the error is cleared. */
    method HandleCancel()
      modifies this
      ensures profile.Some? ==> formData == FormFromProfile(profile.value)
      ensures profile.None? ==> formData == old(formData)
      ensures !isEditing && error == None
      ensures profile == old(profile) && isSaving == old(isSaving)
      ensures successMessage == old(successMessage) && isLoadingProfile == old(isLoadingProfile)
    {
      if profile.Some? {
        formData := FormFromProfile(profile.value);
      }
      isEditing := false;
      error := None;
    }
  }
}
