/**
 * The sign-up page (src/pages/auth/signup/page.tsx): the form schema, the
 * account-creation sequence and the message a failure shows.
 */
module Signup {
  import opened Common

  const MinNameLength := 2
  const MinPasswordLength := 8

  const NameTooShort := "名前は2文字以上である必要があります"
  const InvalidEmail := "正しいメールアドレスを入力してください"
  const PasswordTooShort := "パスワードは8文字以上である必要があります"
  const EmailInUseCode := "auth/email-already-in-use"
  const EmailInUse := "このメールアドレスは既に使用されています。"
  const Generic := "アカウント作成に失敗しました。もう一度お試しください。"
  const SaveFailed := "ユーザー情報の保存に失敗しました"

  /** The raw form values; `role` is None when the select gives no value. */
  datatype SignupInput = SignupInput(name: string, email: string, password: string, role: Option<string>)

  /** The problems the form shows; `InvalidRole` carries the schema library's own message, not modelled. */
  datatype SignupErrors = SignupErrors(name: Option<string>, email: Option<string>, password: Option<string>, invalidRole: bool)

  predicate IsRole(role: Option<string>) {
    role == Some("client") || role == Some("vendor")
  }

  /** The sign-up schema; what counts as an e-mail address is the schema library's rule, given as `emailValid`. */
  function Validate(input: SignupInput, emailValid: string -> bool): (e: SignupErrors)
    ensures e.name.Some? <==> |input.name| < MinNameLength
    ensures e.email.Some? <==> !emailValid(input.email)
    ensures e.password.Some? <==> |input.password| < MinPasswordLength
    ensures e.invalidRole <==> !IsRole(input.role)
    ensures e.name.Some? ==> e.name.value == NameTooShort
    ensures e.email.Some? ==> e.email.value == InvalidEmail
    ensures e.password.Some? ==> e.password.value == PasswordTooShort
  {
    SignupErrors(
      if |input.name| < MinNameLength then Some(NameTooShort) else None,
      if emailValid(input.email) then None else Some(InvalidEmail),
      if |input.password| < MinPasswordLength then Some(PasswordTooShort) else None,
      !IsRole(input.role))
  }

  predicate NoErrors(e: SignupErrors) {
    e.name.None? && e.email.None? && e.password.None? && !e.invalidRole
  }

  /** Sign-up is accepted exactly when the name has 2+ characters, the e-mail is valid, the password has 8+ characters and the role is client or vendor. */
  lemma ValidIff(input: SignupInput, emailValid: string -> bool)
    ensures NoErrors(Validate(input, emailValid)) <==>
      |input.name| >= MinNameLength && emailValid(input.email) &&
      |input.password| >= MinPasswordLength && IsRole(input.role)
  {
  }

  /** The message for a failure, by the error's `code` (None when the error has none). */
  function FailureMessage(code: Option<string>): (m: string)
    ensures m == EmailInUse <==> code == Some(EmailInUseCode)
    ensures m == Generic <==> code != Some(EmailInUseCode)
  {
    if code == Some(EmailInUseCode) then EmailInUse else Generic
  }

  /** How one Firebase call ends: with success or an error carrying an optional code. */
  datatype AuthStep = Succeeded | Rejected(code: Option<string>)

  /** The user record kept in the database: no password. */
  datatype SavedUser = SavedUser(name: string, email: string, role: string)

  /** The page after a submission. */
  datatype SignupOutcome = SignupOutcome(saved: Option<SavedUser>, error: string, navigateTo: Option<string>, loading: bool)

  /**
   * `onSubmit` for a form that passed the schema: the error is cleared, the
   * account is created, its display name set, and the user record posted;
   * the first failure decides the message and stops the rest.
   */
  function OnSubmit(input: SignupInput, create: AuthStep, update: AuthStep, save: Fetched<()>): (o: SignupOutcome)
    requires IsRole(input.role)
    ensures !o.loading
    ensures o.navigateTo.Some? <==> create.Succeeded? && update.Succeeded? && save.Ok?
    ensures o.navigateTo.Some? ==> o.navigateTo == Some("/dashboard") && o.error == ""
    ensures create.Rejected? ==> o.saved == None && o.error == FailureMessage(create.code)
    ensures create.Succeeded? && update.Rejected? ==> o.saved == None && o.error == FailureMessage(update.code)
    ensures create.Succeeded? && update.Succeeded? ==> o.saved == Some(SavedUser(input.name, input.email, input.role.value))
    ensures create.Succeeded? && update.Succeeded? && !save.Ok? ==> o.error == Generic
  {
    match create
    case Rejected(code) => SignupOutcome(None, FailureMessage(code), None, false)
    case Succeeded =>
      match update
      case Rejected(code) => SignupOutcome(None, FailureMessage(code), None, false)
      case Succeeded =>
        var body := SavedUser(input.name, input.email, input.role.value);
        match save
        case Ok(_) => SignupOutcome(Some(body), "", Some("/dashboard"), false)
        // the thrown Error (or a network failure) has no code
        case _ => SignupOutcome(Some(body), FailureMessage(None), None, false)
  }

  /** A failed save is reported with the generic message, never the "already in use" one. */
  lemma SaveFailureIsGeneric(input: SignupInput, save: Fetched<()>)
    requires IsRole(input.role) && !save.Ok?
    ensures OnSubmit(input, Succeeded, Succeeded, save).error == Generic
    ensures OnSubmit(input, Succeeded, Succeeded, save).error != EmailInUse
  {
    assert Generic != EmailInUse by {
      assert Generic[0] != EmailInUse[0];
    }
  }

  /** The password never reaches the database: inputs that differ only in their password save the same record. */
  lemma PasswordNotSaved(input: SignupInput, otherPassword: string, create: AuthStep, update: AuthStep, save: Fetched<()>)
    requires IsRole(input.role)
    ensures OnSubmit(input, create, update, save).saved == OnSubmit(input.(password := otherPassword), create, update, save).saved
  {
  }
}
