/**
 * The user form (src/components/users/UserDialog.jsx): the ordered checks
 * of `onSubmit`, the password left out of an edit that does not change it,
 * the resets and the field rules.
 */
module UserDialog {

  import opened Common
  import opened Js
  import opened FormRules

  /** `useForm`'s default values. */
  const InitialDefaults: Record := map[
    "username" := Str(""), "email" := Str(""), "password" := Str(""),
    "firstName" := Str(""), "lastName" := Str(""), "role" := Str("cashier"),
    "isActive" := Bool(true)]

  /** The reset for a new user, spelled out a second time in the component. */
  const NewUserReset: Record := map[
    "username" := Str(""), "email" := Str(""), "password" := Str(""),
    "firstName" := Str(""), "lastName" := Str(""), "role" := Str("cashier"),
    "isActive" := Bool(true)]

  lemma NewResetIsInitial()
    ensures NewUserReset == InitialDefaults
  {
  }

  /**
   * The reset for an existing user: the password is always blank, the
   * role defaults to 'cashier', `isActive` is kept unless undefined, and
   * the other fields come from the user or ''.
   */
  function EditReset(user: Record): (r: Record)
    ensures r.Keys == InitialDefaults.Keys
    ensures r["password"] == Str("")
    ensures r["role"] == Or(Get(user, "role"), Str("cashier"))
    ensures r["isActive"] == DefinedOr(Get(user, "isActive"), Bool(true))
    ensures forall k :: k in {"username", "email", "firstName", "lastName"} ==> r[k] == Or(Get(user, k), Str(""))
  {
    Fill(user, InitialDefaults)["password" := Str("")]["isActive" := DefinedOr(Get(user, "isActive"), Bool(true))]
  }

  function ResetOnOpen(user: Option<Record>): (r: Record)
    ensures user.None? ==> r == InitialDefaults
    ensures user.Some? ==> r == EditReset(user.value)
    ensures r.Keys == InitialDefaults.Keys && r["password"] == Str("")
  {
    if user.Some? then EditReset(user.value) else NewUserReset
  }

  datatype Submission = UsernameMissing | EmailMissing | PasswordMissing | Accepted(payload: Record)

  /**
   * `onSubmit`, in its order: username, then e-mail, then (only when
   * creating) password; an edit without a password sends no password key,
   * and any other accepted form is sent as it is.
   */
  function Submit(data: Record, editing: bool): (s: Submission)
    ensures s == UsernameMissing <==> !Truthy(Get(data, "username"))
    ensures s == EmailMissing <==> Truthy(Get(data, "username")) && !Truthy(Get(data, "email"))
    ensures s == PasswordMissing <==>
      Truthy(Get(data, "username")) && Truthy(Get(data, "email")) && !editing && !Truthy(Get(data, "password"))
    ensures s.Accepted? && editing && !Truthy(Get(data, "password")) ==>
      s.payload.Keys == data.Keys - {"password"} && forall k :: k in s.payload ==> s.payload[k] == data[k]
    ensures s.Accepted? && Truthy(Get(data, "password")) ==> s.payload == data
  {
    if !Truthy(Get(data, "username")) then UsernameMissing
    else if !Truthy(Get(data, "email")) then EmailMissing
    else if !editing && !Truthy(Get(data, "password")) then PasswordMissing
    else if editing && !Truthy(Get(data, "password")) then Accepted(data - {"password"})
    else Accepted(data)
  }

  /** The form's rules: username and a well-formed e-mail required, a password given must have 6 characters. */
  predicate FormRulesOk(data: Record) {
    && RequiredOk(Get(data, "username"))
    && RequiredOk(Get(data, "email")) && EmailRuleOk(Get(data, "email"))
    && MinLengthOk(Get(data, "password"), 6)
  }

  /** A password of one to five characters fails the form's rule. */
  lemma ShortPasswordRejected(data: Record)
    requires Get(data, "password").Str? && 0 < |Get(data, "password").s| < 6
    ensures !FormRulesOk(data)
  {
  }

  /**
   * Opening a user for editing and saving without typing a password never
   * sends one, whatever the stored user held.
   */
  lemma EditWithoutPasswordSendsNone(user: Record)
    requires Truthy(Get(user, "username")) && Truthy(Get(user, "email"))
    ensures Submit(EditReset(user), true).Accepted?
    ensures !("password" in Submit(EditReset(user), true).payload)
  {
  }

  /**
   * With text fields, a form that passes its own rules reaches `onSubmit`'s
   * password check at the earliest: the username and e-mail checks never
   * fire, and the e-mail sent is well formed.
   */
  lemma FormRulesPassFirstChecks(data: Record, editing: bool)
    requires FormRulesOk(data) && Get(data, "username").Str? && Get(data, "email").Str?
    ensures Submit(data, editing) != UsernameMissing && Submit(data, editing) != EmailMissing
    ensures IsEmail(Get(data, "email").s)
  {
  }
}
