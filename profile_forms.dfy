/**
 * The profile page's two forms: the profile details (full name, e-mail)
 * and the password change, with the body the password form sends.
 */
module ProfileForms {
  import opened Wrappers

  datatype ProfileField = ProfileFullName | ProfileEmail

  /** The values of the profile form; the e-mail field may be absent. */
  datatype ProfileForm = ProfileForm(fullName: string, email: Option<string>)

  /**
   * `profileSchema`: a non-empty full name, and an e-mail that is absent,
   * empty, or accepted by the e-mail check (`isEmail`, not modelled here).
   */
  function ProfileIssues(form: ProfileForm, isEmail: string -> bool): (issues: set<ProfileField>)
    ensures ProfileFullName in issues <==> form.fullName == ""
    ensures ProfileEmail in issues <==> form.email.Some? && form.email.value != "" && !isEmail(form.email.value)
  {
    (if form.fullName == "" then {ProfileFullName} else {})
      + (if form.email.None? || form.email.value == "" || isEmail(form.email.value) then {} else {ProfileEmail})
  }

  /** Leaving the e-mail out, or empty, never blocks the form, whatever the e-mail check says. */
  lemma EmptyEmailAccepted(fullName: string, isEmail: string -> bool)
    ensures ProfileEmail !in ProfileIssues(ProfileForm(fullName, None), isEmail)
    ensures ProfileEmail !in ProfileIssues(ProfileForm(fullName, Some("")), isEmail)
  {
  }

  datatype PasswordField = CurrentPassword | NewPassword | ConfirmNewPassword

  datatype PasswordRule = Required | TooShort | Mismatch

  /** The values of the password form. */
  datatype PasswordForm = PasswordForm(currentPassword: string, newPassword: string, confirmPassword: string)

  /**
   * `passwordSchema`: the current password non-empty, the new one at least 8
   * characters, the confirmation non-empty and equal to the new password
   * (reported on the confirmation field).
   */
  function PasswordFormIssues(form: PasswordForm): (issues: set<(PasswordField, PasswordRule)>)
    ensures (CurrentPassword, Required) in issues <==> form.currentPassword == ""
    ensures (NewPassword, TooShort) in issues <==> |form.newPassword| < 8
    ensures (ConfirmNewPassword, Required) in issues <==> form.confirmPassword == ""
    ensures (ConfirmNewPassword, Mismatch) in issues <==> form.newPassword != form.confirmPassword
    ensures issues == {} <==>
      form.currentPassword != "" && |form.newPassword| >= 8 && form.confirmPassword == form.newPassword
  {
    (if form.currentPassword == "" then {(CurrentPassword, Required)} else {})
      + (if |form.newPassword| < 8 then {(NewPassword, TooShort)} else {})
      + (if form.confirmPassword == "" then {(ConfirmNewPassword, Required)} else {})
      + (if form.newPassword == form.confirmPassword then {} else {(ConfirmNewPassword, Mismatch)})
  }

  /** The password-change request body: the current and the new password only. */
  datatype PasswordChangeRequest = PasswordChangeRequest(currentPassword: string, newPassword: string)

  /** What the password form sends: nothing while an issue remains, else the two passwords. */
  function SubmitPassword(form: PasswordForm): (r: Option<PasswordChangeRequest>)
    ensures r.Some? <==> PasswordFormIssues(form) == {}
    ensures r.Some? ==> r.value.currentPassword == form.currentPassword && r.value.newPassword == form.newPassword
  {
    if PasswordFormIssues(form) == {} then
      Some(PasswordChangeRequest(form.currentPassword, form.newPassword))
    else None
  }

  /** A sent request carries a new password of at least 8 characters that the user typed twice. */
  lemma SentPasswordConfirmed(form: PasswordForm)
    requires SubmitPassword(form).Some?
    ensures |SubmitPassword(form).value.newPassword| >= 8
    ensures SubmitPassword(form).value.newPassword == form.confirmPassword
  {
  }
}
