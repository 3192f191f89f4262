/**
 * The admin's password form (components/admin/admin-profile-tab.tsx): the same two
 * checks as sign-up, then a password update; the three fields are cleared only after
 * a successful update.
 */
module AdminProfile {
  import opened Text
  import Register

  datatype ChangeOutcome = Rejected(check: Register.PasswordCheck) | UpdateFailed(message: string) | Changed

  /**
   * The outcome for the typed new password and its confirmation; `updateError` is the
   * update call's error message (`None` when it succeeded). The current password plays no part.
   */
  function Outcome(newPassword: string, confirm: string, updateError: Option<Option<string>>): (r: ChangeOutcome)
    ensures r.Rejected? <==> Register.CheckPasswords(newPassword, confirm) != Register.PasswordOk
    ensures r.Rejected? ==> r.check == Register.CheckPasswords(newPassword, confirm)
    ensures r == Changed <==> Register.CheckPasswords(newPassword, confirm) == Register.PasswordOk && updateError.None?
  {
    var check := Register.CheckPasswords(newPassword, confirm);
    if check != Register.PasswordOk then Rejected(check)
    else if updateError.Some? then
      UpdateFailed(if Filled(updateError.value) then updateError.value.value else "No se pudo actualizar la contraseña")
    else Changed
  }

  class ProfileTab {
    var currentPassword: string
    var newPassword: string
    var confirmPassword: string
    var isLoading: bool

    constructor()
      ensures currentPassword == "" && newPassword == "" && confirmPassword == "" && !isLoading
    {
      currentPassword, newPassword, confirmPassword := "", "", "";
      isLoading := false;
    }

    /**
     * `handlePasswordChange`. `sent` is the password passed to the update call, if it was
     * called: always the new password, never the current one.
     */
    method HandlePasswordChange(updateError: Option<Option<string>>) returns (r: ChangeOutcome, sent: Option<string>)
      modifies this
      ensures r == Outcome(old(newPassword), old(confirmPassword), updateError)
      ensures sent.Some? <==> !r.Rejected?
      ensures sent.Some? ==> sent.value == old(newPassword)
      ensures r == Changed ==> currentPassword == "" && newPassword == "" && confirmPassword == ""
      ensures r != Changed ==>
                currentPassword == old(currentPassword) && newPassword == old(newPassword)
                && confirmPassword == old(confirmPassword)
      ensures r.Rejected? ==> isLoading == old(isLoading)
      ensures !r.Rejected? ==> !isLoading
    {
      var check := Register.CheckPasswords(newPassword, confirmPassword);
      if check != Register.PasswordOk {
        return Rejected(check), None;
      }
      isLoading := true;
      sent := Some(newPassword);
      if updateError.Some? {
        r := UpdateFailed(if Filled(updateError.value) then updateError.value.value else "No se pudo actualizar la contraseña");
      } else {
        r := Changed;
        currentPassword, newPassword, confirmPassword := "", "", "";
      }
      isLoading := false;
    }
  }

  /** A successful change leaves a form the same checks would reject: the cleared password is too short. */
  lemma ClearedFormRejected()
    ensures Outcome("", "", None) == Rejected(Register.TooShort)
  {
  }
}
