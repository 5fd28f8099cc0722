/** The change-password form of frontend/app/profile/edit-password/page.tsx.
    The `changePassword` call is an oracle: it succeeded, or it threw with an
    error whose `message` may be missing or empty. */
module EditPassword {
  import opened Common

  const FillAllFields: string := "Please fill all fields."
  const ConfirmationDiffers: string := "New password and confirmation do not match."
  const PasswordChanged: string := "Password changed successfully."
  const ChangeFailed: string := "Failed to change password"

  datatype ChangeOutcome = Changed | ChangeThrew(message: Option<string>)

  /** The error the submit shows before any call: an empty field first, then a
      mismatch; `None` when the call is made. */
  function PreCheck(current: string, newPassword: string, confirm: string): (e: Option<string>)
    ensures e == Some(FillAllFields) <==> current == "" || newPassword == "" || confirm == ""
    ensures e == Some(ConfirmationDiffers) <==>
      current != "" && newPassword != "" && confirm != "" && newPassword != confirm
    ensures e.None? <==> current != "" && newPassword != "" && newPassword == confirm
  {
    if current == "" || newPassword == "" || confirm == "" then Some(FillAllFields)
    else if newPassword != confirm then Some(ConfirmationDiffers)
    else None
  }

  class EditPasswordPage {
    var currentPassword: string
    var newPassword: string
    var confirmPassword: string
    var loading: bool
    var error: Option<string>
    var success: Option<string>

    constructor ()
      ensures currentPassword == "" && newPassword == "" && confirmPassword == ""
      ensures !loading && error == None && success == None
    {
      currentPassword, newPassword, confirmPassword := "", "", "";
      loading := false;
      error, success := None, None;
    }

    /** The three inputs' `onChange`. */
    method SetFields(current: string, newValue: string, confirm: string)
      modifies this
      ensures currentPassword == current && newPassword == newValue && confirmPassword == confirm
      ensures loading == old(loading) && error == old(error) && success == old(success)
    {
      currentPassword, newPassword, confirmPassword := current, newValue, confirm;
    }

    /** `handleSubmit`. `called` reports whether `changePassword` was called. */
    method HandleSubmit(outcome: ChangeOutcome) returns (called: bool)
      modifies this
      ensures var pre := PreCheck(old(currentPassword), old(newPassword), old(confirmPassword));
        called <==> pre.None?
      ensures !called ==> error == PreCheck(old(currentPassword), old(newPassword), old(confirmPassword))
      ensures !called ==> success == None && loading == old(loading)
      ensures !called ==>
        currentPassword == old(currentPassword) && newPassword == old(newPassword) && confirmPassword == old(confirmPassword)
      ensures called ==> !loading
      ensures called && outcome.Changed? ==> success == Some(PasswordChanged) && error == None
      ensures called && outcome.Changed? ==> currentPassword == "" && newPassword == "" && confirmPassword == ""
      ensures called && outcome.ChangeThrew? ==> success == None
      ensures called && outcome.ChangeThrew? ==>
        error == Some(if outcome.message.Some? && outcome.message.value != "" then outcome.message.value else ChangeFailed)
      ensures called && outcome.ChangeThrew? ==>
        currentPassword == old(currentPassword) && newPassword == old(newPassword) && confirmPassword == old(confirmPassword)
    {
      error := None;
      success := None;
      if currentPassword == "" || newPassword == "" || confirmPassword == "" {
        error := Some(FillAllFields);
        return false;
      }
      if newPassword != confirmPassword {
        error := Some(ConfirmationDiffers);
        return false;
      }
      loading := true;
      match outcome {
        case Changed =>
          success := Some(PasswordChanged);
          currentPassword := "";
          newPassword := "";
          confirmPassword := "";
        case ChangeThrew(message) =>
          error := Some(if message.Some? && message.value != "" then message.value else ChangeFailed);
      }
      loading := false;
      return true;
    }
  }

  /** After a successful change the form is empty, so submitting again asks
      for the fields without calling. */
  method SubmitTwice(page: EditPasswordPage)
    returns (first: bool, second: bool)
    modifies page
    requires PreCheck(page.currentPassword, page.newPassword, page.confirmPassword).None?
    ensures first && !second && page.error == Some(FillAllFields)
  {
    first := page.HandleSubmit(Changed);
    second := page.HandleSubmit(Changed);
  }
}
