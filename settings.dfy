/** The change-password form of the admin settings page,
    `app/admin_panel/settings/page.tsx`. The page's state hooks are the fields
    of `PasswordForm`; `changePassword` belongs to a module outside this model
    and is a parameter of the submit handler. */
module Settings {
  import opened Common

  const AllFieldsRequired := "All fields are required"
  const TooShort := "New password must be at least 6 characters"
  const Mismatch := "New passwords do not match"
  const WrongCurrent := "Current password is incorrect"
  const Changed := "Password changed successfully"

  const MinLength := 6

  /** The first check the three inputs fail, in the order the form applies them,
      or `None` when all pass and `changePassword` is called. */
  function PasswordCheck(currentPassword: string, newPassword: string, confirmPassword: string): (r: Option<string>)
    ensures r.None? <==> currentPassword != "" && newPassword != "" && confirmPassword != "" && |newPassword| >= MinLength && newPassword == confirmPassword
    ensures r.Some? ==> r.value in {AllFieldsRequired, TooShort, Mismatch}
  {
    if currentPassword == "" || newPassword == "" || confirmPassword == "" then Some(AllFieldsRequired)
    else if |newPassword| < MinLength then Some(TooShort)
    else if newPassword != confirmPassword then Some(Mismatch)
    else None
  }

  /** An empty field is reported before anything else. */
  lemma EmptyFieldFirst(currentPassword: string, newPassword: string, confirmPassword: string)
    requires currentPassword == "" || newPassword == "" || confirmPassword == ""
    ensures PasswordCheck(currentPassword, newPassword, confirmPassword) == Some(AllFieldsRequired)
  {
  }

  /** A short new password is reported before a mismatch. */
  lemma LengthBeforeMismatch(currentPassword: string, newPassword: string, confirmPassword: string)
    requires currentPassword != "" && newPassword != "" && confirmPassword != "" && |newPassword| < MinLength
    ensures PasswordCheck(currentPassword, newPassword, confirmPassword) == Some(TooShort)
  {
  }

  lemma MismatchLast(currentPassword: string, newPassword: string, confirmPassword: string)
    requires currentPassword != "" && confirmPassword != "" && |newPassword| >= MinLength && newPassword != confirmPassword
    ensures PasswordCheck(currentPassword, newPassword, confirmPassword) == Some(Mismatch)
  {
  }

  class PasswordForm {
    var currentPassword: string
    var newPassword: string
    var confirmPassword: string
    var passwordError: string
    var passwordSuccess: string

    constructor ()
      ensures currentPassword == "" && newPassword == "" && confirmPassword == ""
      ensures passwordError == "" && passwordSuccess == ""
    {
      currentPassword, newPassword, confirmPassword := "", "", "";
      passwordError, passwordSuccess := "", "";
    }

    /** At most one of the two messages is shown. */
    predicate OneMessage()
      reads this
    {
      passwordError == "" || passwordSuccess == ""
    }

    /** `handlePasswordChange`: returns whether `changePassword` was called. */
    method HandlePasswordChange(changePassword: (string, string) -> bool) returns (called: bool)
      modifies this
      ensures called <==> PasswordCheck(old(currentPassword), old(newPassword), old(confirmPassword)).None?
      ensures !called ==>
                passwordError == PasswordCheck(old(currentPassword), old(newPassword), old(confirmPassword)).value &&
                passwordSuccess == ""
      ensures called && changePassword(old(currentPassword), old(newPassword)) ==>
                passwordSuccess == Changed && passwordError == "" &&
                currentPassword == "" && newPassword == "" && confirmPassword == ""
      ensures called && !changePassword(old(currentPassword), old(newPassword)) ==>
                passwordError == WrongCurrent && passwordSuccess == ""
      ensures !(called && changePassword(old(currentPassword), old(newPassword))) ==>
                currentPassword == old(currentPassword) && newPassword == old(newPassword) &&
                confirmPassword == old(confirmPassword)
      ensures OneMessage()
    {
      passwordError := "";
      passwordSuccess := "";
      called := false;

      if currentPassword == "" || newPassword == "" || confirmPassword == "" {
        passwordError := AllFieldsRequired;
        return;
      }

      if |newPassword| < MinLength {
        passwordError := TooShort;
        return;
      }

      if newPassword != confirmPassword {
        passwordError := Mismatch;
        return;
      }

      called := true;
      var success := changePassword(currentPassword, newPassword);
      if success {
        passwordSuccess := Changed;
        currentPassword := "";
        newPassword := "";
        confirmPassword := "";
      } else {
        passwordError := WrongCurrent;
      }
    }
  }
}
