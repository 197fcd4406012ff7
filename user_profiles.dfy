/**
 * The account page: a profile drawer whose save only checks the form and
 * closes, and a change-password drawer whose checks run in a fixed order.
 * Neither reaches a server; the shown user never changes.
 */
module UserProfiles {
  import opened Text

  datatype ProfileForm = ProfileForm(name: string, email: string, phone: string, businessName: string, address: string)

  datatype PasswordForm = PasswordForm(currentPassword: string, newPassword: string, confirmPassword: string)

  /** Which of the three password inputs show their text. */
  datatype Visibility = Visibility(current: bool, newPassword: bool, confirm: bool)

  const EmptyPasswordForm: PasswordForm := PasswordForm("", "", "")
  const AllHidden: Visibility := Visibility(false, false, false)
  const MinPasswordLength := 8

  /** The outcome of `handleChangePassword`'s checks. */
  datatype PasswordVerdict = MissingField | Mismatch | TooShort | PasswordAccepted

  /**
   * The checks in order: an empty field first, then the new password against
   * its confirmation, then the length of the new password.
   */
  function CheckPassword(f: PasswordForm): (v: PasswordVerdict)
    ensures v == MissingField <==> f.currentPassword == "" || f.newPassword == "" || f.confirmPassword == ""
    ensures v == Mismatch <==>
      f.currentPassword != "" && f.newPassword != "" && f.confirmPassword != "" && f.newPassword != f.confirmPassword
    ensures v == TooShort <==>
      f.currentPassword != "" && f.newPassword != "" && f.confirmPassword != "" && f.newPassword == f.confirmPassword &&
      |f.newPassword| < MinPasswordLength
  {
    if f.currentPassword == "" || f.newPassword == "" || f.confirmPassword == "" then MissingField
    else if f.newPassword != f.confirmPassword then Mismatch
    else if |f.newPassword| < MinPasswordLength then TooShort
    else PasswordAccepted
  }

  /** A change is accepted exactly when every field is filled, the two new ones agree and it has at least 8 characters. */
  lemma PasswordAcceptedIff(f: PasswordForm)
    ensures CheckPassword(f) == PasswordAccepted <==>
      f.currentPassword != "" && f.newPassword != "" && f.confirmPassword != "" &&
      f.newPassword == f.confirmPassword && |f.newPassword| >= MinPasswordLength
  {
  }

  /** The empty-field check comes first: a blank field is reported even when the other checks fail too. */
  lemma MissingFieldWins(f: PasswordForm)
    requires f.currentPassword == ""
    ensures CheckPassword(f) == MissingField
  {
  }

  /** `handleSaveProfile`'s check: the trimmed name, email and phone must be non-empty. */
  function ProfileComplete(f: ProfileForm): (ok: bool)
    ensures ok <==> !IsBlank(f.name) && !IsBlank(f.email) && !IsBlank(f.phone)
  {
    TrimFacts(f.name);
    TrimFacts(f.email);
    TrimFacts(f.phone);
    Trim(f.name) != "" && Trim(f.email) != "" && Trim(f.phone) != ""
  }

  class Page {
    var profileForm: ProfileForm
    var passwordForm: PasswordForm
    var showPassword: Visibility
    var editProfileOpen: bool
    var changePasswordOpen: bool
    var saveProfileLoading: bool
    var changePasswordLoading: bool

    /** The page as it mounts, its profile form filled from the user shown. */
    constructor (user: ProfileForm)
      ensures profileForm == user && passwordForm == EmptyPasswordForm && showPassword == AllHidden
      ensures !editProfileOpen && !changePasswordOpen && !saveProfileLoading && !changePasswordLoading
    {
      profileForm := user;
      passwordForm := EmptyPasswordForm;
      showPassword := AllHidden;
      editProfileOpen := false;
      changePasswordOpen := false;
      saveProfileLoading := false;
      changePasswordLoading := false;
    }

    /** `openChangePassword`: three empty fields, all hidden, and the drawer open. */
    method OpenChangePassword()
      modifies this
      ensures passwordForm == EmptyPasswordForm && showPassword == AllHidden && changePasswordOpen
      ensures CheckPassword(passwordForm) == MissingField
      ensures profileForm == old(profileForm) && editProfileOpen == old(editProfileOpen)
      ensures saveProfileLoading == old(saveProfileLoading) && changePasswordLoading == old(changePasswordLoading)
    {
      passwordForm := EmptyPasswordForm;
      showPassword := AllHidden;
      changePasswordOpen := true;
    }

    /** `handleSaveProfile` once its delay is over: a complete form closes the drawer, an incomplete one changes nothing. */
    method HandleSaveProfile() returns (saved: bool)
      modifies this
      ensures saved == ProfileComplete(old(profileForm))
      ensures editProfileOpen == (old(editProfileOpen) && !saved)
      ensures saveProfileLoading == (old(saveProfileLoading) && !saved)
      ensures profileForm == old(profileForm) && passwordForm == old(passwordForm)
      ensures changePasswordOpen == old(changePasswordOpen) && showPassword == old(showPassword)
      ensures changePasswordLoading == old(changePasswordLoading)
    {
      saved := ProfileComplete(profileForm);
      if !saved {
        return;
      }
      saveProfileLoading := true;
      editProfileOpen := false;
      saveProfileLoading := false;
    }

    /** `handleChangePassword` once its delay is over: an accepted change closes the drawer, a refused one changes nothing. */
    method HandleChangePassword() returns (v: PasswordVerdict)
      modifies this
      ensures v == CheckPassword(old(passwordForm))
      ensures changePasswordOpen == (old(changePasswordOpen) && v != PasswordAccepted)
      ensures changePasswordLoading == (old(changePasswordLoading) && v != PasswordAccepted)
      ensures passwordForm == old(passwordForm) && profileForm == old(profileForm)
      ensures editProfileOpen == old(editProfileOpen) && showPassword == old(showPassword)
      ensures saveProfileLoading == old(saveProfileLoading)
    {
      v := CheckPassword(passwordForm);
      if v != PasswordAccepted {
        return;
      }
      changePasswordLoading := true;
      changePasswordOpen := false;
      changePasswordLoading := false;
    }
  }
}
