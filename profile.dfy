/**
 * The citizen profile page: the profile record, an edit buffer that Save copies back and Cancel
 * abandons, and the password-change form with its one guard.
 */
module Profile {

  /** The keys of the profile record. */
  datatype ProfileField =
    | FirstName | LastName | Email | Phone | Address | City | State | Pincode
    | AccountCreated | TotalComplaints | ResolvedComplaints

  /** A profile value: the record holds strings and two counts. */
  datatype FieldValue = Str(text: string) | Num(count: int)

  /** The three boxes of the password form. */
  datatype PasswordData = PasswordData(currentPassword: string, newPassword: string, confirmPassword: string)

  /**
   * The guard of `handlePasswordChange`: all three boxes are filled and the new password is
   * typed the same twice. There is no length rule and the current password is not checked.
   */
  predicate PasswordChangeAllowed(p: PasswordData) {
    p.currentPassword != "" && p.newPassword != "" && p.confirmPassword != "" && p.newPassword == p.confirmPassword
  }

  /** A one-character new password is accepted, and a mismatch is refused whatever else is filled. */
  lemma PasswordGuardExamples(current: string, typed: string, retyped: string)
    requires current != "" && typed != "" && retyped != ""
    ensures PasswordChangeAllowed(PasswordData(current, typed, retyped)) <==> typed == retyped
    ensures PasswordChangeAllowed(PasswordData(current, "x", "x"))
  {
  }

  class ProfilePage {
    var profile: map<ProfileField, FieldValue>
    var editData: map<ProfileField, FieldValue>
    var isEditing: bool
    var showPasswordChange: bool
    var passwordData: PasswordData

    constructor()
      ensures profile == editData && forall f: ProfileField :: f in profile
      ensures profile[TotalComplaints] == Num(12) && profile[ResolvedComplaints] == Num(10)
      ensures !isEditing && !showPasswordChange && passwordData == PasswordData("", "", "")
    {
      var initial := map[
        FirstName := Str("John"), LastName := Str("Doe"), Email := Str("john.doe@example.com"),
        Phone := Str("+91-9876543210"), Address := Str("123 Main Street"), City := Str("New Delhi"),
        State := Str("Delhi"), Pincode := Str("110001"), AccountCreated := Str("2024-01-15"),
        TotalComplaints := Num(12), ResolvedComplaints := Num(10)];
      forall f: ProfileField ensures f in initial {
        match f
        case FirstName =>
        case LastName =>
        case Email =>
        case Phone =>
        case Address =>
        case City =>
        case State =>
        case Pincode =>
        case AccountCreated =>
        case TotalComplaints =>
        case ResolvedComplaints =>
      }
      profile := initial;
      editData := initial;
      isEditing := false;
      showPasswordChange := false;
      passwordData := PasswordData("", "", "");
    }

    /** The Edit button: enter edit mode with a fresh copy of the profile. */
    method StartEdit()
      modifies this`isEditing, this`editData
      ensures isEditing && editData == profile
    {
      isEditing := true;
      editData := profile;
    }

    /** `handleEditChange`: only the named field of the buffer changes; the profile does not. */
    method HandleEditChange(field: ProfileField, value: string)
      modifies this`editData
      ensures editData == old(editData)[field := Str(value)]
    {
      editData := editData[field := Str(value)];
    }

    /** `handleSaveProfile`: the buffer becomes the profile and edit mode ends. */
    method SaveProfile()
      modifies this`profile, this`isEditing
      ensures profile == editData && !isEditing
    {
      profile := editData;
      isEditing := false;
    }

    /** The Cancel button: edit mode ends and the profile is untouched. */
    method CancelEdit()
      modifies this`isEditing
      ensures !isEditing
    {
      isEditing := false;
    }

    /** The Change Password button and the form's Cancel button. */
    method SetShowPasswordChange(show: bool)
      modifies this`showPasswordChange
      ensures showPasswordChange == show
    {
      showPasswordChange := show;
    }

    /** Typing in one of the password boxes. */
    method SetPasswordData(p: PasswordData)
      modifies this`passwordData
      ensures passwordData == p
    {
      passwordData := p;
    }

    /**
     * `handlePasswordChange`: when the guard holds, clear the three boxes and hide the form;
     * otherwise nothing changes and no error is shown.
     */
    method HandlePasswordChange()
      modifies this`passwordData, this`showPasswordChange
      ensures PasswordChangeAllowed(old(passwordData)) ==>
        passwordData == PasswordData("", "", "") && !showPasswordChange
      ensures !PasswordChangeAllowed(old(passwordData)) ==>
        passwordData == old(passwordData) && showPasswordChange == old(showPasswordChange)
    {
      if passwordData.currentPassword != "" && passwordData.newPassword != "" && passwordData.confirmPassword != ""
         && passwordData.newPassword == passwordData.confirmPassword
      {
        passwordData := PasswordData("", "", "");
        showPasswordChange := false;
      }
    }
  }
}
