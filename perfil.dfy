/**
 * The tutor's profile screen of src/app/screens/perfil/perfil.component.ts:
 * a child's age, the two edit-mode switches, and saving the profile form.
 */
module Perfil {
  import opened Wrappers
  import opened Calendar

  /**
   * `calculateAge`: 0 for an empty date; otherwise whole years from the birth
   * date to today. A date that does not read as a calendar day gives no
   * number (None).
   */
  function CalculateAge(dateString: string, today: Date): (r: Option<int>)
    ensures dateString == "" ==> r == Some(0)
    ensures dateString != "" && ParseDate(dateString).None? ==> r.None?
    ensures dateString != "" && ParseDate(dateString).Some? ==>
      var b := ParseDate(dateString).value;
      && r.Some?
      && (r.value == today.year - b.year || r.value == today.year - b.year - 1)
      && (r.value == today.year - b.year - 1 <==>
            today.month < b.month || (today.month == b.month && today.day < b.day))
  {
    if dateString == "" then Some(0)
    else match ParseDate(dateString)
      case None => None
      case Some(b) => Some(AgeOn(b, today))
  }

  /** A child born on or before today is never given a negative age. */
  lemma CalculateAgeNonNegative(dateString: string, today: Date)
    requires ValidDate(today)
    requires dateString != "" && ParseDate(dateString).Some?
    requires DayNumber(ParseDate(dateString).value) <= DayNumber(today)
    ensures CalculateAge(dateString, today).value >= 0
  {
    AgeNonNegative(ParseDate(dateString).value, today);
  }

  datatype UserProfile = UserProfile(uid: string, email: string, nombre: string, apellidoP: string,
                                     apellidoM: string, telefono: string, rol: string)

  /** The values of the profile form. */
  datatype ProfileForm = ProfileForm(nombre: string, apellidoP: string, apellidoM: string, telefono: string)

  /** The form's validators: nombre required with at least two characters, apellidoP and telefono required. */
  predicate FormValid(f: ProfileForm) {
    f.nombre != "" && |f.nombre| >= 2 && f.apellidoP != "" && f.telefono != ""
  }

  /** `updateProfileForm`: the form shows the profile's values. */
  function FormOf(p: UserProfile): (f: ProfileForm)
    ensures f.nombre == p.nombre && f.apellidoP == p.apellidoP
    ensures f.apellidoM == p.apellidoM && f.telefono == p.telefono
  {
    ProfileForm(p.nombre, p.apellidoP, p.apellidoM, p.telefono)
  }

  /** `{ ...userProfile, ...updatedData }`: the form's values over the profile. */
  function Merge(p: UserProfile, f: ProfileForm): (r: UserProfile)
    ensures FormOf(r) == f
    ensures r.uid == p.uid && r.email == p.email && r.rol == p.rol
  {
    p.(nombre := f.nombre, apellidoP := f.apellidoP, apellidoM := f.apellidoM, telefono := f.telefono)
  }

  /** Merging what the form already shows changes nothing. */
  lemma MergeUnchangedForm(p: UserProfile)
    ensures Merge(p, FormOf(p)) == p
  {
  }

  /** The update sent to the user store: the user's id and the form values. */
  datatype ProfileUpdate = ProfileUpdate(uid: string, data: ProfileForm)

  class PerfilComponent {
    var currentUser: Option<string>
    var userProfile: Option<UserProfile>
    var profileForm: ProfileForm
    var editMode: bool
    var editChildrenMode: bool

    constructor(currentUser: Option<string>, userProfile: Option<UserProfile>)
      ensures this.currentUser == currentUser && this.userProfile == userProfile
      ensures !editMode && !editChildrenMode
      ensures userProfile.Some? ==> profileForm == FormOf(userProfile.value)
    {
      this.currentUser := currentUser;
      this.userProfile := userProfile;
      editMode, editChildrenMode := false, false;
      profileForm := ProfileForm("", "", "", "");
      if userProfile.Some? {
        profileForm := FormOf(userProfile.value);
      }
    }

    /** `updateProfileForm`: with a profile loaded, the form shows it. */
    method UpdateProfileForm()
      modifies this`profileForm
      ensures userProfile.Some? ==> profileForm == FormOf(userProfile.value)
      ensures userProfile.None? ==> profileForm == old(profileForm)
    {
      if userProfile.Some? {
        profileForm := FormOf(userProfile.value);
      }
    }

    /** `toggleEditMode`: flips edit mode; leaving it throws the edits away. */
    method ToggleEditMode()
      modifies this`editMode, this`profileForm
      ensures editMode == !old(editMode)
      ensures !editMode && userProfile.Some? ==> profileForm == FormOf(userProfile.value)
      ensures editMode || userProfile.None? ==> profileForm == old(profileForm)
    {
      editMode := !editMode;
      if !editMode {
        UpdateProfileForm();
      }
    }

    /** `toggleEditChildrenMode`: flips the children edit mode and nothing else. */
    method ToggleEditChildrenMode()
      modifies this`editChildrenMode
      ensures editChildrenMode == !old(editChildrenMode)
    {
      editChildrenMode := !editChildrenMode;
    }

    /**
     * `saveProfile`: an invalid form or no signed-in user sends nothing and
     * changes nothing. Otherwise the form values are sent; once the store
     * accepts them the local profile takes them and edit mode ends.
     */
    method SaveProfile(storeOk: bool) returns (sent: Option<ProfileUpdate>)
      modifies this`userProfile, this`editMode
      ensures !FormValid(profileForm) || currentUser.None? ==>
        sent.None? && userProfile == old(userProfile) && editMode == old(editMode)
      ensures FormValid(profileForm) && currentUser.Some? ==>
        sent == Some(ProfileUpdate(currentUser.value, profileForm))
      ensures sent.Some? && storeOk ==>
        && !editMode
        && userProfile == (if old(userProfile).Some? then Some(Merge(old(userProfile).value, profileForm)) else None)
      ensures sent.Some? && !storeOk ==> userProfile == old(userProfile) && editMode == old(editMode)
    {
      if !FormValid(profileForm) || currentUser.None? {
        return None;
      }
      sent := Some(ProfileUpdate(currentUser.value, profileForm));
      if storeOk {
        if userProfile.Some? {
          userProfile := Some(Merge(userProfile.value, profileForm));
        }
        editMode := false;
      }
    }
  }
}
