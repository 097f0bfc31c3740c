/** The profile edit dialog: its schema, the form's starting values, the
    picture chooser, and the write of the form to the user's document. */
module ProfileEdit {
  import opened Firestore
  import opened Records

  datatype ProfileForm = ProfileForm(userName: string, bio: string, profilePicture: string)

  /** `profileSchema`: a user name of at least 3 characters, a bio of at most
      200, any picture string (including none). */
  predicate ValidProfileForm(f: ProfileForm) {
    |f.userName| >= 3 && |f.bio| <= MaxBio
  }

  /** `defaultValues`: each field from the profile, `''` when it is missing. */
  function FormDefaults(p: UserProfile): ProfileForm {
    ProfileForm(p.userName.GetOr(""), p.bio.GetOr(""), p.profilePicture.GetOr(""))
  }

  /** The preview starts as the stored picture, or none when it is missing or empty. */
  function InitialPreview(p: UserProfile): Option<string> {
    if p.profilePicture.GetOr("") == "" then None else p.profilePicture
  }

  /** The user document after `updateDoc(users/uid, data)`: the three form
      fields replace the stored ones, everything else stays. */
  function WithProfileForm(u: UserProfile, f: ProfileForm): (r: UserProfile)
    ensures r.id == u.id && r.petIds == u.petIds && r.onboardingCompleted == u.onboardingCompleted
    ensures FormDefaults(r) == f
  {
    u.(userName := Some(f.userName), bio := Some(f.bio), profilePicture := Some(f.profilePicture))
  }

  /** Saving the untouched form rewrites a complete profile unchanged, and
      only turns missing fields into empty ones. */
  lemma SaveUntouchedForm(u: UserProfile)
    ensures FormDefaults(WithProfileForm(u, FormDefaults(u))) == FormDefaults(u)
    ensures u.userName.Some? && u.bio.Some? && u.profilePicture.Some? ==> WithProfileForm(u, FormDefaults(u)) == u
    ensures u.userName.None? ==> WithProfileForm(u, FormDefaults(u)).userName == Some("")
  {
  }

  datatype SaveOutcome = Rejected | NotSignedIn | ProfileUpdated

  /** The dialog's state: the form and the avatar preview. */
  class ProfileEditor {
    var form: ProfileForm
    var preview: Option<string>

    constructor (p: UserProfile)
      ensures form == FormDefaults(p) && preview == InitialPreview(p)
    {
      form := FormDefaults(p);
      preview := InitialPreview(p);
    }

    /** `handleFileChange`: the chosen file's data URI becomes both the
        preview and the `profilePicture` field; nothing else changes. */
    method ChooseFile(dataUri: string)
      modifies this
      ensures preview == Some(dataUri) && Some(form.profilePicture) == preview
      ensures form == old(form).(profilePicture := dataUri)
    {
      preview := Some(dataUri);
      form := form.(profilePicture := dataUri);
    }

    /** `form.handleSubmit(onSubmit)`: a rejected form or a missing user
        writes nothing; otherwise only `users/{uid}` changes, and an update of
        a missing document writes nothing. */
    method Submit(db: Db, user: Option<Id>) returns (outcome: SaveOutcome)
      requires db.Valid()
      modifies db
      ensures db.Valid() && db.pets == old(db.pets)
      ensures !ValidProfileForm(form) ==> outcome == Rejected && db.users == old(db.users)
      ensures ValidProfileForm(form) && user.None? ==> outcome == NotSignedIn && db.users == old(db.users)
      ensures ValidProfileForm(form) && user.Some? ==>
        && outcome == ProfileUpdated
        && db.users == if user.value in old(db.users)
                       then old(db.users)[user.value := WithProfileForm(old(db.users)[user.value], form)]
                       else old(db.users)
    {
      if !ValidProfileForm(form) {
        return Rejected;
      }
      if user.None? {
        return NotSignedIn;
      }
      var uid := user.value;
      if uid in db.users {
        db.users := db.users[uid := WithProfileForm(db.users[uid], form)];
      }
      outcome := ProfileUpdated;
    }
  }
}
