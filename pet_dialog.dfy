/** The add/edit pet dialog: its form schema, the breed pre-fill from the
    photo identifier, and the submission that either updates the edited pet
    or creates a new pet and links it to its owner. */
module PetDialog {
  import opened Firestore
  import opened Records

  /** The form values; `imageUrl` may be absent. */
  datatype PetForm = PetForm(name: string, breed: string, age: string, bio: string, imageUrl: Option<string>)

  /** `defaultValues` when adding: every field the empty string. */
  const BlankPetForm := PetForm("", "", "", "", Some(""))

  /** The form values of an existing pet (`defaultValues: pet`). */
  function FormOf(p: Pet): PetForm {
    PetForm(p.name, p.breed, p.age, p.bio, p.imageUrl)
  }

  predicate IsSchemeChar(c: char) {
    ('a' <= c <= 'z') || ('A' <= c <= 'Z') || ('0' <= c <= '9') || c == '+' || c == '-' || c == '.'
  }

  /** `z.string().url()`, reduced to what a URL parser needs first: a scheme
      (a letter, then letters, digits, '+', '-' or '.') followed by ':'. In
      particular the empty string is not a URL. */
  predicate IsUrl(s: string) {
    exists k | 1 <= k < |s| ::
      s[k] == ':' && (('a' <= s[0] <= 'z') || ('A' <= s[0] <= 'Z')) && forall j | 0 <= j < k :: IsSchemeChar(s[j])
  }

  /** `petSchema` as written: name, breed and age required, a bio of at most
      200 characters, and an `imageUrl` that is a URL whenever it is present
      at all. */
  predicate ValidPetFormAsWritten(f: PetForm) {
    && |f.name| >= 1 && |f.breed| >= 1 && |f.age| >= 1 && |f.bio| <= MaxBio
    && (f.imageUrl.Some? ==> IsUrl(f.imageUrl.value))
  }

  /** As written, an add form is never accepted: its `imageUrl` starts as the
      empty string, the dialog has no input that changes it, and the empty
      string is present but not a URL. */
  lemma AddFormRejectedAsWritten(name: string, breed: string, age: string, bio: string)
    ensures !ValidPetFormAsWritten(BlankPetForm.(name := name, breed := breed, age := age, bio := bio))
  {
    assert !IsUrl("");
  }

  /** The schema as intended: an empty `imageUrl` counts as absent. */
  predicate ValidPetForm(f: PetForm) {
    && |f.name| >= 1 && |f.breed| >= 1 && |f.age| >= 1 && |f.bio| <= MaxBio
    && (f.imageUrl.Some? && f.imageUrl.value != "" ==> IsUrl(f.imageUrl.value))
  }

  /** The intended schema accepts a filled-in add form, and agrees with the
      written one on every form whose `imageUrl` is not the empty string. */
  lemma IntendedSchema(f: PetForm)
    ensures f.imageUrl == Some("") ==> (ValidPetForm(f) <==> |f.name| >= 1 && |f.breed| >= 1 && |f.age| >= 1 && |f.bio| <= MaxBio)
    ensures f.imageUrl != Some("") ==> (ValidPetForm(f) <==> ValidPetFormAsWritten(f))
  {
  }

  // ---------------------------------------------------------------------------
  // Breed pre-fill
  // ---------------------------------------------------------------------------

  /** What identifying the chosen photo yields: a guess, or a failure (the
      file could not be read or the identifier threw). */
  datatype Identification = Identified(identifiedBreed: string, confidence: real) | IdentificationFailed

  /** `handleFileChange`: the breed field takes the identified breed when it
      is non-empty; otherwise the form is left alone. */
  function PrefillBreed(f: PetForm, result: Identification): (r: PetForm)
    ensures r == f.(breed := r.breed)
    ensures result.Identified? && result.identifiedBreed != "" ==> r.breed == result.identifiedBreed
    ensures !(result.Identified? && result.identifiedBreed != "") ==> r == f
  {
    if result.Identified? && result.identifiedBreed != "" then f.(breed := result.identifiedBreed) else f
  }

  /** A pre-fill never turns an acceptable form into a rejected one, and a
      successful one supplies the breed the schema requires. */
  lemma PrefillKeepsFormValid(f: PetForm, result: Identification)
    ensures ValidPetForm(f) ==> ValidPetForm(PrefillBreed(f, result))
    ensures result.Identified? && result.identifiedBreed != "" ==> |PrefillBreed(f, result).breed| >= 1
  {
  }

  // ---------------------------------------------------------------------------
  // Submission
  // ---------------------------------------------------------------------------

  /** The pets collection after `updateDoc(pets/id, data)`: the form's fields
      replace the pet's, its id and owner stay; a missing document is not
      created. */
  function UpdatedPets(pets: map<Id, Pet>, id: Id, f: PetForm): (r: map<Id, Pet>)
    ensures r.Keys == pets.Keys
    ensures forall k :: k in pets && k != id ==> r[k] == pets[k]
    ensures id in pets ==> r[id].id == pets[id].id && r[id].ownerId == pets[id].ownerId && FormOf(r[id]) == f
  {
    if id in pets then
      pets[id := pets[id].(name := f.name, breed := f.breed, age := f.age, bio := f.bio, imageUrl := f.imageUrl)]
    else pets
  }

  /** The pet document `{ ...data, id, ownerId }` for a new pet. */
  function NewPet(id: Id, uid: Id, f: PetForm): (p: Pet)
    ensures p.id == id && p.ownerId == uid && FormOf(p) == f
  {
    Pet(id, uid, f.name, f.breed, f.age, f.bio, f.imageUrl)
  }

  /** The users collection after `updateDoc(users/uid, { petIds: arrayUnion(id) })`. */
  function LinkedUsers(users: map<Id, UserProfile>, uid: Id, petId: Id): (r: map<Id, UserProfile>)
    ensures r.Keys == users.Keys
    ensures forall k :: k in users && k != uid ==> r[k] == users[k]
    ensures uid in users ==> r[uid] == users[uid].(petIds := r[uid].petIds)
    ensures uid in users ==> petId in r[uid].petIds
    ensures uid in users ==> forall v :: v != petId ==> multiset(r[uid].petIds)[v] == multiset(users[uid].petIds)[v]
  {
    if uid in users then users[uid := users[uid].(petIds := ArrayUnion(users[uid].petIds, petId))] else users
  }

  /** Linking keeps the owner's `petIds` free of duplicates, and linking the
      same pet again changes nothing. */
  lemma LinkIsSetUnion(users: map<Id, UserProfile>, uid: Id, petId: Id)
    requires uid in users
    ensures Distinct(users[uid].petIds) ==> Distinct(LinkedUsers(users, uid, petId)[uid].petIds)
    ensures LinkedUsers(LinkedUsers(users, uid, petId), uid, petId) == LinkedUsers(users, uid, petId)
  {
    if Distinct(users[uid].petIds) {
      TransformsKeepDistinct(users[uid].petIds, petId);
    }
    LinkTwice(users, uid, petId);
  }

  lemma LinkTwice(users: map<Id, UserProfile>, uid: Id, petId: Id)
    requires uid in users
    ensures LinkedUsers(LinkedUsers(users, uid, petId), uid, petId) == LinkedUsers(users, uid, petId)
  {
    var once := LinkedUsers(users, uid, petId);
    var u := once[uid];
    assert ArrayUnion(u.petIds, petId) == u.petIds;
    assert u.(petIds := u.petIds) == u;
    assert once[uid := u] == once;
  }

  datatype SaveOutcome = Rejected | NotSignedIn | PetUpdated | PetAdded(id: Id)

  /** The dialog, editing the pet `editing` or adding a new one. */
  class PetEditor {
    const editing: Option<Id>
    var form: PetForm

    /** Opening the dialog resets the form to the pet's values, or to blanks. */
    constructor (pet: Option<Pet>)
      ensures editing == (if pet.Some? then Some(pet.value.id) else None)
      ensures form == if pet.Some? then FormOf(pet.value) else BlankPetForm
    {
      editing := if pet.Some? then Some(pet.value.id) else None;
      form := if pet.Some? then FormOf(pet.value) else BlankPetForm;
    }

    /** A photo was chosen and identified. */
    method ChoosePhoto(result: Identification)
      modifies this
      ensures form == PrefillBreed(old(form), result)
    {
      if result.Identified? && result.identifiedBreed != "" {
        form := form.(breed := result.identifiedBreed);
      }
    }

    /** `form.handleSubmit(onSubmit)`. A rejected form or a missing user
        writes nothing. Editing updates only that pet. Adding sets a new pet
        under a fresh id and, as a separate write, unions that id into the
        owner's `petIds`; the second write fails if the user document is
        missing while the first still lands. */
    method Submit(db: Db, user: Option<Id>, freshId: Id) returns (outcome: SaveOutcome)
      requires db.Valid() && freshId !in db.pets
      modifies db
      ensures db.Valid()
      ensures !ValidPetForm(form) ==> outcome == Rejected
      ensures ValidPetForm(form) && user.None? ==> outcome == NotSignedIn
      ensures outcome in {Rejected, NotSignedIn} ==> db.users == old(db.users) && db.pets == old(db.pets)
      ensures ValidPetForm(form) && user.Some? && editing.Some? ==>
        && outcome == PetUpdated
        && db.users == old(db.users)
        && db.pets == UpdatedPets(old(db.pets), editing.value, form)
      ensures ValidPetForm(form) && user.Some? && editing.None? ==>
        && outcome == PetAdded(freshId)
        && db.pets == old(db.pets)[freshId := NewPet(freshId, user.value, form)]
        && db.users == LinkedUsers(old(db.users), user.value, freshId)
    {
      if !ValidPetForm(form) {
        return Rejected;
      }
      if user.None? {
        return NotSignedIn;
      }
      if editing.Some? {
        db.pets := UpdatedPets(db.pets, editing.value, form);
        return PetUpdated;
      }
      db.pets := db.pets[freshId := NewPet(freshId, user.value, form)];
      db.users := LinkedUsers(db.users, user.value, freshId);
      outcome := PetAdded(freshId);
    }
  }
}
