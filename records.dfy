/** The `users` and `pets` collections, which onboarding, the pet dialog and
    the profile dialog all write. */
module Records {
  import opened Firestore

  /** A user document. Text fields may be missing from the document; a
      missing `petIds` is the empty array. */
  datatype UserProfile = UserProfile(
    id: Id, userName: Option<string>, bio: Option<string>, profilePicture: Option<string>,
    petIds: seq<Id>, onboardingCompleted: bool)

  /** A pet document; pets created at onboarding have no `imageUrl`. */
  datatype Pet = Pet(
    id: Id, ownerId: Id, name: string, breed: string, age: string, bio: string,
    imageUrl: Option<string>)

  /** The largest bio, for users and pets alike. */
  const MaxBio: nat := 200

  /** The two collections, held in memory; keys are document ids. */
  class Db {
    var users: map<Id, UserProfile>
    var pets: map<Id, Pet>

    /** Every document carries its own id. Each write keeps this; the
        methods' contracts give the whole new maps and do not rely on it. */
    ghost predicate Valid()
      reads this
    {
      && (forall id :: id in users ==> users[id].id == id)
      && (forall id :: id in pets ==> pets[id].id == id)
    }

    constructor (users0: map<Id, UserProfile>, pets0: map<Id, Pet>)
      requires forall id :: id in users0 ==> users0[id].id == id
      requires forall id :: id in pets0 ==> pets0[id].id == id
      ensures Valid() && users == users0 && pets == pets0
    {
      users, pets := users0, pets0;
    }
  }
}
