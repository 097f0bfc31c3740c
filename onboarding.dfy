/** The onboarding form: its validation, the list of pet entries the user
    edits, and the submission that creates one pet document per filled entry
    and completes the user's profile in one batch. */
module Onboarding {
  import opened Firestore
  import opened Records

  datatype PetEntry = PetEntry(name: string, breed: string, age: string, bio: string)

  datatype OnboardingForm = OnboardingForm(userName: string, bio: string, pets: seq<PetEntry>)

  /** `petSchema`: name, breed and age required, a bio of at most 200 characters. */
  predicate ValidPetEntry(p: PetEntry) {
    |p.name| >= 1 && |p.breed| >= 1 && |p.age| >= 1 && |p.bio| <= MaxBio
  }

  /** `onboardingSchema`: a user name of at least 3 characters, a bio of at
      most 200, and every pet entry valid. */
  predicate ValidOnboardingForm(f: OnboardingForm) {
    && |f.userName| >= 3
    && |f.bio| <= MaxBio
    && forall i :: 0 <= i < |f.pets| ==> ValidPetEntry(f.pets[i])
  }

  /** The guard of the pet loop: `petData.name && petData.breed && petData.age`. */
  predicate IsFilled(p: PetEntry) {
    p.name != "" && p.breed != "" && p.age != ""
  }

  /** The filled entries, in input order. */
  function FilledEntries(pets: seq<PetEntry>): (r: seq<PetEntry>)
    ensures forall p :: p in r ==> p in pets && IsFilled(p)
    ensures |r| <= |pets|
    decreases |pets|
  {
    if pets == [] then []
    else
      var init, last := pets[..|pets| - 1], pets[|pets| - 1];
      assert pets == init + [last];
      FilledEntries(init) + if IsFilled(last) then [last] else []
  }

  /** Every filled entry is kept: with the contract of `FilledEntries`, an
      entry is kept exactly when its name, breed and age are all non-empty. */
  lemma {:induction false} FilledEntriesComplete(pets: seq<PetEntry>)
    ensures forall p :: p in pets && IsFilled(p) ==> p in FilledEntries(pets)
    decreases |pets|
  {
    if pets != [] {
      var init := pets[..|pets| - 1];
      FilledEntriesComplete(init);
      assert pets == init + [pets[|pets| - 1]];
    }
  }

  /** A form that passed validation has every entry filled, so the loop keeps them all. */
  lemma {:induction false} ValidFormKeepsEveryEntry(pets: seq<PetEntry>)
    requires forall i :: 0 <= i < |pets| ==> ValidPetEntry(pets[i])
    ensures FilledEntries(pets) == pets
    decreases |pets|
  {
    if pets != [] {
      var init, last := pets[..|pets| - 1], pets[|pets| - 1];
      ValidFormKeepsEveryEntry(init);
      assert ValidPetEntry(last);
      assert init + [last] == pets;
    }
  }

  /** The pet document written for entry `p` of user `uid` under id `id`. */
  function NewPet(uid: Id, id: Id, p: PetEntry): Pet {
    Pet(id, uid, p.name, p.breed, p.age, p.bio, None)
  }

  /** Fresh ids (`crypto.randomUUID`) never repeat. */
  ghost predicate AllDifferent(ids: seq<Id>) {
    forall i, j :: 0 <= i < j < |ids| ==> ids[i] != ids[j]
  }

  /** The `forEach` loop of `onSubmit`: one pet document per filled entry,
      taking the next fresh id each time, and `petIds` listing those ids in
      entry order. */
  method CreatePetRecords(uid: Id, pets: seq<PetEntry>, freshIds: seq<Id>) returns (petIds: seq<Id>, created: map<Id, Pet>)
    requires |freshIds| >= |pets| && AllDifferent(freshIds)
    ensures |petIds| == |FilledEntries(pets)|
    ensures petIds == freshIds[..|petIds|]
    ensures forall id :: id in created <==> id in petIds
    ensures forall k :: 0 <= k < |petIds| ==> created[petIds[k]] == NewPet(uid, petIds[k], FilledEntries(pets)[k])
  {
    petIds, created := [], map[];
    ghost var kept: seq<PetEntry> := [];
    var i := 0;
    while i < |pets|
      invariant 0 <= i <= |pets|
      invariant kept == FilledEntries(pets[..i])
      invariant |petIds| == |kept| <= i
      invariant Bookkeeping(uid, petIds, created, kept, freshIds)
    {
      FilledStep(pets, i);
      if IsFilled(pets[i]) {
        var id := freshIds[|petIds|];
        RecordStep(uid, petIds, created, kept, freshIds, pets[i]);
        created := created[id := NewPet(uid, id, pets[i])];
        petIds := petIds + [id];
        kept := kept + [pets[i]];
      }
      i := i + 1;
    }
    assert pets[..i] == pets;
  }

  /** The loop's bookkeeping: the ids used so far are the first fresh ids,
      and under each of them is the pet of the matching kept entry. */
  ghost predicate Bookkeeping(uid: Id, petIds: seq<Id>, created: map<Id, Pet>, kept: seq<PetEntry>, freshIds: seq<Id>) {
    && |petIds| == |kept| <= |freshIds|
    && petIds == freshIds[..|petIds|]
    && (forall id :: id in created <==> id in petIds)
    && (forall k :: 0 <= k < |petIds| ==> created[petIds[k]] == NewPet(uid, petIds[k], kept[k]))
  }

  /** One more created pet keeps the loop's bookkeeping: the next fresh id is
      new, so the earlier records stay as they were. */
  lemma RecordStep(uid: Id, petIds: seq<Id>, created: map<Id, Pet>, kept: seq<PetEntry>, freshIds: seq<Id>, p: PetEntry)
    requires Bookkeeping(uid, petIds, created, kept, freshIds)
    requires |petIds| < |freshIds| && AllDifferent(freshIds)
    ensures Bookkeeping(uid, petIds + [freshIds[|petIds|]],
      created[freshIds[|petIds|] := NewPet(uid, freshIds[|petIds|], p)], kept + [p], freshIds)
  {
    var id := freshIds[|petIds|];
    forall k | 0 <= k < |petIds| ensures petIds[k] != id {
      assert petIds[k] == freshIds[k];
    }
  }

  lemma FilledStep(pets: seq<PetEntry>, i: nat)
    requires i < |pets|
    ensures FilledEntries(pets[..i + 1]) == FilledEntries(pets[..i]) + if IsFilled(pets[i]) then [pets[i]] else []
  {
    assert pets[..i + 1][..i] == pets[..i];
  }

  datatype OnboardingOutcome = NotSignedIn | Invalid | SaveFailed | ProfileComplete(petIds: seq<Id>)

  /** The user document after the batch's `update`: name, bio, the completed
      flag and exactly the created pet ids; the picture is kept. */
  function CompletedProfile(u: UserProfile, f: OnboardingForm, petIds: seq<Id>): (r: UserProfile)
    ensures r.id == u.id && r.profilePicture == u.profilePicture
    ensures r.onboardingCompleted && r.petIds == petIds
    ensures r.userName == Some(f.userName) && r.bio == Some(f.bio)
  {
    u.(userName := Some(f.userName), bio := Some(f.bio), onboardingCompleted := true, petIds := petIds)
  }

  /** The pets collection after the batch's `set` writes of new documents. */
  lemma MergeBatch(pets: map<Id, Pet>, created: map<Id, Pet>, petIds: seq<Id>, uid: Id, entries: seq<PetEntry>)
    requires forall id :: id in created <==> id in petIds
    requires forall id :: id in petIds ==> id !in pets
    requires |petIds| == |entries|
    requires forall k :: 0 <= k < |petIds| ==> created[petIds[k]] == NewPet(uid, petIds[k], entries[k])
    ensures forall id :: id in pets + created <==> id in pets || id in petIds
    ensures forall id :: id in pets ==> id in pets + created && (pets + created)[id] == pets[id]
    ensures forall k :: 0 <= k < |entries| ==> petIds[k] in pets + created && (pets + created)[petIds[k]] == NewPet(uid, petIds[k], entries[k])
  {
  }

  /** `batch.commit()` once the user document is known to exist: the new
      pets are set and the user document updated, together. */
  method CommitBatch(db: Db, uid: Id, f: OnboardingForm, petIds: seq<Id>, created: map<Id, Pet>)
    requires db.Valid() && uid in db.users
    requires forall id :: id in created ==> created[id].id == id
    modifies db
    ensures db.Valid()
    ensures db.users == old(db.users)[uid := CompletedProfile(old(db.users)[uid], f, petIds)]
    ensures db.pets == old(db.pets) + created
  {
    db.pets := db.pets + created;
    db.users := db.users[uid := CompletedProfile(db.users[uid], f, petIds)];
  }

  /** `form.handleSubmit(onSubmit)`. Validation failing, or no signed-in user,
      writes nothing. Otherwise the batch sets one pet per filled entry and
      updates the user document; the update fails when that document does
      not exist, and then the batch writes nothing at all. */
  method CompleteOnboarding(db: Db, user: Option<Id>, f: OnboardingForm, freshIds: seq<Id>)
    returns (outcome: OnboardingOutcome)
    requires db.Valid()
    requires |freshIds| >= |f.pets| && AllDifferent(freshIds)
    requires forall id :: id in freshIds ==> id !in db.pets
    modifies db
    ensures db.Valid()
    ensures !ValidOnboardingForm(f) ==> outcome == Invalid
    ensures ValidOnboardingForm(f) && user.None? ==> outcome == NotSignedIn
    ensures ValidOnboardingForm(f) && user.Some? && user.value !in old(db.users) ==> outcome == SaveFailed
    ensures ValidOnboardingForm(f) && user.Some? && user.value in old(db.users) ==> outcome.ProfileComplete?
    ensures !outcome.ProfileComplete? ==> db.users == old(db.users) && db.pets == old(db.pets)
    ensures outcome.ProfileComplete? ==>
      && ValidOnboardingForm(f) && user.Some? && user.value in old(db.users)
      && outcome.petIds == freshIds[..|f.pets|]
      && db.users == old(db.users)[user.value := CompletedProfile(old(db.users)[user.value], f, outcome.petIds)]
      && (forall id :: id in db.pets <==> id in old(db.pets) || id in outcome.petIds)
      && (forall id :: id in old(db.pets) ==> id in db.pets && db.pets[id] == old(db.pets)[id])
      && (forall k :: 0 <= k < |f.pets| ==> outcome.petIds[k] in db.pets && db.pets[outcome.petIds[k]] == NewPet(user.value, outcome.petIds[k], f.pets[k]))
  {
    if !ValidOnboardingForm(f) {
      return Invalid;
    }
    if user.None? {
      return NotSignedIn;
    }
    var uid := user.value;
    ValidFormKeepsEveryEntry(f.pets);
    var petIds, created := CreatePetRecords(uid, f.pets, freshIds);
    assert |petIds| == |f.pets|;
    if uid !in db.users {
      return SaveFailed;
    }
    MergeBatch(db.pets, created, petIds, uid, f.pets);
    CommitBatch(db, uid, f, petIds, created);
    outcome := ProfileComplete(petIds);
  }

  // ---------------------------------------------------------------------------
  // The list of pet entries on screen
  // ---------------------------------------------------------------------------

  const BlankEntry := PetEntry("", "", "", "")

  /** The form opens with one blank entry. */
  const InitialEntries := [BlankEntry]

  datatype EntryAction = AddEntry | RemoveEntry(index: nat)

  /** Each entry's remove button is drawn only while there is more than one entry. */
  predicate RemoveOffered(entries: seq<PetEntry>) {
    |entries| > 1
  }

  /** "Add Another Pet" appends a blank entry; a remove click deletes that
      entry, and is impossible when the button is not drawn. */
  function ApplyEntryAction(entries: seq<PetEntry>, a: EntryAction): seq<PetEntry> {
    match a
    case AddEntry => entries + [BlankEntry]
    case RemoveEntry(i) =>
      if RemoveOffered(entries) && i < |entries| then entries[..i] + entries[i + 1..] else entries
  }

  function ApplyEntryActions(entries: seq<PetEntry>, actions: seq<EntryAction>): seq<PetEntry>
    decreases |actions|
  {
    if actions == [] then entries else ApplyEntryActions(ApplyEntryAction(entries, actions[0]), actions[1..])
  }

  /** Whatever the user clicks, the form never drops below one pet entry. */
  lemma {:induction false} EntriesNeverEmpty(entries: seq<PetEntry>, actions: seq<EntryAction>)
    requires |entries| >= 1
    ensures |ApplyEntryActions(entries, actions)| >= 1
    decreases |actions|
  {
    if actions != [] {
      var next := ApplyEntryAction(entries, actions[0]);
      assert |next| >= 1;
      EntriesNeverEmpty(next, actions[1..]);
    }
  }

  /** In particular, starting from the initial form. */
  lemma InitialEntriesNeverEmpty(actions: seq<EntryAction>)
    ensures |ApplyEntryActions(InitialEntries, actions)| >= 1
  {
    EntriesNeverEmpty(InitialEntries, actions);
  }
}
