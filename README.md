# PetConnect client rules, modelled in Dafny

PetConnect is a social web app for pet owners built on a hosted document store.
Most of it is screens bound to collections. This project models the small pieces
of client logic in it whose behaviour can be stated and proved:

- **Reminders** (`reminders.dfy`, module `Reminders`):
  - the `HH:MM` time pattern and the parse of an accepted time into hours and minutes;
  - the reminder's date-time, built from the chosen day and time;
  - the record a submitted form creates;
  - toggle-completed and delete over the reminders collection (class `ReminderStore`);
  - the split of the user's list into upcoming and completed;
  - the overdue flag.
- **Events** (`events.dfy`, module `Events`):
  - the attending and owner predicates and the card's footer action;
  - the RSVP toggle on an event's `attendees` array (class `EventStore`);
  - the attendee avatar strip: at most five avatars and a "+N" badge.
- **Array transforms** (`firestore.dfy`, module `Firestore`): the store's
  `arrayUnion` (add if absent) and `arrayRemove` (remove every occurrence), used by the
  RSVP toggle and by the pet dialog.
- **Users and pets** (`records.dfy`, module `Records`): the two collections, held in
  memory by class `Db`.
- **Onboarding** (`onboarding.dfy`, module `Onboarding`):
  - the profile and pet-entry schemas;
  - the loop that creates one pet per filled entry and collects their ids (a method
    proved against the function `FilledEntries`);
  - the batch that completes the profile;
  - the add/remove rules of the pet-entry list.
- **Pet dialog** (`pet_dialog.dfy`, module `PetDialog`): the pet schema; the breed
  pre-fill from photo identification; the edit branch (update that pet) and the add
  branch (new pet, then a set-union of its id into the owner's `petIds`).
- **Profile dialog** (`profile_edit.dfy`, module `ProfileEdit`): the profile schema; the
  fallback of missing fields to `''`; the picture chooser; the write to `users/{uid}`.
- **Breed-identification action** (`breed_action.dfy`, module `BreedAction`): the
  `data:image/` prefix check and the three results: validation error, success, or
  generic failure.

Modelling choices:

- The current user is a parameter `Option<Id>` (`None` = signed out).
- The clock `now` and the local time-zone offset are parameters.
- Fresh document ids are parameters the caller guarantees are new.
- The hosted breed identifier is a function parameter.
- Each collection is a `map<Id, Record>`, held by a class whose methods perform the
  source's writes synchronously.
- An `update` of a document that does not exist fails and changes nothing. The
  onboarding batch is atomic. The pet dialog's two writes are independent.
- Instants are milliseconds since the epoch. A calendar date is a day number.

## Model

| member | source | states |
|---|---|---|
| `Firestore.ArrayUnion` | src/app/events/events-client.tsx:40 | `arrayUnion(x)`: `x` is present afterwards; membership is the old membership plus `x`; `x` occurs once if it was absent; other counts unchanged; the old array is kept as a prefix |
| `Firestore.ArrayRemove` | src/app/events/events-client.tsx:40 | `arrayRemove(x)`: no occurrence of `x` is left; every other value keeps its count; the length drops by the number of occurrences removed |
| `Firestore.TransformsKeepDistinct` | src/app/events/events-client.tsx:40 | both transforms keep an array free of duplicates |
| `Firestore.UnionThenRemove` | src/app/events/events-client.tsx:39-41 | adding an absent id and then removing it restores the exact array |
| `Firestore.RemoveThenUnion` | src/app/events/events-client.tsx:39-41 | removing a present id and then adding it back restores the array's membership |
| `Reminders.TimePatternMeaning` | src/app/reminders/reminders-client.tsx:64 | the time pattern accepts a string exactly when it is a 1–2 digit hour ≤ 23, ':', then exactly two digits of minute ≤ 59 (both directions) |
| `Reminders.TimePatternExamples` | src/app/reminders/reminders-client.tsx:64 | "9:05" and "23:59" are accepted; "24:00" and "9:5" are rejected |
| `Reminders.ParseTime` | src/app/reminders/reminders-client.tsx:97 | `split(':').map(Number)` on an accepted time gives the hour and minute the digits denote, within [0,23] and [0,59] |
| `Reminders.TimeInputRoundTrip` | src/app/reminders/reminders-client.tsx:97 | every two-digit `HH:MM` a time input produces (the default `09:00` included) is accepted and parses back to the same hour and minute |
| `Reminders.SetHours` | src/app/reminders/reminders-client.tsx:99 | `setHours(h, m, 0, 0)` keeps the local calendar day and sets local time to h:m:00.000 |
| `Reminders.CombineAsWrittenDay` | src/app/reminders/reminders-client.tsx:98-99 | as written, the reminder keeps the chosen day only at or east of UTC; west of UTC it lands on the previous day |
| `Reminders.CombineAsWrittenExample` | src/app/reminders/reminders-client.tsx:98-99 | 2025-01-10 at 09:00 entered at UTC−5 is stored for 2025-01-09 |
| `Reminders.CombineDateTime` | src/app/reminders/reminders-client.tsx:98-99 | intended combination: the chosen local calendar day at local h:m, zero seconds and milliseconds |
| `Reminders.NewReminder` | src/app/reminders/reminders-client.tsx:102-108 | the new record belongs to the current user, is not completed, keeps the title, has notes `''` when none were given, and its local date-time is the chosen day at the parsed time |
| `Reminders.ReminderStore.Add` | src/app/reminders/reminders-client.tsx:93-108 | a rejected form or no user writes nothing; otherwise exactly one record is added under the fresh id |
| `Reminders.Toggled` | src/app/reminders/reminders-client.tsx:115-118 | toggling flips only `completed` of that one reminder; every other reminder and the key set are unchanged |
| `Reminders.ToggleTwice` | src/app/reminders/reminders-client.tsx:115-118 | toggling the same reminder twice restores the collection |
| `Reminders.ReminderStore.ToggleComplete` | src/app/reminders/reminders-client.tsx:115-118 | the collection becomes `Toggled` of the old one |
| `Reminders.ReminderStore.Delete` | src/app/reminders/reminders-client.tsx:120-122 | exactly the given id is removed; every other reminder is unchanged |
| `Reminders.WithStatus` | src/app/reminders/reminders-client.tsx:126-127 | the filter keeps exactly the reminders with the given `completed` flag |
| `Reminders.StatusSplit` | src/app/reminders/reminders-client.tsx:126-127 | upcoming and completed share no reminder; together they are the whole list, with multiplicity; each keeps the query's ascending date-time order |
| `Reminders.FilterSorted` | src/app/reminders/reminders-client.tsx:81 | filtering a list sorted by date-time leaves it sorted |
| `Reminders.OverdueOnlyUpcoming` | src/app/reminders/reminders-client.tsx:249 | an overdue reminder is always in the upcoming list; a completed reminder is never overdue |
| `Reminders.ToggleMovesBetweenLists` | src/app/reminders/reminders-client.tsx:115-127 | after a toggle, the reminder is in the other list of the refreshed view, and no id is shown in both lists |
| `Events.Rsvped` | src/app/events/events-client.tsx:38-41 | an RSVP changes only `attendees`; it flips the user's membership; it leaves the user at most once; other attendees keep their counts |
| `Events.RsvpTwice` | src/app/events/events-client.tsx:39-41 | two RSVPs by the same user restore the attendee set; if the user was not attending they restore the exact array |
| `Events.RsvpKeepsDistinct` | src/app/events/events-client.tsx:25 | an attendee list without duplicates stays without duplicates |
| `Events.FooterMatchesEffect` | src/app/events/events-client.tsx:94-99 | only the owner sees the organiser badge, so the owner is never offered RSVP; the button's cancel label holds exactly when a click removes the user |
| `Events.EventStore.Rsvp` | src/app/events/events-client.tsx:28-46 | with no user nothing is written and "not logged in" is reported; otherwise only that event changes, by `Rsvped`, and the outcome says whether the RSVP was cancelled or made |
| `Events.Avatars` | src/app/events/events-client.tsx:84-90 | at most five avatars, the first ones in order; the badge appears exactly when there are more than five; shown plus badge count equals the number of attendees |
| `Onboarding.FilledEntries` | src/app/onboarding/onboarding-client.tsx:86-87 | every kept entry is an input entry with name, breed and age non-empty |
| `Onboarding.FilledEntriesComplete` | src/app/onboarding/onboarding-client.tsx:87 | every input entry with name, breed and age non-empty is kept |
| `Onboarding.ValidFormKeepsEveryEntry` | src/app/onboarding/onboarding-client.tsx:32-42 | on a form the schema accepted, the loop keeps every entry |
| `Onboarding.CreatePetRecords` | src/app/onboarding/onboarding-client.tsx:83-96 | one pet per filled entry, in input order; `petIds` is the fresh ids in order; each created pet has `ownerId` = user and `id` = its own document id |
| `Onboarding.CompletedProfile` | src/app/onboarding/onboarding-client.tsx:99-104 | the profile update sets user name, bio, `onboardingCompleted` = true and `petIds` exactly as given; it keeps the picture |
| `Onboarding.MergeBatch` | src/app/onboarding/onboarding-client.tsx:89-93 | after the batch's `set` writes, the pets are the old ones, unchanged, plus exactly the created ones |
| `Onboarding.CommitBatch` | src/app/onboarding/onboarding-client.tsx:99-106 | the commit writes the new pets and the profile update together |
| `Onboarding.CompleteOnboarding` | src/app/onboarding/onboarding-client.tsx:68-106 | a rejected form, no user (error reported) or a missing user document writes nothing; a valid form, a signed-in user and an existing user document always complete the profile: pets are created for every entry and the profile gets `onboardingCompleted` and exactly their ids |
| `Onboarding.EntriesNeverEmpty` | src/app/onboarding/onboarding-client.tsx:233-249 | with remove offered only above one entry and add appending a blank, no sequence of clicks empties the list |
| `Onboarding.InitialEntriesNeverEmpty` | src/app/onboarding/onboarding-client.tsx:59 | starting from the single blank entry, the pet list never becomes empty |
| `PetDialog.AddFormRejectedAsWritten` | src/app/profile/PetDialog.tsx:38 | as written, no add form passes the schema: its `imageUrl` stays `''`, which is present but not a URL |
| `PetDialog.IntendedSchema` | src/app/profile/PetDialog.tsx:33-39 | the intended schema accepts a filled add form, and agrees with the written one whenever `imageUrl` is not `''` |
| `PetDialog.PrefillBreed` | src/app/profile/PetDialog.tsx:86-92 | only the breed can change; it changes exactly when identification returns a non-empty breed; on failure the form is unchanged |
| `PetDialog.PrefillKeepsFormValid` | src/app/profile/PetDialog.tsx:86-92 | a pre-fill never makes an accepted form rejected |
| `PetDialog.PetEditor.ChoosePhoto` | src/app/profile/PetDialog.tsx:78-97 | the form becomes `PrefillBreed` of the old form |
| `PetDialog.UpdatedPets` | src/app/profile/PetDialog.tsx:105-109 | editing replaces that pet's form fields; its id and owner stay; no other pet changes and no document is created |
| `PetDialog.NewPet` | src/app/profile/PetDialog.tsx:112-114 | a new pet has `id` = the new document id, `ownerId` = current user, and the form's fields |
| `PetDialog.LinkedUsers` | src/app/profile/PetDialog.tsx:117-120 | the new id is in the owner's `petIds`; other ids keep their counts; only that user's `petIds` change |
| `PetDialog.LinkIsSetUnion` | src/app/profile/PetDialog.tsx:117-120 | linking keeps `petIds` free of duplicates, and linking the same id twice is the same as once |
| `PetDialog.PetEditor.constructor` | src/app/profile/PetDialog.tsx:66-76 | the form opens with the edited pet's values, or blanks when adding |
| `PetDialog.PetEditor.Submit` | src/app/profile/PetDialog.tsx:100-123 | a rejected form or no user writes nothing; editing updates only `pets/{id}` and leaves users alone; adding creates the pet and set-unions its id into the owner's `petIds` |
| `ProfileEdit.WithProfileForm` | src/app/profile/ProfileEditDialog.tsx:91-92 | the update replaces exactly the three form fields; the form read back from the result is the one written |
| `ProfileEdit.SaveUntouchedForm` | src/app/profile/ProfileEditDialog.tsx:66-70 | saving the untouched defaults rewrites a complete profile unchanged; a missing field becomes `''` |
| `ProfileEdit.ProfileEditor.constructor` | src/app/profile/ProfileEditDialog.tsx:61-70 | the form starts from the profile with missing fields as `''`; the preview is the stored picture, if any |
| `ProfileEdit.ProfileEditor.ChooseFile` | src/app/profile/ProfileEditDialog.tsx:73-79 | the preview and the `profilePicture` field both become the chosen data URI; nothing else changes |
| `ProfileEdit.ProfileEditor.Submit` | src/app/profile/ProfileEditDialog.tsx:86-92 | a rejected form or no user writes nothing; otherwise only `users/{uid}` changes, by `WithProfileForm` |
| `BreedAction.IdentifyBreed` | src/lib/actions.ts:19-43 | a URI not starting with `data:image/` (or none) gives the "Invalid image format" failure and the identifier is not called; a valid URI is passed unchanged, once; an answer gives `success` = true with the answer; an exception gives the generic failure; `success` holds exactly when there is no error and exactly when there is data |
| `BreedAction.DataUriPrefix` | src/lib/actions.ts:9-11 | an image data URI as a file reader produces it is accepted; a `data:text/` URI is rejected |

## Findings

| source | as written | input that shows it | evidently intended | confidence | as-written member | corrected member |
|---|---|---|---|---|---|---|
| src/app/reminders/reminders-client.tsx:98-99 | the date field is coerced with `new Date("YYYY-MM-DD")`, which is midnight UTC; `setHours` then works in local time | date 2025-01-10, time 09:00, zone UTC−5 (offset 300): the stored reminder is 2025-01-09 09:00 local | the reminder falls on the chosen calendar day in the user's zone | high, not executed | `Reminders.CombineAsWrittenDay` | `Reminders.CombineDateTime` |
| src/app/profile/PetDialog.tsx:38 | the schema's `imageUrl` is `z.string().url().optional()`, while the add form's default `imageUrl` is `''` (line 68) and no input changes it | any filled-in add form: `''` is present, so `optional` does not skip it, and it is not a URL | an empty `imageUrl` counts as absent, so a new pet can be saved | high, not executed | `PetDialog.AddFormRejectedAsWritten` | `PetDialog.IntendedSchema` |

The rest of the model uses the corrected definitions. `ReminderStore.Add` builds
date-times with `CombineDateTime`. `PetEditor.Submit` validates with `ValidPetForm`.

## Left out

- Firestore I/O (`useCollection`, `useDoc`, the non-blocking writes, `writeBatch`) is
  replaced by synchronous in-memory maps. Asynchrony, listeners, optimistic updates and
  concurrent writers are not modelled.
- Query ordering is not computed. `Reminders.IsUserView` states what the query result
  is: each of the user's reminders once, ascending by date-time.
- The hosted breed identifier and the instant-advice model call are opaque. Nothing in
  the code bounds the identifier's confidence to [0,1], so the model claims no bound.
- Reading a file into a data URI (`FileReader`) is left out. The pet dialog takes the
  identification result as input; the profile dialog takes the data URI as input.
- `PetDialog.IsUrl`: `z.string().url()` parses with the WHATWG URL parser. The model
  checks only for a scheme followed by ':'. That is enough to reject `''`, which the
  finding depends on.
- Reminders.CombineDateTime: the time-zone offset is taken as constant; daylight-saving
  changes are not modelled.
- Reminders.ReminderForm: parsing the `YYYY-MM-DD` text into a day number is left out,
  and so is an invalid date rejected by `z.coerce.date`.
- Schema lengths are counted in `char`s. zod counts UTF-16 code units, which differ for
  characters outside the Basic Multilingual Plane.
- Optional text fields the forms always fill (bios, profile picture) are plain strings.
  The reminder form's `notes` stays optional (`Option<string>`), and the record stores
  `''` when it is absent, as the source's `notes || ''` does.
- Toast texts, date formatting (`format`, `isToday`), icons and layout are left out.
  The outcome datatypes name which toast is shown.
- The pet dialog stores the chosen photo in state (`setImageFile`), but `onSubmit`
  never uses it. The model drops that state.
- Not part of this model:
  - the find screen, whose client ignores its filters and shows a fixed list;
  - the seed script and the fixture data;
  - the instant-advice flow;
  - the page wrappers and the layout;
  - post likes and advice votes.
- Three behaviours the model takes from the code as it stands:
  - the action checks only the `data:image/` prefix, so `data:image/` with no subtype
    passes;
  - a malformed identifier response surfaces as an exception, that is as the generic
    failure;
  - attendees are arrays kept duplicate-free by `arrayUnion`/`arrayRemove`. The order
    of an array may change across two RSVPs.
