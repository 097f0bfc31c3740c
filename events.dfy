/** The event card: who is attending, who organised the event, the RSVP
    toggle on the event's `attendees` array, and the strip of attendee
    avatars with its "+N" badge. */
module Events {
  import opened Firestore

  /** An event document. A missing `attendees` field is the empty array. */
  datatype Event = Event(
    id: Id, authorId: Id, title: string, description: string,
    date: int, location: string, petType: string, attendees: seq<Id>)

  /** `isAttending`: there is a signed-in user and the attendees include them. */
  predicate IsAttending(user: Option<Id>, e: Event) {
    user.Some? && user.value in e.attendees
  }

  /** `isOwner`: there is a signed-in user and they wrote the event. */
  predicate IsOwner(user: Option<Id>, e: Event) {
    user.Some? && e.authorId == user.value
  }

  /** The event after one RSVP click by `uid`: `arrayRemove(uid)` when they
      attend, `arrayUnion(uid)` otherwise. */
  function Rsvped(e: Event, uid: Id): (r: Event)
    ensures r == e.(attendees := r.attendees)
    ensures uid in r.attendees <==> uid !in e.attendees
    ensures multiset(r.attendees)[uid] <= 1
    ensures forall v :: v != uid ==> multiset(r.attendees)[v] == multiset(e.attendees)[v]
  {
    e.(attendees := if uid in e.attendees then ArrayRemove(e.attendees, uid) else ArrayUnion(e.attendees, uid))
  }

  /** Two RSVPs in a row by the same user restore the attendees as a set;
      when the user was not attending, they restore the very same array. */
  lemma RsvpTwice(e: Event, uid: Id)
    ensures forall v :: v in Rsvped(Rsvped(e, uid), uid).attendees <==> v in e.attendees
    ensures uid !in e.attendees ==> Rsvped(Rsvped(e, uid), uid) == e
  {
    if uid in e.attendees {
      RemoveThenUnion(e.attendees, uid);
    } else {
      UnionThenRemove(e.attendees, uid);
    }
  }

  /** RSVPs keep an attendee list free of duplicates. */
  lemma RsvpKeepsDistinct(e: Event, uid: Id)
    requires Distinct(e.attendees)
    ensures Distinct(Rsvped(e, uid).attendees)
  {
    TransformsKeepDistinct(e.attendees, uid);
  }

  /** The card footer: the organiser sees a disabled badge, everyone else
      (including a signed-out visitor) an RSVP button, labelled for cancelling
      when they attend. */
  datatype FooterAction = OrganizerBadge | RsvpButton(cancel: bool)

  function Footer(user: Option<Id>, e: Event): FooterAction {
    if IsOwner(user, e) then OrganizerBadge else RsvpButton(IsAttending(user, e))
  }

  /** The owner is never offered the RSVP action, and the button's label
      tells a signed-in user what a click will do to their membership. */
  lemma FooterMatchesEffect(user: Option<Id>, e: Event)
    ensures IsOwner(user, e) <==> Footer(user, e) == OrganizerBadge
    ensures user.Some? && Footer(user, e) == RsvpButton(true) ==> user.value !in Rsvped(e, user.value).attendees
    ensures user.Some? && Footer(user, e) == RsvpButton(false) ==> user.value in Rsvped(e, user.value).attendees
  {
  }

  /** The toast `handleRsvp` shows. */
  datatype RsvpOutcome = NotLoggedIn | RsvpCanceled | RsvpSuccessful

  /** The events collection, held in memory; keys are document ids. */
  class EventStore {
    var events: map<Id, Event>

    constructor (initial: map<Id, Event>)
      ensures events == initial
    {
      events := initial;
    }

    /** `handleRsvp` on the card of event `eventId`: with no user nothing is
        written and an error is reported; otherwise only that event's
        `attendees` change. */
    method Rsvp(user: Option<Id>, eventId: Id) returns (outcome: RsvpOutcome)
      requires eventId in events
      modifies this
      ensures user.None? ==> outcome == NotLoggedIn && events == old(events)
      ensures user.Some? ==> events == old(events)[eventId := Rsvped(old(events)[eventId], user.value)]
      ensures user.Some? ==> outcome == if IsAttending(user, old(events)[eventId]) then RsvpCanceled else RsvpSuccessful
    {
      if user.None? {
        return NotLoggedIn;
      }
      var e := events[eventId];
      var attending := IsAttending(user, e);
      var attendees := if attending then ArrayRemove(e.attendees, user.value) else ArrayUnion(e.attendees, user.value);
      events := events[eventId := e.(attendees := attendees)];
      outcome := if attending then RsvpCanceled else RsvpSuccessful;
    }
  }

  // ---------------------------------------------------------------------------
  // The avatar strip
  // ---------------------------------------------------------------------------

  const MaxAvatars: nat := 5

  /** The avatars drawn (`attendees.slice(0, 5)`) and the "+N" badge, drawn
      only when there are more than five attendees. */
  datatype AvatarStrip = AvatarStrip(shown: seq<Id>, badge: Option<nat>)

  function Avatars(attendees: seq<Id>): (s: AvatarStrip)
    ensures |s.shown| <= MaxAvatars
    ensures |s.shown| + s.badge.GetOr(0) == |attendees|
    ensures s.shown == attendees[..|s.shown|]
    ensures s.badge.Some? <==> |attendees| > MaxAvatars
    ensures s.badge.Some? ==> s.badge.value > 0
  {
    var shown := if |attendees| <= MaxAvatars then attendees else attendees[..MaxAvatars];
    AvatarStrip(shown, if |attendees| > MaxAvatars then Some(|attendees| - MaxAvatars) else None)
  }
}
