/** The reminders screen: the time field of the reminder form, the reminder
    record a valid form produces, the three writes on the user's reminders
    (add, toggle completed, delete), the split of the user's list into
    upcoming and completed, and the overdue flag. */
module Reminders {
  import opened Firestore

  // ---------------------------------------------------------------------------
  // The time field: `^([0-1]?[0-9]|2[0-3]):[0-5][0-9]$`
  // ---------------------------------------------------------------------------

  predicate IsDigit(c: char) {
    '0' <= c <= '9'
  }

  /** The hour group `([0-1]?[0-9]|2[0-3])`, one alternative per line. */
  predicate HourGroup(h: string) {
    || (|h| == 1 && IsDigit(h[0]))
    || (|h| == 2 && '0' <= h[0] <= '1' && IsDigit(h[1]))
    || (|h| == 2 && h[0] == '2' && '0' <= h[1] <= '3')
  }

  /** The minute group `[0-5][0-9]`. */
  predicate MinuteGroup(m: string) {
    |m| == 2 && '0' <= m[0] <= '5' && IsDigit(m[1])
  }

  /** The whole anchored pattern: an hour group of one or two characters, a
      colon, a minute group, and nothing else. */
  predicate MatchesTimePattern(s: string) {
    exists k | 1 <= k <= 2 :: k < |s| && s[k] == ':' && HourGroup(s[..k]) && MinuteGroup(s[k + 1..])
  }

  function Digit(c: char): nat
    requires IsDigit(c)
  {
    c as int - '0' as int
  }

  predicate AllDigits(d: string) {
    forall i :: 0 <= i < |d| ==> IsDigit(d[i])
  }

  /** The number a string of decimal digits denotes, as `Number` reads it
      (leading zeros allowed, the empty string is 0). */
  function DecimalValue(d: string): nat
    requires AllDigits(d)
    decreases |d|
  {
    if d == [] then 0 else 10 * DecimalValue(d[..|d| - 1]) + Digit(d[|d| - 1])
  }

  /** What an accepted time means, stated without the pattern: one or two
      digits giving an hour of at most 23, a colon, then exactly two digits
      giving a minute of at most 59. */
  ghost predicate IsClockTime(s: string) {
    && 4 <= |s| <= 5
    && s[|s| - 3] == ':'
    && AllDigits(s[..|s| - 3]) && AllDigits(s[|s| - 2..])
    && DecimalValue(s[..|s| - 3]) <= 23
    && DecimalValue(s[|s| - 2..]) <= 59
  }

  lemma DecimalValueOfTwo(d: string)
    requires |d| == 2 && AllDigits(d)
    ensures DecimalValue(d) == 10 * Digit(d[0]) + Digit(d[1])
  {
    var first := d[..1];
    assert d[..|d| - 1] == first && first[..0] == [];
    assert DecimalValue(first) == Digit(d[0]);
  }

  lemma DecimalValueOfOne(d: string)
    requires |d| == 1 && AllDigits(d)
    ensures DecimalValue(d) == Digit(d[0])
  {
    assert d[..0] == [];
  }

  /** The time pattern accepts exactly the clock times: both directions. */
  lemma TimePatternMeaning(s: string)
    ensures MatchesTimePattern(s) <==> IsClockTime(s)
  {
    if MatchesTimePattern(s) {
      var k :| 1 <= k <= 2 && k < |s| && s[k] == ':' && HourGroup(s[..k]) && MinuteGroup(s[k + 1..]);
      assert |s| == k + 3;
      assert s[k + 1..] == s[|s| - 2..];
      DecimalValueOfTwo(s[|s| - 2..]);
      if k == 1 { DecimalValueOfOne(s[..1]); } else { DecimalValueOfTwo(s[..2]); }
    }
    if IsClockTime(s) {
      var k := |s| - 3;
      assert s[k + 1..] == s[|s| - 2..];
      DecimalValueOfTwo(s[|s| - 2..]);
      if k == 1 { DecimalValueOfOne(s[..1]); } else { DecimalValueOfTwo(s[..2]); }
      assert HourGroup(s[..k]) && MinuteGroup(s[k + 1..]);
    }
  }

  /** `String.prototype.split` on a one-character separator. */
  function SplitOn(s: string, sep: char): (parts: seq<string>)
    ensures |parts| >= 1
    decreases |s|
  {
    if s == [] then [[]]
    else
      var rest := SplitOn(s[1..], sep);
      if s[0] == sep then [[]] + rest else [[s[0]] + rest[0]] + rest[1..]
  }

  lemma {:induction false} SplitWithoutSeparator(s: string, sep: char)
    requires sep !in s
    ensures SplitOn(s, sep) == [s]
    decreases |s|
  {
    if s != [] {
      assert sep !in s[1..];
      SplitWithoutSeparator(s[1..], sep);
      assert [s[0]] + s[1..] == s;
    }
  }

  lemma {:induction false} SplitAtSeparator(h: string, m: string, sep: char)
    requires sep !in h && sep !in m
    ensures SplitOn(h + [sep] + m, sep) == [h, m]
    decreases |h|
  {
    var s := h + [sep] + m;
    if h == [] {
      assert s[1..] == m;
      SplitWithoutSeparator(m, sep);
    } else {
      assert s[0] == h[0];
      assert s[1..] == h[1..] + [sep] + m;
      assert sep !in h[1..];
      SplitAtSeparator(h[1..], m, sep);
      assert [h[0]] + h[1..] == h;
    }
  }

  /** `data.time.split(':').map(Number)` on a time the schema accepted:
      the hours and minutes it denotes, always a valid time of day. */
  function ParseTime(s: string): (hm: (nat, nat))
    requires MatchesTimePattern(s)
    ensures IsClockTime(s)
    ensures hm.0 == DecimalValue(s[..|s| - 3]) && hm.1 == DecimalValue(s[|s| - 2..])
    ensures hm.0 <= 23 && hm.1 <= 59
  {
    TimePatternMeaning(s);
    var k := |s| - 3;
    assert s == s[..k] + [':'] + s[|s| - 2..];
    SplitAtSeparator(s[..k], s[|s| - 2..], ':');
    var parts := SplitOn(s, ':');
    (DecimalValue(parts[0]), DecimalValue(parts[1]))
  }

  /** Two-digit rendering of 0..99, as a time input writes hours and minutes. */
  function TwoDigits(n: nat): (d: string)
    requires n <= 99
    ensures |d| == 2 && AllDigits(d)
  {
    [('0' as int + n / 10) as char, ('0' as int + n % 10) as char]
  }

  /** Every "HH:MM" value a time input can produce (the form default "09:00"
      among them) is accepted and parses back to the same hours and minutes. */
  lemma TimeInputRoundTrip(h: nat, m: nat)
    requires h <= 23 && m <= 59
    ensures MatchesTimePattern(TwoDigits(h) + ":" + TwoDigits(m))
    ensures ParseTime(TwoDigits(h) + ":" + TwoDigits(m)) == (h, m)
  {
    var s := TwoDigits(h) + ":" + TwoDigits(m);
    assert s[..2] == TwoDigits(h) && s[|s| - 2..] == TwoDigits(m);
    DecimalValueOfTwo(TwoDigits(h));
    DecimalValueOfTwo(TwoDigits(m));
    TimePatternMeaning(s);
  }

  /** "9:05" (a one-digit hour) is accepted; "24:00" and "9:5" are not. */
  lemma TimePatternExamples()
    ensures MatchesTimePattern("9:05") && MatchesTimePattern("23:59")
    ensures !MatchesTimePattern("24:00") && !MatchesTimePattern("9:5")
  {
    assert "9:05"[..1] == "9" && "9:05"[2..] == "05";
    assert "23:59"[..2] == "23" && "23:59"[3..] == "59";
    assert "24:00"[..2] == "24" && "24:00"[..1] == "2";
    assert "9:5"[2..] == "5";
  }

  // ---------------------------------------------------------------------------
  // Instants and the local calendar
  // ---------------------------------------------------------------------------

  const MinuteMs: int := 60_000
  const HourMs: int := 3_600_000
  const DayMs: int := 86_400_000

  /** Instants are milliseconds since the epoch. `offset` is the local zone's
      offset in minutes as `getTimezoneOffset` reports it (UTC minus local
      time: positive west of Greenwich); daylight saving is not modelled. */
  function LocalDay(t: int, offset: int): int {
    (t - offset * MinuteMs) / DayMs
  }

  function LocalTimeOfDay(t: int, offset: int): (ms: int)
    ensures 0 <= ms < DayMs
  {
    (t - offset * MinuteMs) % DayMs
  }

  function LocalHours(t: int, offset: int): int { LocalTimeOfDay(t, offset) / HourMs }
  function LocalMinutes(t: int, offset: int): int { LocalTimeOfDay(t, offset) / MinuteMs % 60 }
  function LocalSeconds(t: int, offset: int): int { LocalTimeOfDay(t, offset) / 1000 % 60 }
  function LocalMillis(t: int, offset: int): int { LocalTimeOfDay(t, offset) % 1000 }

  /** `Date.prototype.setHours(h, m, 0, 0)`: the same local calendar day, at
      local time h:m:00.000. */
  function SetHours(t: int, offset: int, h: nat, m: nat): (r: int)
    requires h <= 23 && m <= 59
    ensures LocalDay(r, offset) == LocalDay(t, offset)
    ensures LocalHours(r, offset) == h && LocalMinutes(r, offset) == m
    ensures LocalSeconds(r, offset) == 0 && LocalMillis(r, offset) == 0
  {
    var tod := h * HourMs + m * MinuteMs;
    ClockOfTimeOfDay(h, m);
    LocalSplit(LocalDay(t, offset), tod, offset);
    LocalDay(t, offset) * DayMs + tod + offset * MinuteMs
  }

  /** The local time of day h:m:00.000, in milliseconds, reads back as h and m. */
  lemma ClockOfTimeOfDay(h: nat, m: nat)
    requires h <= 23 && m <= 59
    ensures 0 <= h * HourMs + m * MinuteMs < DayMs
    ensures (h * HourMs + m * MinuteMs) / HourMs == h
    ensures (h * HourMs + m * MinuteMs) / MinuteMs % 60 == m
    ensures (h * HourMs + m * MinuteMs) / 1000 % 60 == 0 && (h * HourMs + m * MinuteMs) % 1000 == 0
  {
    var tod := h * HourMs + m * MinuteMs;
    assert tod / MinuteMs == h * 60 + m;
    assert tod / 1000 == (h * 60 + m) * 60;
  }

  /** The instant at local day `d` and local time of day `tod`. */
  lemma LocalSplit(d: int, tod: int, offset: int)
    requires 0 <= tod < DayMs
    ensures LocalDay(d * DayMs + tod + offset * MinuteMs, offset) == d
    ensures LocalTimeOfDay(d * DayMs + tod + offset * MinuteMs, offset) == tod
  {
    assert d * DayMs + tod + offset * MinuteMs - offset * MinuteMs == d * DayMs + tod;
  }

  /** `new Date("YYYY-MM-DD")`, which is how the date field is coerced: a
      date-only string is read as midnight UTC of that calendar day (`day`
      counts days since 1970-01-01). */
  function DateInputInstant(day: int): int {
    day * DayMs
  }

  /** The date-time the reminder form builds, as written: the date input's
      UTC midnight, then `setHours` in local time. */
  function CombineAsWritten(day: int, offset: int, h: nat, m: nat): int
    requires h <= 23 && m <= 59
  {
    SetHours(DateInputInstant(day), offset, h, m)
  }

  /** As written, the reminder keeps the chosen calendar day only at or east
      of Greenwich; anywhere west of it the reminder lands on the day before. */
  lemma CombineAsWrittenDay(day: int, offset: int, h: nat, m: nat)
    requires h <= 23 && m <= 59
    requires -1440 < offset < 1440
    ensures offset <= 0 ==> LocalDay(CombineAsWritten(day, offset, h, m), offset) == day
    ensures offset > 0 ==> LocalDay(CombineAsWritten(day, offset, h, m), offset) == day - 1
  {
    var t := DateInputInstant(day);
    if offset <= 0 {
      assert t - offset * MinuteMs == day * DayMs + (-offset) * MinuteMs;
      assert 0 <= (-offset) * MinuteMs < DayMs;
    } else {
      assert t - offset * MinuteMs == (day - 1) * DayMs + (DayMs - offset * MinuteMs);
      assert 0 <= DayMs - offset * MinuteMs < DayMs;
    }
  }

  /** A concrete instance: a reminder for 2025-01-10 at 09:00 entered in a
      zone five hours behind UTC is stored for 2025-01-09 at 09:00. */
  lemma CombineAsWrittenExample()
    ensures LocalDay(CombineAsWritten(20098, 300, 9, 0), 300) == 20097
  {
    CombineAsWrittenDay(20098, 300, 9, 0);
  }

  /** The intended date-time: the chosen day read as a local calendar day, at
      local time h:m:00.000. */
  function CombineDateTime(day: int, offset: int, h: nat, m: nat): (r: int)
    requires h <= 23 && m <= 59
    ensures LocalDay(r, offset) == day
    ensures LocalHours(r, offset) == h && LocalMinutes(r, offset) == m
    ensures LocalSeconds(r, offset) == 0 && LocalMillis(r, offset) == 0
  {
    var localMidnight := day * DayMs + offset * MinuteMs;
    assert LocalDay(localMidnight, offset) == day;
    SetHours(localMidnight, offset, h, m)
  }

  // ---------------------------------------------------------------------------
  // Reminder records
  // ---------------------------------------------------------------------------

  datatype Reminder = Reminder(id: Id, userId: Id, title: string, notes: string, dateTime: int, completed: bool)

  /** The form values; `date` is the chosen calendar day, `notes` may be absent. */
  datatype ReminderForm = ReminderForm(title: string, notes: Option<string>, date: int, time: string)

  /** `reminderSchema`: a non-empty title, optional notes, a date, and a time
      matching the pattern. */
  predicate ValidReminderForm(f: ReminderForm) {
    |f.title| >= 1 && MatchesTimePattern(f.time)
  }

  /** The record `onSubmit` adds for user `uid` under document id `id`. */
  function NewReminder(uid: Id, id: Id, f: ReminderForm, offset: int): (r: Reminder)
    requires ValidReminderForm(f)
    ensures r.id == id && r.userId == uid && r.title == f.title && !r.completed
    ensures r.notes == if f.notes.Some? then f.notes.value else ""
    ensures IsClockTime(f.time)
    ensures LocalDay(r.dateTime, offset) == f.date
    ensures LocalHours(r.dateTime, offset) == DecimalValue(f.time[..|f.time| - 3])
    ensures LocalMinutes(r.dateTime, offset) == DecimalValue(f.time[|f.time| - 2..])
    ensures LocalSeconds(r.dateTime, offset) == 0 && LocalMillis(r.dateTime, offset) == 0
  {
    var hm := ParseTime(f.time);
    Reminder(id, uid, f.title, f.notes.GetOr(""), CombineDateTime(f.date, offset, hm.0, hm.1), false)
  }

  /** The collection after `updateDoc(reminders/id, { completed: !completed })`;
      an update of a missing document fails and changes nothing. */
  function Toggled(store: map<Id, Reminder>, id: Id): (s: map<Id, Reminder>)
    ensures s.Keys == store.Keys
    ensures forall k :: k in store && k != id ==> s[k] == store[k]
    ensures id in store ==> s[id] == store[id].(completed := !store[id].completed)
  {
    if id in store then store[id := store[id].(completed := !store[id].completed)] else store
  }

  /** Toggling the same reminder twice restores the collection. */
  lemma ToggleTwice(store: map<Id, Reminder>, id: Id)
    ensures Toggled(Toggled(store, id), id) == store
  {
    var s := Toggled(Toggled(store, id), id);
    assert s.Keys == store.Keys;
    assert forall k :: k in store ==> s[k] == store[k];
  }

  /** The reminders collection, held in memory; keys are document ids. */
  class ReminderStore {
    var reminders: map<Id, Reminder>

    /** Every record carries its own document id. Each write keeps this;
        the methods' contracts give the whole new map and do not rely on it. */
    ghost predicate Valid()
      reads this
    {
      forall id :: id in reminders ==> reminders[id].id == id
    }

    constructor ()
      ensures Valid() && reminders == map[]
    {
      reminders := map[];
    }

    /** `form.handleSubmit(onSubmit)`: a form the schema rejects, or no
        signed-in user, writes nothing; otherwise one new record is added
        under the fresh id and nothing else changes. */
    method Add(user: Option<Id>, f: ReminderForm, freshId: Id, offset: int) returns (added: Option<Reminder>)
      requires Valid() && freshId !in reminders
      modifies this
      ensures Valid()
      ensures !(ValidReminderForm(f) && user.Some?) ==> added.None? && reminders == old(reminders)
      ensures ValidReminderForm(f) && user.Some? ==> added == Some(NewReminder(user.value, freshId, f, offset))
      ensures ValidReminderForm(f) && user.Some? ==> reminders == old(reminders)[freshId := added.value]
    {
      if !ValidReminderForm(f) || user.None? {
        return None;
      }
      var r := NewReminder(user.value, freshId, f, offset);
      reminders := reminders[freshId := r];
      added := Some(r);
    }

    /** `toggleComplete`: flips `completed` of that one reminder. */
    method ToggleComplete(id: Id)
      requires Valid()
      modifies this
      ensures Valid()
      ensures reminders == Toggled(old(reminders), id)
    {
      if id in reminders {
        var r := reminders[id];
        reminders := reminders[id := r.(completed := !r.completed)];
      }
    }

    /** `deleteReminder`: removes exactly that id. */
    method Delete(id: Id)
      requires Valid()
      modifies this
      ensures Valid()
      ensures reminders == old(reminders) - {id}
      ensures forall k :: k != id && k in old(reminders) ==> k in reminders && reminders[k] == old(reminders)[k]
    {
      reminders := reminders - {id};
    }
  }

  // ---------------------------------------------------------------------------
  // The user's list: upcoming, completed, overdue
  // ---------------------------------------------------------------------------

  predicate SortedByDateTime(v: seq<Reminder>) {
    forall i, j :: 0 <= i < j < |v| ==> v[i].dateTime <= v[j].dateTime
  }

  /** The list the query `where('userId', '==', uid), orderBy('dateTime', 'asc')`
      yields over `store`: each of the user's reminders once, ascending by date-time. */
  ghost predicate IsUserView(store: map<Id, Reminder>, uid: Id, v: seq<Reminder>) {
    && (forall i :: 0 <= i < |v| ==> v[i].id in store && store[v[i].id] == v[i] && v[i].userId == uid)
    && (forall id :: id in store && store[id].userId == uid ==> store[id] in v)
    && (forall i, j :: 0 <= i < j < |v| ==> v[i].id != v[j].id)
    && SortedByDateTime(v)
  }

  /** The reminders of `v` whose `completed` flag equals `done`, in list order. */
  function WithStatus(v: seq<Reminder>, done: bool): (u: seq<Reminder>)
    ensures forall r :: r in u <==> r in v && r.completed == done
    ensures |u| <= |v|
    decreases |v|
  {
    if v == [] then []
    else (if v[0].completed == done then [v[0]] else []) + WithStatus(v[1..], done)
  }

  /** `reminders.filter(r => !r.completed)` */
  function Upcoming(v: seq<Reminder>): seq<Reminder> { WithStatus(v, false) }

  /** `reminders.filter(r => r.completed)` */
  function Completed(v: seq<Reminder>): seq<Reminder> { WithStatus(v, true) }

  /** Upcoming and completed never share a reminder, together they are the
      whole list (with multiplicity), and each keeps the list's ascending
      date-time order. */
  lemma StatusSplit(v: seq<Reminder>)
    ensures forall r :: !(r in Upcoming(v) && r in Completed(v))
    ensures multiset(Upcoming(v)) + multiset(Completed(v)) == multiset(v)
    ensures SortedByDateTime(v) ==> SortedByDateTime(Upcoming(v)) && SortedByDateTime(Completed(v))
  {
    StatusSplitCounts(v);
    if SortedByDateTime(v) {
      FilterSorted(v, false);
      FilterSorted(v, true);
    }
  }

  lemma {:induction false} StatusSplitCounts(v: seq<Reminder>)
    ensures multiset(WithStatus(v, false)) + multiset(WithStatus(v, true)) == multiset(v)
    decreases |v|
  {
    if v != [] {
      StatusSplitCounts(v[1..]);
      assert v == [v[0]] + v[1..];
      assert multiset(v) == multiset{v[0]} + multiset(v[1..]);
    }
  }

  lemma {:induction false} FilterSorted(v: seq<Reminder>, done: bool)
    requires SortedByDateTime(v)
    ensures SortedByDateTime(WithStatus(v, done))
    decreases |v|
  {
    if v != [] {
      assert SortedByDateTime(v[1..]);
      FilterSorted(v[1..], done);
      FilterKeepsOrder(v, done);
    }
  }

  lemma FilterKeepsOrder(v: seq<Reminder>, done: bool)
    requires v != [] && SortedByDateTime(v) && SortedByDateTime(WithStatus(v[1..], done))
    ensures SortedByDateTime(WithStatus(v, done))
  {
    var rest := WithStatus(v[1..], done);
    forall r | r in rest ensures v[0].dateTime <= r.dateTime {
      var j :| 0 <= j < |v[1..]| && v[1..][j] == r;
      assert v[j + 1] == r;
    }
  }

  /** A reminder is overdue when it is not completed and its date-time is
      strictly before `now` (`isPast`). */
  predicate IsOverdue(r: Reminder, now: int) {
    !r.completed && r.dateTime < now
  }

  /** Overdue reminders are all in the upcoming list; no completed reminder
      is ever overdue, whatever the clock says. */
  lemma OverdueOnlyUpcoming(v: seq<Reminder>, now: int)
    ensures forall r :: r in v && IsOverdue(r, now) ==> r in Upcoming(v)
    ensures forall r :: r in Completed(v) ==> !IsOverdue(r, now)
  {
  }

  /** Toggling one of the user's reminders moves it between the two lists
      of the refreshed view, and a reminder is never shown in both. */
  lemma ToggleMovesBetweenLists(store: map<Id, Reminder>, uid: Id, id: Id, before: seq<Reminder>, after: seq<Reminder>)
    requires id in store && store[id].userId == uid
    requires IsUserView(store, uid, before) && IsUserView(Toggled(store, id), uid, after)
    ensures store[id] in Upcoming(before) <==> Toggled(store, id)[id] in Completed(after)
    ensures store[id] in Completed(before) <==> Toggled(store, id)[id] in Upcoming(after)
    ensures forall a, b :: a in Upcoming(after) && b in Completed(after) ==> a.id != b.id
  {
    var t := Toggled(store, id);
    assert store[id] in before;
    assert t[id] in after;
    forall a, b | a in Upcoming(after) && b in Completed(after) ensures a.id != b.id {
      var i :| 0 <= i < |after| && after[i] == a;
      var j :| 0 <= j < |after| && after[j] == b;
    }
  }
}
