/** The dashboard (src/components/Dashboard.tsx): it owns the collection,
    persists it after every change, shows follow-up reminders on mount and
    after an update, and wires the form and the list to its handlers. */
module Dashboard {
  import opened Job
  import opened Seqs
  import ApplicationList
  import ApplicationForm

  // ----- Notifications -----

  /** `toast.error` for an overdue follow-up, plain `toast` for a soon one. */
  datatype Level = ErrorLevel | InfoLevel

  /** A notification shown to the user: a follow-up reminder naming the
      company and the follow-up date, or a success confirmation. */
  datatype Toast =
    | Reminder(level: Level, company: string, followUp: Instant)
    | Success(message: string)

  const ADDED := "Application added successfully"
  const UPDATED := "Application updated successfully"
  const DELETED := "Application deleted successfully"

  /** The title a reminder is shown with: a prefix naming its level, then
      the company. */
  function ReminderTitle(t: Toast): (r: string)
    requires t.Reminder?
    ensures |t.company| < |r| && r[|r| - |t.company|..] == t.company
  {
    match t.level
    case ErrorLevel => "Overdue follow-up for " + t.company
    case InfoLevel => "Follow-up soon for " + t.company
  }

  /** Two reminders for the same company have the same title only when they
      have the same level. */
  lemma ReminderTitlesDistinct(t: Toast, u: Toast)
    requires t.Reminder? && u.Reminder? && t.company == u.company
    ensures ReminderTitle(t) == ReminderTitle(u) ==> t.level == u.level
  {
  }

  /** The reminder one record gets: an error-level one when its follow-up date
      is before now, an info-level one when it is before now plus three days,
      and none when it has no date or a later one. */
  function ReminderFor(a: JobApplication, now: Instant): (r: Option<Toast>)
    ensures r.Some? ==>
      r.value.Reminder? && r.value.company == a.companyName && a.followUpDate == Some(r.value.followUp)
    ensures r.Some? && r.value.level == ErrorLevel <==>
      a.followUpDate.Some? && a.followUpDate.value < now
    ensures r.Some? && r.value.level == InfoLevel <==>
      a.followUpDate.Some? && now <= a.followUpDate.value < now + 3 * DAY
    ensures r.None? <==> a.followUpDate.None? || now + 3 * DAY <= a.followUpDate.value
  {
    match a.followUpDate
    case None => None
    case Some(d) =>
      if IsBefore(d, now) then Some(Reminder(ErrorLevel, a.companyName, d))
      else if IsBefore(d, AddDays(now, 3)) then Some(Reminder(InfoLevel, a.companyName, d))
      else None
  }

  /** The three copies of the reminder rule — `getFollowUpStatus` (defined in
      the list view but never called), the card badge and the notification —
      put every follow-up date in the same tier, and the badge text matches
      the notification's title. */
  lemma ReminderTiersAgree(a: JobApplication, now: Instant)
    ensures var cls, badge, toast := ApplicationList.FollowUpStatus(a.followUpDate, now),
                                     ApplicationList.ReminderBadge(a.followUpDate, now),
                                     ReminderFor(a, now);
      && (cls == "follow-up-overdue" <==> badge == Some(ApplicationList.OverdueBadge))
      && (badge == Some(ApplicationList.OverdueBadge) <==> toast.Some? && toast.value.level == ErrorLevel)
      && (cls == "follow-up-soon" <==> badge == Some(ApplicationList.SoonBadge))
      && (badge == Some(ApplicationList.SoonBadge) <==> toast.Some? && toast.value.level == InfoLevel)
      && (cls == "" <==> toast.None?)
      && (badge == Some(ApplicationList.FollowUpBadge) <==> a.followUpDate.Some? && toast.None?)
      && (toast.Some? ==>
            badge.Some? && ReminderTitle(toast.value) ==
              (if ApplicationList.BadgeLabel(badge.value) == "Overdue" then "Overdue follow-up for "
               else "Follow-up soon for ") + a.companyName)
  {
  }

  /** The sequence holding the option's value, if any. */
  function OptionToSeq<T>(o: Option<T>): seq<T>
  {
    match o
    case Some(v) => [v]
    case None => []
  }

  /** The reminders a check over `apps` shows: at most one per record, each
      the reminder of some record of the collection. */
  function Reminders(apps: seq<JobApplication>, now: Instant): (r: seq<Toast>)
    ensures |r| <= |apps|
    ensures forall i :: 0 <= i < |r| ==> exists a :: a in apps && ReminderFor(a, now) == Some(r[i])
  {
    if apps == [] then []
    else
      var r := OptionToSeq(ReminderFor(apps[0], now)) + Reminders(apps[1..], now);
      assert forall i :: 0 < i < |r| && ReminderFor(apps[0], now).Some? ==> r[i] == Reminders(apps[1..], now)[i - 1];
      r
  }

  /** The reminders come in collection order: checking a concatenation checks
      each part in turn. */
  lemma {:induction false} RemindersConcat(xs: seq<JobApplication>, ys: seq<JobApplication>, now: Instant)
    ensures Reminders(xs + ys, now) == Reminders(xs, now) + Reminders(ys, now)
  {
    if xs == [] {
      assert xs + ys == ys;
    } else {
      assert (xs + ys)[1..] == xs[1..] + ys;
      RemindersConcat(xs[1..], ys, now);
    }
  }

  /** Checking one record shows exactly that record's reminder. */
  lemma RemindersOne(a: JobApplication, now: Instant)
    ensures Reminders([a], now) == OptionToSeq(ReminderFor(a, now))
  {
  }

  /** The check shows as many reminders as there are records with a due
      follow-up. */
  lemma {:induction false} RemindersCount(apps: seq<JobApplication>, now: Instant)
    ensures |Reminders(apps, now)| == |Filter(apps, (a: JobApplication) => ReminderFor(a, now).Some?)|
  {
    if apps != [] {
      RemindersCount(apps[1..], now);
    }
  }

  /** `checkFollowUpReminders`: walks the records in order and shows the
      reminder of each one that has a due follow-up date. */
  method CheckFollowUpReminders(apps: seq<JobApplication>, now: Instant) returns (shown: seq<Toast>)
    ensures shown == Reminders(apps, now)
  {
    shown := [];
    for i := 0 to |apps|
      invariant shown == Reminders(apps[..i], now)
    {
      var app := apps[i];
      RemindersConcat(apps[..i], [app], now);
      RemindersOne(app, now);
      assert apps[..i + 1] == apps[..i] + [app];
      if app.followUpDate.Some? {
        var followUp := app.followUpDate.value;
        if IsBefore(followUp, now) {
          shown := shown + [Reminder(ErrorLevel, app.companyName, followUp)];
        } else if IsBefore(followUp, AddDays(now, 3)) {
          shown := shown + [Reminder(InfoLevel, app.companyName, followUp)];
        }
      }
    }
    assert apps[..|apps|] == apps;
  }

  // ----- The new collections -----

  /** Update by id (`map` with `app.id === updated.id ? updated : app`): same
      length, every record with the updated record's id replaced by it, every
      other record unchanged in its place. */
  function ReplaceById(apps: seq<JobApplication>, u: JobApplication): (r: seq<JobApplication>)
    ensures |r| == |apps|
    ensures forall i :: 0 <= i < |apps| ==> r[i] == if apps[i].id == u.id then u else apps[i]
  {
    if apps == [] then []
    else [if apps[0].id == u.id then u else apps[0]] + ReplaceById(apps[1..], u)
  }

  /** Updating a record whose id is not in the collection changes nothing. */
  lemma ReplaceAbsent(apps: seq<JobApplication>, u: JobApplication)
    requires !HasId(apps, u.id)
    ensures ReplaceById(apps, u) == apps
  {
  }

  /** Updating with a record whose id is present puts it in the collection. */
  lemma ReplacePresent(apps: seq<JobApplication>, u: JobApplication)
    requires HasId(apps, u.id)
    ensures u in ReplaceById(apps, u)
  {
  }

  /** Updating twice with the same record is updating once. */
  lemma ReplaceIdempotent(apps: seq<JobApplication>, u: JobApplication)
    ensures ReplaceById(ReplaceById(apps, u), u) == ReplaceById(apps, u)
  {
  }

  /** An update keeps every id in its place, so unique ids stay unique. */
  lemma ReplaceKeepsIds(apps: seq<JobApplication>, u: JobApplication)
    ensures forall i :: 0 <= i < |apps| ==> ReplaceById(apps, u)[i].id == apps[i].id
    ensures UniqueIds(apps) ==> UniqueIds(ReplaceById(apps, u))
  {
  }

  /** Delete by id (`filter` with `app.id !== id`): no record with the id
      remains, and every other record is kept. */
  function RemoveById(apps: seq<JobApplication>, id: string): (r: seq<JobApplication>)
    ensures !HasId(r, id)
    ensures forall i :: 0 <= i < |apps| && apps[i].id != id ==> apps[i] in r
    ensures forall i :: 0 <= i < |r| ==> r[i] in apps
  {
    Filter(apps, (a: JobApplication) => a.id != id)
  }

  /** Deletion keeps the remaining records in their original order. */
  lemma RemoveKeepsOrder(xs: seq<JobApplication>, ys: seq<JobApplication>, id: string)
    ensures RemoveById(xs + ys, id) == RemoveById(xs, id) + RemoveById(ys, id)
  {
    FilterConcat(xs, ys, (a: JobApplication) => a.id != id);
  }

  /** Deleting an id that is not in the collection changes nothing. */
  lemma RemoveAbsent(apps: seq<JobApplication>, id: string)
    requires !HasId(apps, id)
    ensures RemoveById(apps, id) == apps
  {
    FilterKeepsAll(apps, (a: JobApplication) => a.id != id);
  }

  /** Deleting twice is deleting once. */
  lemma RemoveIdempotent(apps: seq<JobApplication>, id: string)
    ensures RemoveById(RemoveById(apps, id), id) == RemoveById(apps, id)
  {
    RemoveAbsent(RemoveById(apps, id), id);
  }

  /** With unique ids, deleting a present id removes exactly one record. */
  lemma {:induction false} RemoveOne(apps: seq<JobApplication>, id: string)
    requires UniqueIds(apps) && HasId(apps, id)
    ensures |RemoveById(apps, id)| == |apps| - 1
  {
    var rest := apps[1..];
    assert UniqueIds(rest);
    if apps[0].id == id {
      assert !HasId(rest, id);
      RemoveAbsent(rest, id);
    } else {
      assert HasId(rest, id);
      RemoveOne(rest, id);
    }
  }

  /** Appending a record with a fresh id keeps ids unique. */
  lemma AddKeepsUnique(apps: seq<JobApplication>, a: JobApplication)
    requires UniqueIds(apps) && !HasId(apps, a.id)
    ensures UniqueIds(apps + [a])
  {
  }

  /** Deleting keeps ids unique. */
  lemma {:induction false} RemoveKeepsUnique(apps: seq<JobApplication>, id: string)
    requires UniqueIds(apps)
    ensures UniqueIds(RemoveById(apps, id))
  {
    if apps != [] {
      var rest := apps[1..];
      assert UniqueIds(rest);
      RemoveKeepsUnique(rest, id);
      var tail := RemoveById(rest, id);
      assert RemoveById(apps, id) == (if apps[0].id != id then [apps[0]] else []) + tail;
      forall k | 0 <= k < |tail|
        ensures tail[k].id != apps[0].id
      {
        assert tail[k] in rest;
      }
    }
  }

  // ----- The dashboard's state -----

  /** The collection the view holds, the collection in browser storage, and
      every notification shown so far. */
  class DashboardState {
    var applications: seq<JobApplication>
    var stored: seq<JobApplication>
    var toasts: seq<Toast>

    /** Storage holds what the view holds. */
    predicate Persisted()
      reads this
    {
      stored == applications
    }

    /** Mounting: the view takes the collection loaded from storage and shows
        the reminders of that same collection. */
    constructor Mount(saved: seq<JobApplication>, now: Instant)
      ensures applications == saved && stored == saved
      ensures Persisted()
      ensures toasts == Reminders(saved, now)
    {
      applications := saved;
      stored := saved;
      var shown := CheckFollowUpReminders(saved, now);
      toasts := shown;
    }

    /** `handleAddApplication`: appends the record, saves, confirms. */
    method HandleAddApplication(a: JobApplication)
      modifies this
      ensures applications == old(applications) + [a]
      ensures Persisted()
      ensures toasts == old(toasts) + [Success(ADDED)]
    {
      applications := applications + [a];
      stored := applications;
      toasts := toasts + [Success(ADDED)];
    }

    /** `handleUpdateApplication`: replaces by id, saves, confirms, and checks
        the reminder of the updated record alone when it has a follow-up
        date. */
    method HandleUpdateApplication(u: JobApplication, now: Instant)
      modifies this
      ensures applications == ReplaceById(old(applications), u)
      ensures Persisted()
      ensures toasts == old(toasts) + [Success(UPDATED)]
        + (if u.followUpDate.Some? then OptionToSeq(ReminderFor(u, now)) else [])
    {
      applications := ReplaceById(applications, u);
      stored := applications;
      toasts := toasts + [Success(UPDATED)];
      if u.followUpDate.Some? {
        var shown := CheckFollowUpReminders([u], now);
        RemindersOne(u, now);
        toasts := toasts + shown;
      }
    }

    /** `handleDeleteApplication`: removes by id, saves, confirms. */
    method HandleDeleteApplication(id: string)
      modifies this
      ensures applications == RemoveById(old(applications), id)
      ensures Persisted()
      ensures toasts == old(toasts) + [Success(DELETED)]
    {
      applications := RemoveById(applications, id);
      stored := applications;
      toasts := toasts + [Success(DELETED)];
    }

    /** The form's submit, wired to `handleAddApplication`: a valid form adds
        its record; an invalid one changes nothing here. */
    method SubmitForm(form: ApplicationForm.FormState, freshId: string, now: Instant)
      returns (added: Option<JobApplication>)
      modifies this, form
      requires Persisted()
      ensures added == ApplicationForm.NewApplication(old(form.Snapshot()), freshId)
      ensures added.Some? ==> form.Snapshot() == ApplicationForm.ResetFields(now)
      ensures added.None? ==> form.Snapshot() == old(form.Snapshot())
      ensures applications == old(applications) + OptionToSeq(added)
      ensures Persisted()
      ensures toasts == old(toasts) + if added.Some? then [Success(ADDED)] else []
    {
      added := form.Submit(freshId, now);
      if added.Some? {
        HandleAddApplication(added.value);
      }
    }

    /** The list's save, wired to `handleUpdateApplication`. */
    method SaveEdit(list: ApplicationList.ListState, now: Instant)
      modifies this, list`editing
      requires Persisted()
      ensures list.editing == None
      ensures applications == match old(list.editing)
        case Some(u) => ReplaceById(old(applications), u)
        case None => old(applications)
      ensures Persisted()
      ensures toasts == match old(list.editing)
        case Some(u) => old(toasts) + [Success(UPDATED)]
          + (if u.followUpDate.Some? then OptionToSeq(ReminderFor(u, now)) else [])
        case None => old(toasts)
    {
      var update := list.HandleSaveEdit();
      if update.Some? {
        HandleUpdateApplication(update.value, now);
      }
    }

    /** The list's confirmed delete, wired to `handleDeleteApplication`. */
    method ConfirmDelete(list: ApplicationList.ListState, id: string)
      modifies this, list`deleteDialog
      ensures list.deleteDialog == None
      ensures applications == RemoveById(old(applications), id)
      ensures Persisted()
      ensures toasts == old(toasts) + [Success(DELETED)]
    {
      var deleteRequest := list.HandleDelete(id);
      HandleDeleteApplication(deleteRequest);
    }
  }

  /** Adding a record and mounting the dashboard again loads that record
      back from storage. */
  method AddThenReload(saved: seq<JobApplication>, a: JobApplication, now: Instant)
    returns (reloaded: seq<JobApplication>)
    ensures reloaded == saved + [a]
    ensures a in reloaded
  {
    var board := new DashboardState.Mount(saved, now);
    board.HandleAddApplication(a);
    var again := new DashboardState.Mount(board.stored, now);
    reloaded := again.applications;
  }
}
