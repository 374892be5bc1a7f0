/** The list view (src/components/JobApplicationList.tsx): the status badge
    class, the two follow-up reminder indicators, the search filter and the
    view's own edit / delete-dialog / search state. */
module ApplicationList {
  import opened Job
  import opened Seqs

  // ----- Status badge class -----

  /** The CSS class of the badge that shows a status. The source's `default`
      branch returns "", but no JobStatus reaches it. */
  function StatusClass(s: JobStatus): (r: string)
    ensures |r| > 0
  {
    match s
    case Applied => "status-applied"
    case Interviewing => "status-interviewing"
    case Offer => "status-offer"
    case Rejected => "status-rejected"
    case FollowUp => "status-follow-up"
  }

  /** Different statuses are shown with different classes. */
  lemma StatusClassInjective(s: JobStatus, t: JobStatus)
    ensures StatusClass(s) == StatusClass(t) ==> s == t
  {
  }

  // ----- Follow-up reminder indicators -----

  /** `getFollowUpStatus`: overdue when the date is before now, soon when it
      is before now plus three days, and "" otherwise or when there is no
      date. The list view defines it but never calls it: a card shows only
      the status class and the reminder badge. */
  function FollowUpStatus(followUp: Option<Instant>, now: Instant): (r: string)
    ensures r == "follow-up-overdue" <==> followUp.Some? && followUp.value < now
    ensures r == "follow-up-soon" <==> followUp.Some? && now <= followUp.value < now + 3 * DAY
    ensures r == "" <==> followUp.None? || now + 3 * DAY <= followUp.value
  {
    match followUp
    case None => ""
    case Some(d) =>
      if IsBefore(d, now) then "follow-up-overdue"
      else if IsBefore(d, AddDays(now, 3)) then "follow-up-soon"
      else ""
  }

  /** The boundaries of the tiers: a date equal to now is soon, not overdue;
      a date exactly three days ahead is neither. */
  lemma FollowUpBoundaries(now: Instant)
    ensures FollowUpStatus(Some(now - 1), now) == "follow-up-overdue"
    ensures FollowUpStatus(Some(now), now) == "follow-up-soon"
    ensures FollowUpStatus(Some(now + 3 * DAY - 1), now) == "follow-up-soon"
    ensures FollowUpStatus(Some(now + 3 * DAY), now) == ""
  {
  }

  /** The three reminder badges a card can show. */
  datatype Badge = OverdueBadge | SoonBadge | FollowUpBadge

  /** The variant a badge is drawn with. */
  function BadgeVariant(b: Badge): string
  {
    match b
    case OverdueBadge => "destructive"
    case SoonBadge => "default"
    case FollowUpBadge => "outline"
  }

  /** The text a badge shows. */
  function BadgeLabel(b: Badge): string
  {
    match b
    case OverdueBadge => "Overdue"
    case SoonBadge => "Follow-up Soon"
    case FollowUpBadge => "Follow-up"
  }

  /** The three badges look different: each has its own variant and its own
      text. */
  lemma BadgesDistinct(b: Badge, c: Badge)
    ensures BadgeVariant(b) == BadgeVariant(c) ==> b == c
    ensures BadgeLabel(b) == BadgeLabel(c) ==> b == c
  {
  }

  /** The reminder badge of a card: none without a date, and one of the three
      tiers whenever a date is present. */
  function ReminderBadge(followUp: Option<Instant>, now: Instant): (r: Option<Badge>)
    ensures r.None? <==> followUp.None?
    ensures r == Some(OverdueBadge) <==> followUp.Some? && followUp.value < now
    ensures r == Some(SoonBadge) <==> followUp.Some? && now <= followUp.value < now + 3 * DAY
    ensures r == Some(FollowUpBadge) <==> followUp.Some? && now + 3 * DAY <= followUp.value
  {
    match followUp
    case None => None
    case Some(d) =>
      if IsBefore(d, now) then Some(OverdueBadge)
      else if IsBefore(d, AddDays(now, 3)) then Some(SoonBadge)
      else Some(FollowUpBadge)
  }

  // ----- Search -----

  /** `toLowerCase` on one character, for ASCII letters. */
  function LowerChar(c: char): char
  {
    if 'A' <= c <= 'Z' then (c as int + 32) as char else c
  }

  /** `toLowerCase` on a string, for ASCII letters. */
  function ToLower(s: string): string
  {
    seq(|s|, i requires 0 <= i < |s| => LowerChar(s[i]))
  }

  /** Lower-casing twice is lower-casing once. */
  lemma ToLowerIdempotent(s: string)
    ensures ToLower(ToLower(s)) == ToLower(s)
  {
  }

  /** `needle` occurs in `hay` starting at offset `k`. */
  predicate OccursAt(hay: string, needle: string, k: int)
  {
    0 <= k <= |hay| - |needle| && hay[k..k + |needle|] == needle
  }

  /** `hay.includes(needle)`: `needle` occurs in `hay` at some offset. */
  function Includes(hay: string, needle: string): (r: bool)
    ensures r <==> exists k :: OccursAt(hay, needle, k)
    decreases |hay|
  {
    if needle <= hay then
      assert OccursAt(hay, needle, 0);
      true
    else if |hay| <= |needle| then
      false
    else
      var rest := Includes(hay[1..], needle);
      assert forall k :: OccursAt(hay[1..], needle, k) ==> OccursAt(hay, needle, k + 1);
      assert forall k :: OccursAt(hay, needle, k) ==> k >= 1 && OccursAt(hay[1..], needle, k - 1);
      rest
  }

  /** A record matches a search term when its lower-cased company name or
      role contains the lower-cased term. */
  predicate Matches(a: JobApplication, term: string)
  {
    Includes(ToLower(a.companyName), ToLower(term)) || Includes(ToLower(a.role), ToLower(term))
  }

  /** `filteredApplications`: the records that match the term. */
  function Search(apps: seq<JobApplication>, term: string): (r: seq<JobApplication>)
    ensures |r| <= |apps|
    ensures forall a :: a in r <==> a in apps && Matches(a, term)
  {
    Filter(apps, a => Matches(a, term))
  }

  /** The search keeps the order of the collection: searching a concatenation
      searches each part. */
  lemma SearchKeepsOrder(xs: seq<JobApplication>, ys: seq<JobApplication>, term: string)
    ensures Search(xs + ys, term) == Search(xs, term) + Search(ys, term)
  {
    FilterConcat(xs, ys, a => Matches(a, term));
  }

  /** On a single record the search keeps it exactly when it matches. */
  lemma SearchOne(a: JobApplication, term: string)
    ensures Search([a], term) == if Matches(a, term) then [a] else []
  {
  }

  /** An empty term matches every record, so the whole collection is shown. */
  lemma SearchEmptyTerm(apps: seq<JobApplication>)
    ensures Search(apps, "") == apps
  {
    forall i | 0 <= i < |apps|
      ensures Matches(apps[i], "")
    {
      assert ToLower(apps[i].companyName)[0..0] == ToLower("");
    }
    FilterKeepsAll(apps, a => Matches(a, ""));
  }

  /** The search ignores the case of the term. */
  lemma SearchIgnoresCase(apps: seq<JobApplication>, term: string)
    ensures Search(apps, ToLower(term)) == Search(apps, term)
  {
    ToLowerIdempotent(term);
    FilterAgree(apps, a => Matches(a, ToLower(term)), a => Matches(a, term));
  }

  /** Searching the result again with the same term changes nothing. */
  lemma SearchIdempotent(apps: seq<JobApplication>, term: string)
    ensures Search(Search(apps, term), term) == Search(apps, term)
  {
    FilterIdempotent(apps, a => Matches(a, term));
  }

  // ----- Editing a record -----

  /** One change made in the inline edit form of a card. A cleared date
      picker yields `None`. */
  datatype FieldEdit =
    | SetCompanyName(companyName: string)
    | SetRole(role: string)
    | PickDateApplied(picked: Option<Instant>)
    | SetStatus(status: JobStatus)
    | PickFollowUpDate(picked: Option<Instant>)
    | SetNotes(notes: string)

  /** The editing copy after one change: the edited field takes the new value
      (a cleared application date becomes now, a cleared follow-up date is
      removed, notes are kept even when empty), and nothing else changes,
      in particular not the id. */
  function ApplyEdit(a: JobApplication, e: FieldEdit, now: Instant): (r: JobApplication)
    ensures r.id == a.id
    ensures r.companyName == if e.SetCompanyName? then e.companyName else a.companyName
    ensures r.role == if e.SetRole? then e.role else a.role
    ensures r.dateApplied == match e
      case PickDateApplied(Some(d)) => d
      case PickDateApplied(None) => now
      case _ => a.dateApplied
    ensures r.status == if e.SetStatus? then e.status else a.status
    ensures r.followUpDate == if e.PickFollowUpDate? then e.picked else a.followUpDate
    ensures r.notes == if e.SetNotes? then Some(e.notes) else a.notes
  {
    match e
    case SetCompanyName(v) => a.(companyName := v)
    case SetRole(v) => a.(role := v)
    case PickDateApplied(picked) =>
      a.(dateApplied := match picked case Some(d) => d case None => now)
    case SetStatus(v) => a.(status := v)
    case PickFollowUpDate(picked) => a.(followUpDate := picked)
    case SetNotes(v) => a.(notes := Some(v))
  }

  // ----- The view's own state -----

  /** The state the list view keeps: the record being edited, the record
      whose delete dialog is open, and the search term. */
  class ListState {
    var editing: Option<JobApplication>
    var deleteDialog: Option<string>
    var searchTerm: string

    constructor ()
      ensures editing == None && deleteDialog == None && searchTerm == ""
    {
      editing := None;
      deleteDialog := None;
      searchTerm := "";
    }

    /** The records the view shows for the current term: those that match
        it, in collection order. */
    function Visible(apps: seq<JobApplication>): (r: seq<JobApplication>)
      reads this
      ensures forall a :: a in r <==> a in apps && Matches(a, searchTerm)
    {
      Search(apps, searchTerm)
    }

    /** A card is in edit mode when the editing copy has its id. */
    predicate IsEditing(a: JobApplication)
      reads this
    {
      editing.Some? && editing.value.id == a.id
    }

    /** Typing in the search box. */
    method SetSearchTerm(term: string)
      modifies this`searchTerm
      ensures searchTerm == term
      ensures forall apps :: Visible(apps) == Search(apps, term)
    {
      searchTerm := term;
    }

    /** `handleEdit`: the editing copy becomes the chosen record, so the card
        with that id switches to edit mode. */
    method HandleEdit(a: JobApplication)
      modifies this`editing
      ensures editing == Some(a)
      ensures IsEditing(a)
    {
      editing := Some(a);
    }

    /** A change in the inline edit form; the form only exists while a record
        is being edited. */
    method EditField(e: FieldEdit, now: Instant)
      requires editing.Some?
      modifies this`editing
      ensures editing == Some(ApplyEdit(old(editing).value, e, now))
      ensures editing.value.id == old(editing).value.id
    {
      editing := Some(ApplyEdit(editing.value, e, now));
    }

    /** `handleSaveEdit`: hands the editing copy to the update callback, when
        there is one, and leaves edit mode. */
    method HandleSaveEdit() returns (update: Option<JobApplication>)
      modifies this`editing
      ensures update == old(editing)
      ensures editing == None
    {
      update := editing;
      if editing.Some? {
        editing := None;
      }
    }

    /** `handleCancelEdit`: leaves edit mode without any update. */
    method HandleCancelEdit()
      modifies this`editing
      ensures editing == None
    {
      editing := None;
    }

    /** Clicking a card's delete button opens its confirmation dialog. */
    method OpenDeleteDialog(id: string)
      modifies this`deleteDialog
      ensures deleteDialog == Some(id)
    {
      deleteDialog := Some(id);
    }

    /** Cancelling or dismissing the confirmation dialog. */
    method CloseDeleteDialog()
      modifies this`deleteDialog
      ensures deleteDialog == None
    {
      deleteDialog := None;
    }

    /** `handleDelete`: asks for the deletion of exactly `id` and closes the
        dialog. */
    method HandleDelete(id: string) returns (deleteRequest: string)
      modifies this`deleteDialog
      ensures deleteRequest == id
      ensures deleteDialog == None
    {
      deleteRequest := id;
      deleteDialog := None;
    }
  }
}
