# Job-application tracker: reminder, collection and statistics logic

A Dafny model of the logic core of a single-user job-application tracker,
a React app that keeps its records in browser storage. Users add applications
through a form. A list shows them, with search, inline editing, deletion and
follow-up reminder badges. A statistics card shows how many applications are
in each status and how many were sent in each of the last four weeks. When
the dashboard mounts, and when a record with a follow-up date is updated,
reminders for due follow-ups pop up.

Instants are whole milliseconds (`Job.Instant = int`). A day is the fixed
`Job.DAY = 86_400_000`. So `isBefore(a, b)` is `a < b`, `addDays(t, n)` is
`t + n * DAY` and `subDays(t, n)` is `t - n * DAY`. The current time is passed
in as `now` wherever the source calls `new Date()`. The UUID of a new record is
passed in as `freshId`.

Modules, one per source file:

- `Job` (src/types/job.ts): the record, the five statuses, the date helpers.
- `Seqs`: `Filter` (the source's `Array.prototype.filter`) and its laws.
- `ApplicationList` (src/components/JobApplicationList.tsx): status classes,
  the follow-up class (`getFollowUpStatus`, defined but never called by the
  view) and the reminder badge, the case-insensitive search, the inline edit
  of one field, and the class `ListState` for the view's editing, delete-dialog
  and search-term state.
- `Stats` (src/components/JobStats.tsx): the status `reduce`, the pie data and
  the four weekly buckets.
- `ApplicationForm` (src/components/JobApplicationForm.tsx): the class
  `FormState` with the six form fields, and `Submit`, specified by the pure
  `NewApplication`.
- `Dashboard` (src/components/Dashboard.tsx): the reminder check, update by id
  and delete by id. The class `DashboardState` holds the in-memory collection,
  the stored collection and the notifications shown. Its handlers, and the
  wiring of form and list to them, are methods of that class.

Behaviour of the code that the model keeps:

- Updating with an id that is not in the collection silently changes nothing
  (`Dashboard.ReplaceAbsent`). It does not fail.
- Adding a record does not run the reminder check. Only mounting does, and an
  update of a record that has a follow-up date.
- For an empty collection the statistics card shows a prompt, not four empty
  bars (`Stats.Render`).
- The weekly windows leave a gap between consecutive weeks (see Findings).

## Model

| member | source | states |
|---|---|---|
| `Job.StatusesEnumerated` | src/types/job.ts:2 | The five statuses are listed once each, in the declared order, and their names tell them apart. |
| `ApplicationList.StatusClass` | src/components/JobApplicationList.tsx:20-35 | Every status has a non-empty badge class; the `default` branch is unreachable. |
| `ApplicationList.StatusClassInjective` | src/components/JobApplicationList.tsx:20-35 | Different statuses get different classes. |
| `ApplicationList.FollowUpStatus` | src/components/JobApplicationList.tsx:37-49 | `getFollowUpStatus`, which the view defines but never calls: "follow-up-overdue" iff a date is present and before now; "follow-up-soon" iff now <= date < now + 3 days; "" iff no date or date >= now + 3 days. |
| `ApplicationList.FollowUpBoundaries` | src/components/JobApplicationList.tsx:43-47 | A date equal to now is soon, not overdue. Now + 3 days minus 1 ms is still soon. Now + 3 days exactly is neither. |
| `ApplicationList.ReminderBadge` | src/components/JobApplicationList.tsx:51-78 | No badge iff no date. With a date: Overdue iff before now, Follow-up Soon iff in [now, now + 3 days), and a plain Follow-up badge otherwise. |
| `ApplicationList.BadgesDistinct` | src/components/JobApplicationList.tsx:58-76 | The three reminder badges differ in variant ("destructive", "default", "outline") and in text ("Overdue", "Follow-up Soon", "Follow-up"). |
| `ApplicationList.ToLowerIdempotent` | src/components/JobApplicationList.tsx:90-91 | Lower-casing an already lower-cased string changes nothing. |
| `ApplicationList.Includes` | src/components/JobApplicationList.tsx:90-91 | `includes` holds iff the needle occurs at some offset of the haystack. |
| `ApplicationList.Search` | src/components/JobApplicationList.tsx:89-92 | The result holds exactly those records of the collection whose lower-cased company name or role contains the lower-cased term. It is never longer than the collection. |
| `ApplicationList.SearchKeepsOrder` | src/components/JobApplicationList.tsx:89-92 | Searching a concatenation is the concatenation of the searches, so the result keeps collection order. |
| `ApplicationList.SearchOne` | src/components/JobApplicationList.tsx:89-92 | A single record is kept iff it matches. |
| `ApplicationList.SearchEmptyTerm` | src/components/JobApplicationList.tsx:89-92 | An empty term returns the whole collection unchanged. |
| `ApplicationList.SearchIgnoresCase` | src/components/JobApplicationList.tsx:89-92 | Lower-casing the term first gives the same result. |
| `ApplicationList.SearchIdempotent` | src/components/JobApplicationList.tsx:89-92 | Searching the result again with the same term changes nothing. |
| `ApplicationList.ApplyEdit` | src/components/JobApplicationList.tsx:161-275 | One edit sets the edited field. A cleared application date becomes now, a cleared follow-up date is removed, and notes are kept even when empty. Every other field keeps its value, and the id always does. |
| `ApplicationList.ListState.constructor` | src/components/JobApplicationList.tsx:85-87 | Nothing is being edited, no delete dialog is open, and the search term is empty. |
| `ApplicationList.ListState.Visible` | src/components/JobApplicationList.tsx:89-92 | The shown records are exactly those of the collection that match the current term. |
| `ApplicationList.ListState.SetSearchTerm` | src/components/JobApplicationList.tsx:129 | The term becomes the typed text, and from then on the view shows `Search` of the collection with that term; nothing else changes. |
| `ApplicationList.ListState.HandleEdit` | src/components/JobApplicationList.tsx:94-100 | The editing copy equals the chosen record, so its card is in edit mode. |
| `ApplicationList.ListState.EditField` | src/components/JobApplicationList.tsx:161-275 | The editing copy becomes `ApplyEdit` of the old copy and keeps its id. |
| `ApplicationList.ListState.HandleSaveEdit` | src/components/JobApplicationList.tsx:102-107 | The update callback receives exactly the editing copy, if there is one, and edit mode ends. |
| `ApplicationList.ListState.HandleCancelEdit` | src/components/JobApplicationList.tsx:109-111 | Edit mode ends and no update is requested. |
| `ApplicationList.ListState.OpenDeleteDialog` | src/components/JobApplicationList.tsx:322 | The dialog for that id is open. |
| `ApplicationList.ListState.CloseDeleteDialog` | src/components/JobApplicationList.tsx:317-333 | No dialog is open. |
| `ApplicationList.ListState.HandleDelete` | src/components/JobApplicationList.tsx:113-116 | The delete callback receives exactly the given id, and the dialog closes. |
| `Stats.InitialCountsComplete` | src/components/JobStats.tsx:42-48 | The initial accumulator has all five statuses, each at 0. |
| `Stats.Tally` | src/components/JobStats.tsx:39-41 | The fold keeps every key it started with. Each entry ends as its start value plus the number of records with that status. |
| `Stats.StatusCounts` | src/components/JobStats.tsx:39-48 | All five statuses are keys, zero-count ones included. Each count is the number of records with that status. |
| `Stats.StatusCountsSum` | src/components/JobStats.tsx:39-48 | The five counts add up to the size of the collection. |
| `Stats.PieData` | src/components/JobStats.tsx:50-53 | Five slices in the order Applied, Interviewing, Offer, Rejected, Follow-up, each with the matching status name and count. |
| `Stats.PieDataTotal` | src/components/JobStats.tsx:50-53 | The slice values add up to the size of the collection. |
| `Stats.Last4Weeks` | src/components/JobStats.tsx:69-82 | Four buckets named "Week 1" to "Week 4", oldest first. Bucket j ends 7·(3−j) days before now and starts 6 days before its end. Its count is the number of records applied in that window, both ends included. |
| `Stats.WeeksDisjoint` | src/components/JobStats.tsx:70-74 | No instant lies in two windows. |
| `Stats.OutsideAllWeeks` | src/components/JobStats.tsx:65-74 | A date after now, or more than 27 days before now, is in no window. |
| `Stats.Last4WeeksTotal` | src/components/JobStats.tsx:69-82 | The four counts add up to at most the size of the collection. |
| `Stats.GapIsUncounted` | src/components/JobStats.tsx:70-74 | Adding a record applied 6 days and 1 ms before now changes no bucket count. |
| `Stats.ContiguousWeeks` | src/components/JobStats.tsx:69-82 | The corrected buckets. Bucket j covers (end − 7 days, end], with the same ends and names as the source's buckets. |
| `Stats.ContiguousWeeksCoverAll` | src/components/JobStats.tsx:69-82 | The corrected counts add up to exactly the number of records applied in the last 28 days. |
| `Stats.Render` | src/components/JobStats.tsx:22-36 | The card shows the prompt iff the collection is empty. Otherwise it shows five slices and four bars: exactly `PieData` and the as-written `Last4Weeks` of the collection. |
| `ApplicationForm.NewApplication` | src/components/JobApplicationForm.tsx:32-45 | No record iff company name or role is empty or no application date is picked. Otherwise it builds a record with the fresh id and the fields as entered. The follow-up date is kept whatever the status. Notes are absent iff the notes field is empty. |
| `ApplicationForm.FieldsOfNewApplication` | src/components/JobApplicationForm.tsx:37-45 | Reading an emitted record back into form fields gives exactly the submitted fields. |
| `ApplicationForm.NewApplicationOfFields` | src/components/JobApplicationForm.tsx:37-45 | Submitting a record's own fields with its id rebuilds that record, when company and role are non-empty and notes are not the empty string. |
| `ApplicationForm.ResetFormRejected` | src/components/JobApplicationForm.tsx:49-55 | A reset form emits nothing when submitted. |
| `ApplicationForm.FormState.constructor` | src/components/JobApplicationForm.tsx:22-27 | The initial fields are the reset fields: empty texts, applied now, status Applied, no follow-up date, empty notes. |
| `ApplicationForm.FormState.SetCompanyName` | src/components/JobApplicationForm.tsx:71 | Only the company name changes. |
| `ApplicationForm.FormState.SetRole` | src/components/JobApplicationForm.tsx:81 | Only the role changes. |
| `ApplicationForm.FormState.PickDateApplied` | src/components/JobApplicationForm.tsx:108 | Only the application date changes; clearing the picker clears it. |
| `ApplicationForm.FormState.SetStatus` | src/components/JobApplicationForm.tsx:120 | Only the status changes; a picked follow-up date stays. |
| `ApplicationForm.FormState.PickFollowUpDate` | src/components/JobApplicationForm.tsx:156 | Only the follow-up date changes. |
| `ApplicationForm.FormState.SetNotes` | src/components/JobApplicationForm.tsx:170 | Only the notes change. |
| `ApplicationForm.FormState.Submit` | src/components/JobApplicationForm.tsx:29-56 | The emitted value is `NewApplication` of the fields before the call. If nothing is emitted, every field is unchanged. If a record is emitted, the fields are reset, with the application date set to now. |
| `Dashboard.ReminderFor` | src/components/Dashboard.tsx:27-48 | An error-level reminder iff the follow-up date is before now. An info-level one iff it is in [now, now + 3 days). None iff there is no date or it is later. A reminder names the record's company and carries its follow-up date. |
| `Dashboard.ReminderTitle` | src/components/Dashboard.tsx:33-41 | A reminder's title ends with the company name, after a prefix that names its level. |
| `Dashboard.ReminderTitlesDistinct` | src/components/Dashboard.tsx:33-41 | Two reminders for the same company have the same title only when they have the same level. |
| `Dashboard.ReminderTiersAgree` | src/components/Dashboard.tsx:24-49 | The unused `getFollowUpStatus`, the card badge and the notification put every follow-up date in the same tier. When a notification is shown, the badge is present and its text ("Overdue" or not) matches the title's prefix. |
| `Dashboard.Reminders` | src/components/Dashboard.tsx:24-49 | At most one reminder per record. Each reminder is the reminder of some record of the collection. |
| `Dashboard.RemindersConcat` | src/components/Dashboard.tsx:27 | Reminders come in collection order: checking a concatenation checks each part in turn. |
| `Dashboard.RemindersOne` | src/components/Dashboard.tsx:27-48 | Checking one record shows exactly that record's reminder. |
| `Dashboard.RemindersCount` | src/components/Dashboard.tsx:27-48 | The number of reminders equals the number of records with a due follow-up. |
| `Dashboard.CheckFollowUpReminders` | src/components/Dashboard.tsx:24-49 | The loop shows exactly `Reminders` of the records, in order. |
| `Dashboard.ReplaceById` | src/components/Dashboard.tsx:58-61 | Same length. Every record with the updated id becomes the updated record. Every other record is unchanged in its place. |
| `Dashboard.ReplaceAbsent` | src/components/Dashboard.tsx:59-61 | An update whose id is not present leaves the collection identical. |
| `Dashboard.ReplacePresent` | src/components/Dashboard.tsx:59-61 | An update whose id is present puts the updated record in the collection. |
| `Dashboard.ReplaceIdempotent` | src/components/Dashboard.tsx:59-61 | Applying the same update twice is applying it once. |
| `Dashboard.ReplaceKeepsIds` | src/components/Dashboard.tsx:59-61 | Every id stays in its place, so unique ids stay unique. |
| `Dashboard.RemoveById` | src/components/Dashboard.tsx:72-73 | No record with the id remains. Every record with another id is kept, and nothing new appears. |
| `Dashboard.RemoveKeepsOrder` | src/components/Dashboard.tsx:73 | Deleting from a concatenation deletes from each part, so the remaining records keep their order. |
| `Dashboard.RemoveAbsent` | src/components/Dashboard.tsx:73 | Deleting an absent id changes nothing. |
| `Dashboard.RemoveIdempotent` | src/components/Dashboard.tsx:73 | Deleting twice is deleting once. |
| `Dashboard.RemoveOne` | src/components/Dashboard.tsx:73 | With unique ids, deleting a present id shortens the collection by exactly one. |
| `Dashboard.RemoveKeepsUnique` | src/components/Dashboard.tsx:73 | Deleting keeps ids unique. |
| `Dashboard.AddKeepsUnique` | src/components/Dashboard.tsx:52 | Appending a record with a fresh id keeps ids unique. |
| `Dashboard.DashboardState.Mount` | src/components/Dashboard.tsx:15-21 | The collection becomes the loaded one, storage still holds it, and the reminders shown are those of that same collection. |
| `Dashboard.DashboardState.HandleAddApplication` | src/components/Dashboard.tsx:51-56 | The collection becomes the old one plus the record at the end. Storage holds the new collection. One success toast is shown. |
| `Dashboard.DashboardState.HandleUpdateApplication` | src/components/Dashboard.tsx:58-70 | The collection becomes `ReplaceById` of the old one, and storage holds it. A success toast is shown. Then, only if the updated record has a follow-up date, that record's reminder (if any) is shown. |
| `Dashboard.DashboardState.HandleDeleteApplication` | src/components/Dashboard.tsx:72-77 | The collection becomes `RemoveById` of the old one. Storage holds it. One success toast is shown. |
| `Dashboard.DashboardState.SubmitForm` | src/components/Dashboard.tsx:93 | A valid form appends its record, stores the collection, shows one success toast and resets the form. An invalid one leaves collection, toasts and form fields unchanged. |
| `Dashboard.DashboardState.SaveEdit` | src/components/Dashboard.tsx:94-98 | Saving an edit replaces the record with the editing copy's id and shows the update toasts of `HandleUpdateApplication`. Saving with nothing being edited leaves collection and toasts unchanged. Edit mode ends either way; the list's dialog and search term are untouched. |
| `Dashboard.DashboardState.ConfirmDelete` | src/components/Dashboard.tsx:94-98 | Confirming removes exactly the records with that id, shows one success toast, and closes the dialog; the list's editing copy and search term are untouched. |
| `Dashboard.AddThenReload` | src/components/Dashboard.tsx:51-54 | After an add, mounting again loads the old collection plus the added record. |

## Findings

| source | as written | input that shows it | evidently intended | confidence | as-written member | corrected member |
|---|---|---|---|---|---|---|
| src/components/JobStats.tsx:70-74 | Bucket i covers [now − 7i days − 6 days, now − 7i days], both ends inclusive, on full timestamps. Between the end of one week and the start of the next there is a one-day gap (now − 7(i+1) days, now − 7i days − 6 days) that no bucket counts. | now = any instant, dateApplied = now − 6 days − 1 ms. This record was applied within the last week but is in no bucket. A date picked as midnight six calendar days ago falls in this gap whenever the current time is after midnight. | Four contiguous seven-day windows (end − 7 days, end] that together count every record of the last 28 days exactly once. | medium; not executed | `Stats.GapIsUncounted` | `Stats.ContiguousWeeks` with `Stats.ContiguousWeeksCoverAll` |

The statistics card (`Stats.Render`) keeps the buckets as written, because
that is what the application shows. `Stats.ContiguousWeeks` gives the
corrected buckets beside them.

## Left out

- Browser storage (src/services/localStorage.ts), JSON serialisation and ISO-8601 formatting and parsing. Storage is the field `DashboardState.stored`, which every save overwrites. Loading is the collection passed to `Mount`. Parsing is taken to be exact, so an unparseable date (which `isBefore` treats as neither before nor after) is not modelled.
- Time zones and daylight saving. `addDays`/`subDays` shift by calendar days in local time; here a day is always 86 400 000 ms.
- Full Unicode `toLowerCase`. Only ASCII letters are lower-cased.
- UUID generation. The fresh id is a parameter of `Submit`.
- Toast display: icons, descriptions formatted with `format`, and the 5000 ms duration. A reminder carries its level, company and follow-up instant.
- Chart rendering, colours, the pie percentages (floating point) and the tooltip date labels. A bucket keeps its window bounds instead of the formatted label.
- Rendering and routing: src/components/Landing.tsx, src/components/Header.tsx, src/pages/Index.tsx, src/pages/DashboardPage.tsx.
- The `!status` test in the form's validation. A JobStatus is never empty, so the test never fires.
- A follow-up date that is the empty string counts as absent in the source. Here it is an `Option<Instant>`, and an ISO string is never empty.
- A save that fails (`localStorage.setItem` throwing, for example on a full quota, after `setApplications` at src/components/Dashboard.tsx:54, 63 and 75) is not modelled. In the source it leaves the in-memory collection updated, storage stale and no success toast; here every save succeeds, so `Persisted()` always holds after a handler.
- React's batching of state updates and re-rendering. Every handler is one atomic step.
