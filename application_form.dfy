/** The add-application form (src/components/JobApplicationForm.tsx): six
    fields, a submit that validates them and builds a record, and the reset
    that follows a successful submit. */
module ApplicationForm {
  import opened Job

  /** The values of the six form fields at one moment. A date picker that has
      been cleared holds `None`. */
  datatype Fields = Fields(
    companyName: string,
    role: string,
    dateApplied: Option<Instant>,
    status: JobStatus,
    followUpDate: Option<Instant>,
    notes: string)

  /** The fields a fresh or just-submitted form holds. */
  function ResetFields(now: Instant): Fields
  {
    Fields("", "", Some(now), Applied, None, "")
  }

  /** A submit is accepted when company name and role are non-empty and an
      application date is picked. */
  predicate Valid(f: Fields)
  {
    f.companyName != "" && f.role != "" && f.dateApplied.Some?
  }

  /** The record a submit emits: nothing for invalid fields; otherwise the
      fields as they are, with the fresh id, the follow-up date whenever one
      is picked (whatever the status), and no notes for an empty notes field. */
  function NewApplication(f: Fields, id: string): (r: Option<JobApplication>)
    ensures r.None? <==> !Valid(f)
    ensures r.Some? ==>
      && r.value.id == id
      && r.value.companyName == f.companyName
      && r.value.role == f.role
      && f.dateApplied == Some(r.value.dateApplied)
      && r.value.status == f.status
      && r.value.followUpDate == f.followUpDate
    ensures r.Some? ==> (r.value.notes.None? <==> f.notes == "")
    ensures r.Some? && f.notes != "" ==> r.value.notes == Some(f.notes)
  {
    if !Valid(f) then None
    else Some(JobApplication(
      id, f.companyName, f.role, f.dateApplied.value, f.status, f.followUpDate,
      if f.notes == "" then None else Some(f.notes)))
  }

  /** The fields that would produce a record: the inverse of NewApplication. */
  function FieldsOf(a: JobApplication): Fields
  {
    Fields(a.companyName, a.role, Some(a.dateApplied), a.status, a.followUpDate,
      match a.notes case Some(n) => n case None => "")
  }

  /** Every record a submit emits can be typed back into the form: the form
      then holds exactly the fields that were submitted. */
  lemma FieldsOfNewApplication(f: Fields, id: string)
    requires NewApplication(f, id).Some?
    ensures FieldsOf(NewApplication(f, id).value) == f
  {
  }

  /** Conversely, a record with non-empty company and role and without empty
      notes is what submitting its own fields emits. */
  lemma NewApplicationOfFields(a: JobApplication)
    requires a.companyName != "" && a.role != "" && a.notes != Some("")
    ensures NewApplication(FieldsOf(a), a.id) == Some(a)
  {
  }

  /** A reset form cannot be submitted again: a second click emits nothing. */
  lemma ResetFormRejected(now: Instant, id: string)
    ensures NewApplication(ResetFields(now), id) == None
  {
  }

  /** The form's six `useState` fields. */
  class FormState {
    var companyName: string
    var role: string
    var dateApplied: Option<Instant>
    var status: JobStatus
    var followUpDate: Option<Instant>
    var notes: string

    /** The current values of the six fields. */
    function Snapshot(): Fields
      reads this
    {
      Fields(companyName, role, dateApplied, status, followUpDate, notes)
    }

    /** A new form: empty texts, applied today, status Applied, no follow-up. */
    constructor (now: Instant)
      ensures Snapshot() == ResetFields(now)
    {
      companyName := "";
      role := "";
      dateApplied := Some(now);
      status := Applied;
      followUpDate := None;
      notes := "";
    }

    method SetCompanyName(v: string)
      modifies this`companyName
      ensures companyName == v
    {
      companyName := v;
    }

    method SetRole(v: string)
      modifies this`role
      ensures role == v
    {
      role := v;
    }

    /** The application-date picker; clearing it gives `None`. */
    method PickDateApplied(picked: Option<Instant>)
      modifies this`dateApplied
      ensures dateApplied == picked
    {
      dateApplied := picked;
    }

    method SetStatus(v: JobStatus)
      modifies this`status
      ensures status == v
    {
      status := v;
    }

    /** The follow-up picker, shown while the status is Follow-up; the value
        it sets stays when the status changes afterwards. */
    method PickFollowUpDate(picked: Option<Instant>)
      modifies this`followUpDate
      ensures followUpDate == picked
    {
      followUpDate := picked;
    }

    method SetNotes(v: string)
      modifies this`notes
      ensures notes == v
    {
      notes := v;
    }

    /** `handleSubmit`: an invalid form emits nothing and keeps every field;
        a valid one emits the record built from the fields and the fresh id,
        then clears each field back to its initial value. */
    method Submit(freshId: string, now: Instant) returns (emitted: Option<JobApplication>)
      modifies this
      ensures emitted == NewApplication(old(Snapshot()), freshId)
      ensures emitted.None? ==> Snapshot() == old(Snapshot())
      ensures emitted.Some? ==> Snapshot() == ResetFields(now)
    {
      if companyName == "" || role == "" || dateApplied.None? {
        return None;
      }
      emitted := Some(JobApplication(
        freshId, companyName, role, dateApplied.value, status, followUpDate,
        if notes == "" then None else Some(notes)));
      companyName := "";
      role := "";
      dateApplied := Some(now);
      status := Applied;
      followUpDate := None;
      notes := "";
    }
  }
}
