/**
 * The `Reminder` record and the debug seed list `Reminder.sampleData`
 * (Today/Today/Models/Reminder.swift).
 */
module Reminders {
  import opened Optional

  /** A point in time, counted in whole seconds on one clock. */
  type Date = int

  /** `Reminder.ID`: the reminder's `id` string (a UUID string in the app). */
  type ReminderId = string

  /** A reminder is `Identifiable` by its `id` field. */
  datatype Reminder = Reminder(
    id: ReminderId,
    title: string,
    dueDate: Date,
    notes: Option<string>,
    isComplete: bool)

  /** The identifiers of a list of reminders, in list order. */
  function Ids(rs: seq<Reminder>): (ids: seq<ReminderId>)
    ensures |ids| == |rs|
    ensures forall i :: 0 <= i < |rs| ==> ids[i] == rs[i].id
  {
    seq(|rs|, i requires 0 <= i < |rs| => rs[i].id)
  }

  /** No two reminders of the list share an identifier. */
  predicate DistinctIds(rs: seq<Reminder>) {
    forall i, j :: 0 <= i < j < |rs| ==> rs[i].id != rs[j].id
  }

  /**
   * The memberwise initializer called without `notes` and `isComplete`:
   * both take their declared defaults.
   */
  function NewReminder(id: ReminderId, title: string, dueDate: Date): (r: Reminder)
    ensures r.id == id && r.title == title && r.dueDate == dueDate
    ensures r.notes == None && !r.isComplete
  {
    Reminder(id, title, dueDate, None, false)
  }

  /** The memberwise initializer called with `notes` but without `isComplete`. */
  function NewReminderWithNotes(id: ReminderId, title: string, dueDate: Date, notes: string): (r: Reminder)
    ensures r.id == id && r.title == title && r.dueDate == dueDate
    ensures r.notes == Some(notes) && !r.isComplete
  {
    NewReminder(id, title, dueDate).(notes := Some(notes))
  }

  /**
   * `Reminder.sampleData`: nine reminders due at fixed offsets after `now`.
   * `ids` are the UUID strings the default initializer would generate.
   */
  function SampleData(ids: seq<ReminderId>, now: Date): (rs: seq<Reminder>)
    requires |ids| == 9
    ensures |rs| == 9
    ensures Ids(rs) == ids
    ensures forall i :: 0 <= i < |rs| ==> rs[i].title != "" && rs[i].notes.Some? && rs[i].dueDate > now
  {
    [ NewReminderWithNotes(ids[0], "Submit reimbursement report", now + 800,
        "Don't forget about taxi receipts"),
      NewReminderWithNotes(ids[1], "Code review", now + 14000,
        "Check tech specs in shared folder").(isComplete := true),
      NewReminderWithNotes(ids[2], "Pick up new contacts", now + 24000,
        "Optometrist closes at 6:00PM"),
      NewReminderWithNotes(ids[3], "Add notes to retrospective", now + 3200,
        "Collaborate with project manager").(isComplete := true),
      NewReminderWithNotes(ids[4], "Interview new project manager candidate", now + 60000,
        "Review portfolio"),
      NewReminderWithNotes(ids[5], "Mock up onboarding experience", now + 72000,
        "Think different"),
      NewReminderWithNotes(ids[6], "Review usage analytics", now + 83000,
        "Discuss trends with management"),
      NewReminderWithNotes(ids[7], "Confirm group reservation", now + 92500,
        "Ask about space heaters"),
      NewReminderWithNotes(ids[8], "Add beta testers to TestFlight", now + 101000,
        "v0.9 out on Friday") ]
  }

  /**
   * Exactly two seed reminders start complete: the second, "Code review", and
   * the fourth, "Add notes to retrospective".
   */
  lemma SampleDataCompleted(ids: seq<ReminderId>, now: Date)
    requires |ids| == 9
    ensures forall i :: 0 <= i < 9 ==> (SampleData(ids, now)[i].isComplete <==> i == 1 || i == 3)
    ensures SampleData(ids, now)[1].title == "Code review"
    ensures SampleData(ids, now)[3].title == "Add notes to retrospective"
  {
  }

  /** Seeded with distinct identifiers, the seed list has distinct identifiers. */
  lemma SampleDataDistinct(ids: seq<ReminderId>, now: Date)
    requires |ids| == 9
    requires forall i, j :: 0 <= i < j < 9 ==> ids[i] != ids[j]
    ensures DistinctIds(SampleData(ids, now))
  {
    var rs := SampleData(ids, now);
    forall i, j | 0 <= i < j < |rs| ensures rs[i].id != rs[j].id {
      assert rs[i].id == Ids(rs)[i] && rs[j].id == Ids(rs)[j];
    }
  }
}
