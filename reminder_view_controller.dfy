/**
 * `ReminderViewController`
 * (Today/Today/DetailViewController/ReminderViewController.swift and
 * ReminderViewController+CellConfiguration.swift): the detail screen of one
 * reminder, its editing flag, the snapshot last applied to its data source,
 * and the field edits that the content views report back.
 */
module ReminderDetail {
  import opened Optional
  import opened Reminders
  import opened DetailSections
  import opened DetailRows
  import opened DetailSnapshots

  class ReminderViewController {
    /** The reminder shown, which `text(for:)` reads. */
    var reminder: Reminder
    /** The copy that the edit controls write to. */
    var workingReminder: Reminder
    var isEditing: bool
    var isAddingNewReminder: bool
    /** The snapshot last passed to `dataSource.apply`. */
    var applied: Snapshot

    /** `init(reminder:)`: not editing, nothing applied yet; the working copy starts as the reminder. */
    constructor (reminder: Reminder)
      ensures this.reminder == reminder && workingReminder == reminder
      ensures !isEditing && !isAddingNewReminder
      ensures applied == Empty
    {
      this.reminder := reminder;
      workingReminder := reminder;
      isEditing := false;
      isAddingNewReminder := false;
      applied := Empty;
    }

    /** `section(for:)` applied to every section of the applied snapshot gives back that section. */
    predicate SectionsMatchMode()
      reads this
    {
      ModeAgrees(isEditing, applied)
    }

    /** `viewDidLoad`: the viewing snapshot is applied. */
    method ViewDidLoad()
      modifies this`applied
      ensures applied == ViewingSnapshot()
      ensures !isEditing ==> SectionsMatchMode()
    {
      UpdateSnapshotForViewing();
      OwnSnapshotsAgree();
    }

    /** `updateSnapshotForViewing`: builds the viewing snapshot and applies it. */
    method UpdateSnapshotForViewing()
      modifies this`applied
      ensures applied == ViewingSnapshot()
    {
      var snapshot := AppendSections(Empty, [Section.View]);
      snapshot := AppendItems(snapshot, [Row.Title, Row.Date, Row.Time, Row.Notes], Section.View);
      applied := snapshot;
    }

    /**
     * `updateSnapshotForEditing`: builds the editing snapshot and, as written,
     * never applies it, so nothing observable changes.
     */
    method UpdateSnapshotForEditing() returns (built: Snapshot)
      ensures built == EditingSnapshot()
    {
      built := AppendSections(Empty, [Section.Title, Section.Date, Section.Notes]);
    }

    /**
     * `setEditing(_:animated:)` as written: entering edit mode leaves the
     * applied snapshot as it was; leaving it re-applies the viewing snapshot.
     */
    method SetEditing(editing: bool)
      modifies this`isEditing, this`applied
      ensures isEditing == editing
      ensures editing ==> applied == old(applied)
      ensures !editing ==> applied == ViewingSnapshot() && SectionsMatchMode()
    {
      isEditing := editing;
      if editing {
        var snapshot := UpdateSnapshotForEditing();
      } else {
        UpdateSnapshotForViewing();
        OwnSnapshotsAgree();
      }
    }

    /**
     * `setEditing(_:animated:)` with the editing snapshot applied, as the
     * shifted `section(for:)` mapping expects: the applied snapshot always
     * matches the mode.
     */
    method SetEditingApplied(editing: bool)
      modifies this`isEditing, this`applied
      ensures isEditing == editing
      ensures applied == if editing then EditingSnapshot() else ViewingSnapshot()
      ensures SectionsMatchMode()
    {
      isEditing := editing;
      if editing {
        var snapshot := UpdateSnapshotForEditing();
        applied := snapshot;
      } else {
        UpdateSnapshotForViewing();
      }
      OwnSnapshotsAgree();
    }

    /** The title field's `onChange`: only the working title changes. */
    method DidChangeTitle(title: string)
      modifies this`workingReminder
      ensures workingReminder == old(workingReminder).(title := title)
      ensures reminder == old(reminder)
    {
      workingReminder := workingReminder.(title := title);
    }

    /** The date picker's `onChange`: only the working due date changes. */
    method DidChangeDueDate(dueDate: Reminders.Date)
      modifies this`workingReminder
      ensures workingReminder == old(workingReminder).(dueDate := dueDate)
      ensures reminder == old(reminder)
    {
      workingReminder := workingReminder.(dueDate := dueDate);
    }

    /** The notes view's `onChange`: only the working notes change. */
    method DidChangeNotes(notes: string)
      modifies this`workingReminder
      ensures workingReminder == old(workingReminder).(notes := Some(notes))
      ensures reminder == old(reminder)
    {
      workingReminder := workingReminder.(notes := Some(notes));
    }
  }

  /**
   * After the view has loaded, entering edit mode as written leaves the
   * viewing snapshot applied while `section(for:)` already maps index 0 to
   * `.title`, so the applied snapshot no longer matches the mode; with the
   * editing snapshot applied it does.
   */
  method EditModeAfterLoad(r: Reminder) returns (asWritten: bool, corrected: bool)
    ensures !asWritten && corrected
  {
    var vc := new ReminderViewController(r);
    vc.ViewDidLoad();
    vc.SetEditing(true);
    ViewingSnapshotDisagreesWhenEditing();
    asWritten := ModeAgrees(vc.isEditing, vc.applied);

    var fixed := new ReminderViewController(r);
    fixed.ViewDidLoad();
    fixed.SetEditingApplied(true);
    corrected := ModeAgrees(fixed.isEditing, fixed.applied);
  }
}
