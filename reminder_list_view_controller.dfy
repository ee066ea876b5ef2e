/**
 * `ReminderListViewController` (Today/Today/ListViewController/): the owner
 * of the `reminders` array, the done-button and add-button handlers, cell
 * selection and the edit-commit callback handed to a detail controller.
 */
module ReminderList {
  import opened Optional
  import opened Reminders
  import opened ReminderStore
  import ReminderDetail
  import DetailSnapshots

  /**
   * One `updateSnapshot(reloading:)` request: the identifiers to reload and
   * the `reminders` array at the moment of the request.
   */
  datatype Refresh = Refresh(reloading: seq<ReminderId>, store: seq<Reminder>)

  class ReminderListViewController {
    var reminders: seq<Reminder>
    /** Snapshot refresh requests, oldest first. */
    var refreshes: seq<Refresh>
    /** Identifiers of the reminders whose detail view was pushed, oldest first. */
    var pushedIds: seq<ReminderId>

    /** Every reminder of the store has its own identifier. */
    predicate Valid()
      reads this
    {
      DistinctIds(reminders)
    }

    /**
     * The store starts as `Reminder.sampleData`, seeded with the distinct
     * generated identifiers `sampleIds` and the instant `now`.
     */
    constructor (sampleIds: seq<ReminderId>, now: Date)
      requires |sampleIds| == 9
      requires forall i, j :: 0 <= i < j < 9 ==> sampleIds[i] != sampleIds[j]
      ensures Valid()
      ensures reminders == SampleData(sampleIds, now)
      ensures refreshes == [] && pushedIds == []
    {
      reminders := SampleData(sampleIds, now);
      refreshes := [];
      pushedIds := [];
      SampleDataDistinct(sampleIds, now);
    }

    /** `reminder(withId:)`. */
    function ReminderWithIdInStore(id: ReminderId): (r: Reminder)
      reads this
      requires HasId(reminders, id)
      ensures r in reminders && r.id == id
    {
      ReminderWithId(reminders, id)
    }

    /** `updateReminder(_:)`: the element holding `r.id` becomes `r`. */
    method UpdateReminder(r: Reminder)
      requires Valid() && HasId(reminders, r.id)
      modifies this`reminders
      ensures Valid()
      ensures reminders == Updated(old(reminders), r)
      ensures |reminders| == |old(reminders)| && Ids(reminders) == Ids(old(reminders))
      ensures HasId(reminders, r.id) && ReminderWithId(reminders, r.id) == r
    {
      UpdatedFrame(reminders, r);
      LookupAfterUpdate(reminders, r);
      UpdatedKeepsDistinct(reminders, r);
      var index := IndexOfReminder(reminders, r.id);
      reminders := reminders[index := r];
    }

    /** `completeReminder(withId:)`: fetch, toggle `isComplete`, write back. */
    method CompleteReminder(id: ReminderId)
      requires Valid() && HasId(reminders, id)
      modifies this`reminders
      ensures Valid()
      ensures reminders == Toggled(old(reminders), id)
      ensures |reminders| == |old(reminders)| && Ids(reminders) == Ids(old(reminders))
      ensures var k := IndexOfReminder(old(reminders), id);
        reminders[k] == Toggle(old(reminders)[k]) &&
        forall j :: 0 <= j < |reminders| && j != k ==> reminders[j] == old(reminders)[j]
    {
      ToggledFrame(reminders, id);
      var reminder := ReminderWithIdInStore(id);
      reminder := reminder.(isComplete := !reminder.isComplete);
      UpdateReminder(reminder);
    }

    /**
     * `didPressDoneButton(_:)`: a button without an id is ignored; otherwise
     * the reminder it names is completed or reopened.
     */
    method DidPressDoneButton(sender: DoneButton)
      requires Valid()
      requires sender.id.Some? ==> HasId(reminders, sender.id.value)
      modifies this`reminders
      ensures Valid()
      ensures sender.id == None ==> reminders == old(reminders)
      ensures sender.id.Some? ==> reminders == Toggled(old(reminders), sender.id.value)
    {
      if sender.id == None {
        return;
      }
      CompleteReminder(sender.id.value);
    }

    /**
     * `didPressAddButton(_:)`: a detail controller for a new, empty reminder,
     * flagged as an addition and put in editing mode. `newId` stands for the
     * generated UUID and `now` for `Date.now`. The store is not touched.
     */
    method DidPressAddButton(newId: ReminderId, now: Date) returns (vc: ReminderDetail.ReminderViewController)
      ensures fresh(vc)
      ensures vc.reminder == NewReminder(newId, "", now)
      ensures vc.reminder.title == "" && vc.reminder.notes == None && !vc.reminder.isComplete
      ensures vc.isAddingNewReminder && vc.isEditing
      ensures reminders == old(reminders)
    {
      var reminder := NewReminder(newId, "", now);
      vc := new ReminderDetail.ReminderViewController(reminder);
      vc.isAddingNewReminder := true;
      vc.SetEditing(true);
    }

    /** The add flow's completion closure, which has no statements. */
    method CommitAdd(reminder: Reminder)
      ensures reminders == old(reminders) && refreshes == old(refreshes)
    {
    }

    /**
     * `collectionView(_:shouldSelectItemAt:)`: pushes the detail view of the
     * reminder at `item` and never lets the cell become selected.
     */
    method ShouldSelectItemAt(item: nat) returns (shouldSelect: bool)
      requires Valid() && item < |reminders|
      modifies this`pushedIds
      ensures !shouldSelect
      ensures pushedIds == old(pushedIds) + [reminders[item].id]
      ensures HasId(reminders, reminders[item].id)
      ensures ReminderWithId(reminders, reminders[item].id) == reminders[item]
    {
      LookupOwnId(reminders, item);
      var id := reminders[item].id;
      var vc := PushDetailViewForReminder(id);
      shouldSelect := false;
    }

    /** `pushDetailViewForReminder(withId:)`: a detail controller for the stored reminder. */
    method PushDetailViewForReminder(id: ReminderId) returns (vc: ReminderDetail.ReminderViewController)
      requires HasId(reminders, id)
      modifies this`pushedIds
      ensures fresh(vc)
      ensures vc.reminder == ReminderWithId(reminders, id) && !vc.isEditing
      ensures pushedIds == old(pushedIds) + [id]
    {
      var reminder := ReminderWithIdInStore(id);
      vc := new ReminderDetail.ReminderViewController(reminder);
      pushedIds := pushedIds + [id];
    }

    /**
     * The closure the detail controller calls with an edited reminder: the
     * store is written first, then a refresh reloading exactly that reminder
     * is requested, and it sees the written store.
     */
    method CommitEdit(reminder: Reminder)
      requires Valid() && HasId(reminders, reminder.id)
      modifies this`reminders, this`refreshes
      ensures Valid()
      ensures reminders == Updated(old(reminders), reminder)
      ensures HasId(reminders, reminder.id) && ReminderWithId(reminders, reminder.id) == reminder
      ensures refreshes == old(refreshes) + [Refresh([reminder.id], reminders)]
    {
      UpdateReminder(reminder);
      refreshes := refreshes + [Refresh([reminder.id], reminders)];
    }
  }

  /**
   * The add flow in source order: the new controller is put in editing mode
   * before its view is loaded, and loading then applies the viewing snapshot,
   * which does not match the editing-mode `section(for:)` mapping.
   */
  method AddFlowThenLoad(list: ReminderListViewController, newId: ReminderId, now: Date) returns (matches: bool)
    ensures !matches
  {
    var vc := list.DidPressAddButton(newId, now);
    vc.ViewDidLoad();
    DetailSnapshots.ViewingSnapshotDisagreesWhenEditing();
    matches := vc.SectionsMatchMode();
  }
}
