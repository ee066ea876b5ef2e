/**
 * The value rules behind the list controller's `reminders` array
 * (Today/Today/ListViewController/ReminderListViewController+DataSource.swift):
 * lookup, replacement and completion toggling by identifier, and the done
 * button built for one reminder.
 *
 * The definition of `Array.indexOfReminder(withId:)` is not in the app's
 * sources, only its call sites. It is modelled as the first index whose
 * reminder carries the identifier. Its result is used to index `reminders`,
 * so the identifier being present is a precondition.
 */
module ReminderStore {
  import opened Optional
  import opened Reminders

  /** Some reminder of the list carries `id`. */
  predicate HasId(rs: seq<Reminder>, id: ReminderId) {
    exists i :: 0 <= i < |rs| && rs[i].id == id
  }

  /** `reminders.indexOfReminder(withId:)`: the first position holding `id`. */
  function IndexOfReminder(rs: seq<Reminder>, id: ReminderId): (k: nat)
    requires HasId(rs, id)
    ensures k < |rs| && rs[k].id == id
    ensures forall j :: 0 <= j < k ==> rs[j].id != id
  {
    if rs[0].id == id then 0
    else
      var i :| 0 <= i < |rs| && rs[i].id == id;
      assert rs[1..][i - 1].id == id;
      1 + IndexOfReminder(rs[1..], id)
  }

  /** The first position holding `id` is the only index meeting that description. */
  lemma IndexOfReminderUnique(rs: seq<Reminder>, id: ReminderId, k: nat)
    requires k < |rs| && rs[k].id == id
    requires forall j :: 0 <= j < k ==> rs[j].id != id
    ensures HasId(rs, id) && IndexOfReminder(rs, id) == k
  {
  }

  /**
   * The identifiers of a list are exactly the keys the store can look up, and
   * the lookup index of a key holds that key.
   */
  lemma IdsAreStoreKeys(rs: seq<Reminder>, id: ReminderId)
    ensures id in Ids(rs) <==> HasId(rs, id)
    ensures HasId(rs, id) ==> Ids(rs)[IndexOfReminder(rs, id)] == id
  {
    if id in Ids(rs) {
      var i :| 0 <= i < |Ids(rs)| && Ids(rs)[i] == id;
      assert rs[i].id == id;
    }
    if HasId(rs, id) {
      var i :| 0 <= i < |rs| && rs[i].id == id;
      assert Ids(rs)[i] == id;
    }
  }

  /** `reminder(withId:)`: the stored reminder carrying `id`. */
  function ReminderWithId(rs: seq<Reminder>, id: ReminderId): (r: Reminder)
    requires HasId(rs, id)
    ensures r in rs && r.id == id
  {
    rs[IndexOfReminder(rs, id)]
  }

  /** With distinct identifiers, looking up an element's own id finds that element. */
  lemma LookupOwnId(rs: seq<Reminder>, i: nat)
    requires DistinctIds(rs) && i < |rs|
    ensures HasId(rs, rs[i].id) && ReminderWithId(rs, rs[i].id) == rs[i]
  {
    IndexOfReminderUnique(rs, rs[i].id, i);
  }

  /** The array after `updateReminder(r)`: `r` written over the element holding `r.id`. */
  function Updated(rs: seq<Reminder>, r: Reminder): (rs': seq<Reminder>)
    requires HasId(rs, r.id)
  {
    rs[IndexOfReminder(rs, r.id) := r]
  }

  /**
   * `updateReminder(r)` replaces exactly the element holding `r.id`: the
   * length, the order of identifiers and every other element are kept.
   */
  lemma UpdatedFrame(rs: seq<Reminder>, r: Reminder)
    requires HasId(rs, r.id)
    ensures |Updated(rs, r)| == |rs| && Ids(Updated(rs, r)) == Ids(rs)
    ensures Updated(rs, r)[IndexOfReminder(rs, r.id)] == r
    ensures forall j :: 0 <= j < |rs| && j != IndexOfReminder(rs, r.id) ==> Updated(rs, r)[j] == rs[j]
  {
    var rs' := Updated(rs, r);
    assert forall j :: 0 <= j < |rs| ==> Ids(rs')[j] == Ids(rs)[j];
  }

  /** After `updateReminder(r)`, `reminder(withId: r.id)` is `r`. */
  lemma {:induction false} LookupAfterUpdate(rs: seq<Reminder>, r: Reminder)
    requires HasId(rs, r.id)
    ensures HasId(Updated(rs, r), r.id)
    ensures ReminderWithId(Updated(rs, r), r.id) == r
  {
    var k := IndexOfReminder(rs, r.id);
    IndexOfReminderUnique(Updated(rs, r), r.id, k);
  }

  /** Updating keeps identifiers distinct when they were. */
  lemma UpdatedKeepsDistinct(rs: seq<Reminder>, r: Reminder)
    requires HasId(rs, r.id) && DistinctIds(rs)
    ensures DistinctIds(Updated(rs, r))
  {
    var k := IndexOfReminder(rs, r.id);
    var rs' := Updated(rs, r);
    forall i, j | 0 <= i < j < |rs'| ensures rs'[i].id != rs'[j].id {
      assert rs'[i].id == rs[i].id && rs'[j].id == rs[j].id;
    }
  }

  /** `reminder.isComplete.toggle()`. */
  function Toggle(r: Reminder): (t: Reminder)
    ensures t.id == r.id && t.title == r.title && t.dueDate == r.dueDate && t.notes == r.notes
    ensures t.isComplete != r.isComplete
  {
    r.(isComplete := !r.isComplete)
  }

  /** The array after `completeReminder(withId: id)`: look up, toggle, write back. */
  function Toggled(rs: seq<Reminder>, id: ReminderId): (rs': seq<Reminder>)
    requires HasId(rs, id)
  {
    Updated(rs, Toggle(ReminderWithId(rs, id)))
  }

  /**
   * `completeReminder(withId: id)` flips the completion of the first reminder
   * holding `id`, keeps its other fields, and changes no other element; the
   * length and the order of identifiers are kept.
   */
  lemma ToggledFrame(rs: seq<Reminder>, id: ReminderId)
    requires HasId(rs, id)
    ensures |Toggled(rs, id)| == |rs| && Ids(Toggled(rs, id)) == Ids(rs)
    ensures Toggled(rs, id)[IndexOfReminder(rs, id)] == Toggle(rs[IndexOfReminder(rs, id)])
    ensures forall j :: 0 <= j < |rs| && j != IndexOfReminder(rs, id) ==> Toggled(rs, id)[j] == rs[j]
  {
    UpdatedFrame(rs, Toggle(ReminderWithId(rs, id)));
  }

  /** Completing the same reminder twice restores the original array. */
  lemma {:induction false} ToggleInvolution(rs: seq<Reminder>, id: ReminderId)
    requires HasId(rs, id)
    ensures HasId(Toggled(rs, id), id)
    ensures Toggled(Toggled(rs, id), id) == rs
  {
    var k := IndexOfReminder(rs, id);
    var once := Toggled(rs, id);
    ToggledFrame(rs, id);
    IndexOfReminderUnique(once, id, k);
    var twice := Toggled(once, id);
    ToggledFrame(once, id);
    assert |twice| == |rs|;
    forall j | 0 <= j < |rs| ensures twice[j] == rs[j] {
      if j == k {
        assert twice[j] == Toggle(Toggle(rs[k]));
      }
    }
  }

  /** The done button of a list cell (`ReminderDoneButton` and its symbol). */
  datatype DoneButton = DoneButton(id: Option<ReminderId>, symbolName: string)

  /** `doneButtonConfiguaration(for:)`: the button's symbol and target id. */
  function DoneButtonFor(r: Reminder): (b: DoneButton)
    ensures b.id == Some(r.id)
    ensures b.symbolName == "circle.fill" <==> r.isComplete
    ensures b.symbolName == "circle" <==> !r.isComplete
  {
    DoneButton(Some(r.id), if r.isComplete then "circle.fill" else "circle")
  }
}
