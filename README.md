# Today — reminder store and detail-screen rules

A model of the plain-value core of the "Today" reminders app (a UIKit
tutorial app). It covers:

- the `Reminder` record with its defaults, and the nine-item debug seed list;
- the list controller's `reminders` array. This is the one collection the app
  changes in place, keyed by each reminder's `id`. The model covers lookup,
  replacement and completion toggling by id, the done-button handler, cell
  selection, the add flow and the edit-commit callback;
- the `ReminderListStyle` inclusion rule (today / future / all);
- the detail screen: its `Section` and `Row` enums, the viewing and editing
  snapshots, the editing-dependent `section(for:)` mapping, cell
  registration, `text(for:)`, and the field edits that the content views
  write into `workingReminder`.

Modules follow the source files: `Reminders` (Models/Reminder.swift),
`ListStyles` (Models/ReminderListStyle.swift), `ReminderStore` (the value
rules of ReminderListViewController+DataSource.swift), `ReminderList` (the
list controller class, its DataSource and Actions extensions), `DetailSections`,
`DetailRows`, `DetailSnapshots` (the snapshot values and `section(for:)` of
ReminderViewController.swift), `CellConfigurations`
(ReminderViewController+CellConfiguration.swift and the cell registration
handler) and `ReminderDetail` (the detail controller class).

Dates are whole seconds (`int`). The clock (`Date.now`), the calendar query
`isDateInToday`, date and time formatting, and generated UUIDs are all
parameters.

The definition of `Array.indexOfReminder(withId:)` is not in the app's
sources; only its call sites are (ReminderListViewController+DataSource.swift
lines 48 and 54). The model assumes it returns the first index whose reminder
carries the id. Its result indexes `reminders[index]` (lines 49 and 55), so
the id being present is a precondition. With first-match lookup, the update,
lookup and toggle properties hold without assuming distinct ids. The list
controller still keeps distinct ids as its `Valid()` invariant: the seed list
establishes it and every store write preserves it. Distinct ids are what make
an element's own id find that element (`LookupOwnId`, used by cell selection).

The diffable data source is not modelled as a diff engine. On the detail
screen, `dataSource.apply(s)` makes `s` the `applied` snapshot. On the list
screen, the definition of `updateSnapshot(reloading:)` is not in the app's
sources. Each call is modelled by appending a `Refresh` to a log, recording
the reload ids and the store at that moment.

The sources mix tutorial revisions. `ReminderViewController.init(reminder:)`
takes no closure, but both list-side callers pass one. `workingReminder` and
`isAddingNewReminder` are not declared. So:

- the edit-commit closure is `ReminderList.ReminderListViewController.CommitEdit`;
- the add flow's empty closure is `CommitAdd`;
- the working copy starts equal to `reminder`;
- `ReminderDetail.ReminderViewController.DidChangeDueDate` models the
  `onChange` closure body that `dateConfiguration(for:with:)` assigns
  (ReminderViewController+CellConfiguration.swift lines 41-43). The
  `DatePickerContentView.Configuration` shown declares no `onChange`, and the
  shown picker never reports a change, so nothing in these sources calls it.

## Model

| member | source | states |
|---|---|---|
| `Reminders.NewReminder` | Today/Today/Models/Reminder.swift:10-15 | a reminder built without notes and completion keeps id, title and date and has `notes == nil`, `isComplete == false` |
| `Reminders.NewReminderWithNotes` | Today/Today/Models/Reminder.swift:10-15 | built with notes only: notes set, `isComplete` defaults to false |
| `Reminders.SampleData` | Today/Today/Models/Reminder.swift:28-56 | exactly 9 reminders carrying the given ids; every title non-empty, every notes present, every due date after `now` |
| `Reminders.SampleDataCompleted` | Today/Today/Models/Reminder.swift:32-40 | exactly two seed reminders are complete: the 2nd, "Code review", and the 4th, "Add notes to retrospective" |
| `Reminders.SampleDataDistinct` | Today/Today/Models/Reminder.swift:11 | distinct generated ids give a seed list with distinct ids |
| `ListStyles.RawValue` | Today/Today/Models/ReminderListStyle.swift:10-13 | raw values are today=0, future=1, all=2: each style has its own value in 0...2 |
| `ListStyles.FromRawValue` | Today/Today/Models/ReminderListStyle.swift:10-13 | `ReminderListStyle(rawValue:)` succeeds exactly on 0...2 and inverts the raw value |
| `ListStyles.RawValueRoundTrip` | Today/Today/Models/ReminderListStyle.swift:10-13 | today=0, future=1, all=2 round-trip through `rawValue` |
| `ListStyles.ShouldInclude` | Today/Today/Models/ReminderListStyle.swift:15-25 | `.all` includes every date; `.today` iff the date is in today; `.future` iff strictly after now and not in today |
| `ListStyles.TodayFutureDisjoint` | Today/Today/Models/ReminderListStyle.swift:16-21 | no date is included by both `.today` and `.future` |
| `ListStyles.FutureIsStrictlyLater` | Today/Today/Models/ReminderListStyle.swift:21 | a date at or before now is never in `.future` |
| `ReminderStore.IndexOfReminder` | Today/Today/ListViewController/ReminderListViewController+DataSource.swift:48 | the index found holds the id and no earlier element does |
| `ReminderStore.IndexOfReminderUnique` | Today/Today/ListViewController/ReminderListViewController+DataSource.swift:48 | the first matching index is the only one that fits that description |
| `ReminderStore.IdsAreStoreKeys` | Today/Today/ListViewController/ReminderListViewController+DataSource.swift:47-49 | an id is among the reminders' `id`s exactly when the store can look it up, and the lookup index holds that id (the `Identifiable` key is the store's key) |
| `ReminderStore.ReminderWithId` | Today/Today/ListViewController/ReminderListViewController+DataSource.swift:47-50 | `reminder(withId:)` returns an element of the array whose id is the one asked for |
| `ReminderStore.LookupOwnId` | Today/Today/Models/Reminder.swift:10-11 | with distinct ids, looking up an element's own id returns that element |
| `ReminderStore.UpdatedFrame` | Today/Today/ListViewController/ReminderListViewController+DataSource.swift:53-56 | `updateReminder(r)` writes `r` at the matching index only; length, id order and every other element are unchanged |
| `ReminderStore.LookupAfterUpdate` | Today/Today/ListViewController/ReminderListViewController+DataSource.swift:47-56 | after `updateReminder(r)`, `reminder(withId: r.id) == r` |
| `ReminderStore.UpdatedKeepsDistinct` | Today/Today/ListViewController/ReminderListViewController+DataSource.swift:53-56 | updating keeps ids distinct |
| `ReminderStore.Toggle` | Today/Today/ListViewController/ReminderListViewController+DataSource.swift:62 | `isComplete.toggle()` flips completion and keeps id, title, due date and notes |
| `ReminderStore.ToggledFrame` | Today/Today/ListViewController/ReminderListViewController+DataSource.swift:59-64 | `completeReminder(withId:)` toggles the matching reminder only; length and id order preserved |
| `ReminderStore.ToggleInvolution` | Today/Today/ListViewController/ReminderListViewController+DataSource.swift:59-64 | completing the same id twice restores the original array |
| `ReminderStore.DoneButtonFor` | Today/Today/ListViewController/ReminderListViewController+DataSource.swift:67-75 | the symbol is "circle.fill" exactly when complete, "circle" otherwise; the button carries the reminder's id |
| `ReminderList.ReminderListViewController.constructor` | Today/Today/ListViewController/ReminderListViewController.swift:15 | the store starts as the seed list, with distinct ids when the generated ids are distinct; no refreshes or pushes yet |
| `ReminderList.ReminderListViewController.ReminderWithIdInStore` | Today/Today/ListViewController/ReminderListViewController+DataSource.swift:47-50 | returns a stored reminder with the requested id |
| `ReminderList.ReminderListViewController.UpdateReminder` | Today/Today/ListViewController/ReminderListViewController+DataSource.swift:53-56 | the store becomes `Updated(old, r)`: same length and id order, ids stay distinct, and lookup of `r.id` gives `r` |
| `ReminderList.ReminderListViewController.CompleteReminder` | Today/Today/ListViewController/ReminderListViewController+DataSource.swift:59-64 | the store becomes `Toggled(old, id)`: the matching element is toggled, all others equal, same length and id order |
| `ReminderList.ReminderListViewController.DidPressDoneButton` | Today/Today/ListViewController/ReminderListViewController+Actions.swift:12-15 | a button with nil id leaves the store unchanged; otherwise exactly the named reminder is toggled |
| `ReminderList.ReminderListViewController.DidPressAddButton` | Today/Today/ListViewController/ReminderListViewController+Actions.swift:18-34 | the new controller shows a reminder with empty title, nil notes, not complete, due now; it is marked as adding and is editing; the store is untouched |
| `ReminderList.ReminderListViewController.CommitAdd` | Today/Today/ListViewController/ReminderListViewController+Actions.swift:20-32 | the add flow's callback changes neither the store nor the refresh log |
| `ReminderList.ReminderListViewController.ShouldSelectItemAt` | Today/Today/ListViewController/ReminderListViewController.swift:39-43 | always answers false and opens the detail view of `reminders[item].id`, whose lookup gives back `reminders[item]` |
| `ReminderList.ReminderListViewController.PushDetailViewForReminder` | Today/Today/ListViewController/ReminderListViewController.swift:45-52 | the pushed controller shows the stored reminder with that id, in viewing mode |
| `ReminderList.ReminderListViewController.CommitEdit` | Today/Today/ListViewController/ReminderListViewController.swift:47-50 | the store is updated with `r` first, so lookup of `r.id` gives `r`; then one refresh reloading exactly `[r.id]` is requested, and it sees the updated store |
| `DetailSections.RawValue` | Today/Today/DetailViewController/ReminderViewController+Section.swift:14-18 | raw values lie in 0...3, and only `.view` has 0 |
| `DetailSections.FromRawValue` | Today/Today/DetailViewController/ReminderViewController+Section.swift:14-18 | `Section(rawValue: n)` succeeds exactly for 0 ≤ n ≤ 3 and inverts the raw value |
| `DetailSections.RawValueRoundTrip` | Today/Today/DetailViewController/ReminderViewController+Section.swift:14-18 | `Section(rawValue: s.rawValue) == s` |
| `DetailSections.Name` | Today/Today/DetailViewController/ReminderViewController+Section.swift:20-30 | the name is empty exactly for `.view` |
| `DetailSections.EditSectionsByRawValue` | Today/Today/DetailViewController/ReminderViewController+Section.swift:12-18 | the edit sections are exactly those with raw value ≥ 1: title, date, notes in raw-value order |
| `DetailRows.ImageName` | Today/Today/DetailViewController/ReminderViewController+Row.swift:22-29 | "calender.circle" for date, "square.and.pencil" for notes, "clock" for time, nil for every other row |
| `DetailRows.RowTextStyle` | Today/Today/DetailViewController/ReminderViewController+Row.swift:37-42 | headline exactly for the title row, subheadline otherwise |
| `DetailRows.RowEquality` | Today/Today/DetailViewController/ReminderViewController+Row.swift:14-20 | `.header(s) == .header(t)` iff `s == t`; `.header(s) != .editableText(s)` |
| `DetailSnapshots.ViewingSnapshot` | Today/Today/DetailViewController/ReminderViewController.swift:95-101 | built by appends, it is one `.view` section holding title, date, time, notes in that order |
| `DetailSnapshots.EditingSnapshot` | Today/Today/DetailViewController/ReminderViewController.swift:90-93 | sections title, date, notes with no rows |
| `DetailSnapshots.SectionFor` | Today/Today/DetailViewController/ReminderViewController.swift:103-109 | not editing: `Section(rawValue: i)`; editing: `Section(rawValue: i + 1)`; an unmatched index is excluded (fatal) |
| `DetailSnapshots.SectionForModes` | Today/Today/DetailViewController/ReminderViewController.swift:103-109 | editing maps 0, 1, 2 to title, date, notes; `.view` only for index 0 when not editing |
| `DetailSnapshots.OwnSnapshotsAgree` | Today/Today/DetailViewController/ReminderViewController.swift:90-109 | each mode's own snapshot has every section at the index `section(for:)` maps to it |
| `DetailSnapshots.ViewingSnapshotDisagreesWhenEditing` | Today/Today/DetailViewController/ReminderViewController.swift:90-109 | in editing mode the viewing snapshot's section 0 is not the section `section(for:)` names |
| `CellConfigurations.Text` | Today/Today/DetailViewController/ReminderViewController+CellConfiguration.swift:59-67 | title gives the title, notes the notes, date and time the formatted due date; header and editable text give nil |
| `CellConfigurations.TextReadsOneField` | Today/Today/DetailViewController/ReminderViewController+CellConfiguration.swift:59-67 | each row's text depends only on the reminder field it shows |
| `CellConfigurations.DefaultConfiguration` | Today/Today/DetailViewController/ReminderViewController+CellConfiguration.swift:14-20 | the configuration carries the row's text, text style and symbol name |
| `CellConfigurations.HeaderConfiguration` | Today/Today/DetailViewController/ReminderViewController+CellConfiguration.swift:23-27 | the text is the given title, nothing else set |
| `CellConfigurations.TitleConfiguration` | Today/Today/DetailViewController/ReminderViewController+CellConfiguration.swift:29-31 | the text field starts at the given title |
| `CellConfigurations.DateConfiguration` | Today/Today/DetailViewController/ReminderViewController+CellConfiguration.swift:38-40 | the picker starts at the given date |
| `CellConfigurations.NotesConfiguration` | Today/Today/DetailViewController/ReminderViewController+CellConfiguration.swift:47-49 | the text view starts at the given notes |
| `CellConfigurations.CellRegistration` | Today/Today/DetailViewController/ReminderViewController.swift:64-77 | a cell is configured, with the row's default configuration, exactly when its section maps to `.view`; any other section is fatal |
| `CellConfigurations.ViewingCellsConfigured` | Today/Today/DetailViewController/ReminderViewController.swift:64-77 | in viewing mode every row of the viewing snapshot is configured; only the title is headline and has no symbol; every row but notes has text |
| `CellConfigurations.EditingCellsFatal` | Today/Today/DetailViewController/ReminderViewController.swift:64-77 | in editing mode a cell at section 0 is never accepted |
| `ReminderDetail.ReminderViewController.constructor` | Today/Today/DetailViewController/ReminderViewController.swift:19-25 | shows the given reminder, with the working copy equal to it; not editing; nothing applied |
| `ReminderDetail.ReminderViewController.ViewDidLoad` | Today/Today/DetailViewController/ReminderViewController.swift:32-51 | the viewing snapshot is applied and matches viewing mode |
| `ReminderDetail.ReminderViewController.UpdateSnapshotForViewing` | Today/Today/DetailViewController/ReminderViewController.swift:95-101 | the applied snapshot becomes the viewing snapshot |
| `ReminderDetail.ReminderViewController.UpdateSnapshotForEditing` | Today/Today/DetailViewController/ReminderViewController.swift:90-93 | builds the editing snapshot and applies nothing |
| `ReminderDetail.ReminderViewController.SetEditing` | Today/Today/DetailViewController/ReminderViewController.swift:54-61 | sets the flag; entering edit mode leaves the applied snapshot unchanged; leaving it re-applies the viewing snapshot |
| `ReminderDetail.ReminderViewController.SetEditingApplied` | Today/Today/DetailViewController/ReminderViewController.swift:54-61 | corrected: the applied snapshot is the mode's own snapshot and always matches `section(for:)` |
| `ReminderDetail.ReminderViewController.DidChangeTitle` | Today/Today/DetailViewController/ReminderViewController+CellConfiguration.swift:32-34 | only `workingReminder.title` changes; `reminder` is unchanged |
| `ReminderDetail.ReminderViewController.DidChangeDueDate` | Today/Today/DetailViewController/ReminderViewController+CellConfiguration.swift:41-43 | only `workingReminder.dueDate` changes; `reminder` is unchanged |
| `ReminderDetail.ReminderViewController.DidChangeNotes` | Today/Today/DetailViewController/ReminderViewController+CellConfiguration.swift:50-52 | only `workingReminder.notes` changes, to the entered text; `reminder` is unchanged |
| `ReminderList.AddFlowThenLoad` | Today/Today/ListViewController/ReminderListViewController+Actions.swift:33-38 | the add flow enters editing mode before the view loads; after the load applies the viewing snapshot, the applied sections do not match `section(for:)` |
| `ReminderDetail.EditModeAfterLoad` | Today/Today/DetailViewController/ReminderViewController.swift:50-61 | after load then `setEditing(true)`, the as-written applied snapshot does not match the mode; the corrected one does |

## Left out

- Views, layout, colours, fonts as `UIFont`, `UIImage` symbols, cell accessories, background configurations, navigation and presentation (`present`, `pushViewController`, `dismiss` in `didCancelAdd`). These are UIKit calls with no rule of the app's own. A push is recorded as an id in `pushedIds`.
- The list cell's title and date text in `cellRegisterationHandler`. This is formatting only. Its done button is modelled (`DoneButtonFor`).
- Date formatting and localisation (Date+Today.swift, `NSLocalizedString`). Section names are given by their development-language text.
- The diffable data source's diffing and animation. It is framework code; snapshots are plain values here.
- UUID generation and `Date()`. They are inputs. The seed list uses one `now` for all nine reminders, while the app reads the clock once per reminder.
- The floating-point `addingTimeInterval` offsets are modelled as whole seconds. All nine offsets are integral.
- `[weak self]` captures and memory management. Each callback is a method on its owner.
- `UIContentConfiguration+Stateless.swift` is an identity pass-through. The content views are not part of this model.
- The stale copies Today/Today/ReminderListViewController.swift and Today/Today/ReminderViewController.swift are layout only.
- The four-case `text(for:)` in ReminderViewController.swift:81-88 duplicates the six-case one, which is the one modelled.
- `ReminderDetail.ReminderViewController.SetEditingApplied`: corrects the load-then-edit order only. In the add flow's source order the view loads after `setEditing(true)`, and `viewDidLoad` then applies the viewing snapshot in edit mode; no corrected `viewDidLoad` is modelled, because the sources do not show which snapshot it should apply then.
- `ReminderListStyle` is not yet used by the list controller in these sources, so no filtered list is modelled.

## Findings

| source | as written | input that shows it | evidently intended | confidence | as-written member | corrected member |
|---|---|---|---|---|---|---|
| Today/Today/DetailViewController/ReminderViewController.swift:90-93 | `updateSnapshotForEditing` builds the title/date/notes snapshot but never applies it, while `section(for:)` (103-109) already shifts indices by one in edit mode | load the detail view, then `setEditing(true)`: the applied snapshot still has `.view` at index 0, which `section(for:)` now maps to `.title`, and cell registration for any of its rows hits `fatalError` (`EditingCellsFatal`). The add flow (ReminderListViewController+Actions.swift:33-38) also reaches a loaded view with `isEditing` already true (`AddFlowThenLoad`) | apply the editing snapshot, so the applied sections always match `section(for:)` | medium, not executed | `ReminderDetail.ReminderViewController.SetEditing` | `ReminderDetail.ReminderViewController.SetEditingApplied` |
