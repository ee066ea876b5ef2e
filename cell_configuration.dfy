/**
 * How the detail screen fills its cells
 * (Today/Today/DetailViewController/ReminderViewController+CellConfiguration.swift
 * and the cell registration handler of ReminderViewController.swift): the
 * text of each row and the content configurations of the row kinds.
 *
 * Date formatting is not modelled: `dayText` and `timeText` stand for
 * `Date.dayText` and the shortened time format.
 */
module CellConfigurations {
  import opened Optional
  import opened Reminders
  import opened DetailSections
  import opened DetailRows
  import opened DetailSnapshots

  /** `UIListContentConfiguration`, reduced to text, font style and symbol; `None` means the cell's default. */
  datatype ListContentConfiguration = ListContentConfiguration(
    text: Option<string>,
    textStyle: Option<TextStyle>,
    imageName: Option<string>)

  /** `TextFieldContentView.Configuration` without its `onChange` closure. */
  datatype TextFieldConfiguration = TextFieldConfiguration(text: Option<string>)

  /**
   * `DatePickerContentView.Configuration`. The declaration shown has no
   * `onChange` property, although the date configuration builder assigns one.
   */
  datatype DatePickerConfiguration = DatePickerConfiguration(date: Reminders.Date)

  /** `TextViewContentView.Configuration` without its `onChange` closure. */
  datatype TextViewConfiguration = TextViewConfiguration(text: Option<string>)

  /** `text(for:)`: the text a row shows for `reminder`; none for headers and editable text. */
  function Text(reminder: Reminder, row: Row, dayText: Reminders.Date -> string, timeText: Reminders.Date -> string): (t: Option<string>)
    ensures row.Title? ==> t == Some(reminder.title)
    ensures row.Notes? ==> t == reminder.notes
    ensures row.Date? ==> t == Some(dayText(reminder.dueDate))
    ensures row.Time? ==> t == Some(timeText(reminder.dueDate))
    ensures row.Header? || row.EditableText? ==> t == None
  {
    if row.Date? then Some(dayText(reminder.dueDate))
    else if row.Notes? then reminder.notes
    else if row.Time? then Some(timeText(reminder.dueDate))
    else if row.Title? then Some(reminder.title)
    else None
  }

  /** `text(for:)` reads nothing of the reminder but the field its row shows. */
  lemma TextReadsOneField(a: Reminder, b: Reminder, row: Row, dayText: Reminders.Date -> string, timeText: Reminders.Date -> string)
    requires row.Title? ==> a.title == b.title
    requires row.Notes? ==> a.notes == b.notes
    requires row.Date? || row.Time? ==> a.dueDate == b.dueDate
    ensures Text(a, row, dayText, timeText) == Text(b, row, dayText, timeText)
  {
  }

  /** `defaultConfiguration(for:at:)`: the row's text, font style and symbol. */
  function DefaultConfiguration(reminder: Reminder, row: Row, dayText: Reminders.Date -> string, timeText: Reminders.Date -> string): (c: ListContentConfiguration)
    ensures c.text == Text(reminder, row, dayText, timeText)
    ensures c.textStyle == Some(RowTextStyle(row))
    ensures c.imageName == ImageName(row)
  {
    ListContentConfiguration(Text(reminder, row, dayText, timeText), Some(RowTextStyle(row)), ImageName(row))
  }

  /** `headerConfiguration(for:with:)`: a default cell showing `title`. */
  function HeaderConfiguration(title: string): (c: ListContentConfiguration)
    ensures c.text == Some(title) && c.textStyle == None && c.imageName == None
  {
    ListContentConfiguration(Some(title), None, None)
  }

  /** `titleConfiguration(for:with:)`: a text field starting at `title`. */
  function TitleConfiguration(title: Option<string>): (c: TextFieldConfiguration)
    ensures c.text == title
  {
    TextFieldConfiguration(title)
  }

  /** `dateConfiguration(for:with:)`: a date picker starting at `date`. */
  function DateConfiguration(date: Reminders.Date): (c: DatePickerConfiguration)
    ensures c.date == date
  {
    DatePickerConfiguration(date)
  }

  /** `notesConfiguration(for:with:)`: a text view starting at `notes`. */
  function NotesConfiguration(notes: Option<string>): (c: TextViewConfiguration)
    ensures c.text == notes
  {
    TextViewConfiguration(notes)
  }

  /**
   * `cellRegistrationHandler`: a cell of the `.view` section gets the row's
   * default configuration, whatever the row; a cell of any other section is a
   * fatal error, shown as `None`. An index `section(for:)` cannot map is a
   * fatal error too, and a precondition here.
   */
  function CellRegistration(isEditing: bool, sectionIndex: nat, row: Row, reminder: Reminder,
                            dayText: Reminders.Date -> string, timeText: Reminders.Date -> string): (c: Option<ListContentConfiguration>)
    requires SectionNumber(isEditing, sectionIndex) <= 3
    ensures c.Some? <==> !isEditing && sectionIndex == 0
    ensures c.Some? ==> c.value == DefaultConfiguration(reminder, row, dayText, timeText)
  {
    SectionForModes(isEditing, sectionIndex);
    if SectionFor(isEditing, sectionIndex) == Section.View then
      Some(DefaultConfiguration(reminder, row, dayText, timeText))
    else
      None
  }

  /**
   * In viewing mode every row of the viewing snapshot is configured: the
   * title in headline with no symbol name, the other rows in subheadline
   * with a symbol name, and every row but notes with some text.
   */
  lemma ViewingCellsConfigured(reminder: Reminder, dayText: Reminders.Date -> string, timeText: Reminders.Date -> string)
    ensures forall row :: row in ViewingSnapshot().items[0] ==>
      var c := CellRegistration(false, 0, row, reminder, dayText, timeText);
      && c.Some?
      && (c.value.textStyle == Some(Headline) <==> row == Row.Title)
      && (c.value.imageName.Some? <==> row != Row.Title)
      && (row != Row.Notes ==> c.value.text.Some?)
  {
  }

  /**
   * In editing mode no cell of section 0 can be configured: `section(for:)`
   * maps it to `.title`, and only `.view` cells are accepted.
   */
  lemma EditingCellsFatal(row: Row, reminder: Reminder, dayText: Reminders.Date -> string, timeText: Reminders.Date -> string)
    ensures CellRegistration(true, 0, row, reminder, dayText, timeText) == None
  {
  }
}
