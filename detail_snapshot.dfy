/**
 * The detail screen's snapshots
 * (Today/Today/DetailViewController/ReminderViewController.swift): the value
 * handed to the diffable data source, built by appending sections and then
 * rows, and the mapping from a section index to a `Section`, which depends on
 * whether the screen is in editing mode.
 */
module DetailSnapshots {
  import opened Optional
  import opened DetailSections
  import opened DetailRows

  /**
   * `NSDiffableDataSourceSnapshot<Section, Row>` as a value: the sections in
   * order and, at the same position, the rows of each section in order.
   */
  datatype Snapshot = Snapshot(sections: seq<Section>, items: seq<seq<Row>>)

  /** One row list per section and no section twice. */
  predicate WellFormed(snap: Snapshot) {
    && |snap.sections| == |snap.items|
    && forall i, j :: 0 <= i < j < |snap.sections| ==> snap.sections[i] != snap.sections[j]
  }

  /** `Snapshot()`. */
  const Empty: Snapshot := Snapshot([], [])

  /** The position of a section in a section list. */
  function SectionIndex(sections: seq<Section>, s: Section): (k: nat)
    requires s in sections
    ensures k < |sections| && sections[k] == s
  {
    if sections[0] == s then 0 else 1 + SectionIndex(sections[1..], s)
  }

  /** `appendSections(_:)`: new, empty sections after the existing ones. */
  function AppendSections(snap: Snapshot, added: seq<Section>): (r: Snapshot)
    requires WellFormed(snap)
    requires forall i, j :: 0 <= i < j < |added| ==> added[i] != added[j]
    requires forall i :: 0 <= i < |added| ==> added[i] !in snap.sections
    ensures WellFormed(r)
    ensures r.sections == snap.sections + added
    ensures r.items[..|snap.items|] == snap.items
    ensures forall i :: |snap.items| <= i < |r.items| ==> r.items[i] == []
  {
    Snapshot(snap.sections + added, snap.items + seq(|added|, _ => []))
  }

  /** `appendItems(_:toSection:)`: rows added at the end of one existing section. */
  function AppendItems(snap: Snapshot, rows: seq<Row>, s: Section): (r: Snapshot)
    requires WellFormed(snap) && s in snap.sections
    ensures WellFormed(r) && r.sections == snap.sections
    ensures forall i :: 0 <= i < |r.items| ==>
      r.items[i] == if snap.sections[i] == s then snap.items[i] + rows else snap.items[i]
  {
    var k := SectionIndex(snap.sections, s);
    Snapshot(snap.sections, snap.items[k := snap.items[k] + rows])
  }

  /** `updateSnapshotForViewing`'s snapshot: one `.view` section holding title, date, time and notes. */
  function ViewingSnapshot(): (r: Snapshot)
    ensures WellFormed(r)
    ensures r == Snapshot([Section.View], [[Row.Title, Row.Date, Row.Time, Row.Notes]])
  {
    var snap := AppendSections(Empty, [Section.View]);
    assert snap.items == [[]];
    var r := AppendItems(snap, [Row.Title, Row.Date, Row.Time, Row.Notes], Section.View);
    assert r.items[0] == [Row.Title, Row.Date, Row.Time, Row.Notes];
    r
  }

  /** `updateSnapshotForEditing`'s snapshot: the three edit sections, with no rows. */
  function EditingSnapshot(): (r: Snapshot)
    ensures WellFormed(r)
    ensures r.sections == EditSections
    ensures forall i :: 0 <= i < |r.items| ==> r.items[i] == []
  {
    AppendSections(Empty, [Section.Title, Section.Date, Section.Notes])
  }

  /** The raw section value `section(for:)` looks up: shifted by one in editing mode. */
  function SectionNumber(isEditing: bool, sectionIndex: nat): int {
    if isEditing then sectionIndex + 1 else sectionIndex
  }

  /**
   * `section(for:)`. An index with no matching `Section` stops the app with a
   * fatal error, so a matching section is a precondition.
   */
  function SectionFor(isEditing: bool, sectionIndex: nat): (s: Section)
    requires SectionNumber(isEditing, sectionIndex) <= 3
    ensures !isEditing ==> FromRawValue(sectionIndex) == Some(s)
    ensures isEditing ==> FromRawValue(sectionIndex + 1) == Some(s)
  {
    FromRawValue(SectionNumber(isEditing, sectionIndex)).value
  }

  /** In editing mode, indices 0, 1 and 2 are the title, date and notes sections; only viewing-mode index 0 is `.view`. */
  lemma SectionForModes(isEditing: bool, sectionIndex: nat)
    requires SectionNumber(isEditing, sectionIndex) <= 3
    ensures isEditing ==> sectionIndex < |EditSections| && SectionFor(isEditing, sectionIndex) == EditSections[sectionIndex]
    ensures SectionFor(isEditing, sectionIndex) == Section.View <==> !isEditing && sectionIndex == 0
  {
    RawValueRoundTrip(SectionFor(isEditing, sectionIndex));
  }

  /** Every section index of `snap` is mapped by `section(for:)` to the section at that index. */
  predicate ModeAgrees(isEditing: bool, snap: Snapshot) {
    forall i: nat :: i < |snap.sections| ==>
      SectionNumber(isEditing, i) <= 3 && SectionFor(isEditing, i) == snap.sections[i]
  }

  /** Each mode's own snapshot agrees with that mode's section mapping. */
  lemma OwnSnapshotsAgree()
    ensures ModeAgrees(false, ViewingSnapshot())
    ensures ModeAgrees(true, EditingSnapshot())
  {
    var e := EditingSnapshot();
    forall i: nat | i < |e.sections| ensures SectionNumber(true, i) <= 3 && SectionFor(true, i) == e.sections[i] {
      SectionForModes(true, i);
    }
  }

  /** The viewing snapshot does not agree with the editing-mode section mapping. */
  lemma ViewingSnapshotDisagreesWhenEditing()
    ensures !ModeAgrees(true, ViewingSnapshot())
  {
    assert SectionFor(true, 0) == Section.Title;
  }
}
