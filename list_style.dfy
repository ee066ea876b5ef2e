/**
 * `ReminderListStyle` (Today/Today/Models/ReminderListStyle.swift): which
 * reminders a list shows, decided from a due date alone.
 */
module ListStyles {
  import opened Optional
  import opened Reminders

  /** An `Int`-backed enum: today = 0, future = 1, all = 2. */
  datatype ReminderListStyle = Today | Future | All

  function RawValue(style: ReminderListStyle): (n: nat)
    ensures n <= 2
    ensures n == 0 <==> style == Today
    ensures n == 1 <==> style == Future
    ensures n == 2 <==> style == All
  {
    match style
    case Today => 0
    case Future => 1
    case All => 2
  }

  /** `ReminderListStyle(rawValue:)`: fails outside 0...2. */
  function FromRawValue(n: int): (r: Option<ReminderListStyle>)
    ensures r.Some? <==> 0 <= n <= 2
    ensures r.Some? ==> RawValue(r.value) == n
  {
    if n == 0 then Some(Today)
    else if n == 1 then Some(Future)
    else if n == 2 then Some(All)
    else None
  }

  lemma RawValueRoundTrip(style: ReminderListStyle)
    ensures FromRawValue(RawValue(style)) == Some(style)
  {
  }

  /**
   * `shouldInclude(date:)`. The calendar query `isDateInToday` and the clock
   * reading `Date.now` are inputs.
   */
  function ShouldInclude(style: ReminderListStyle, date: Date, now: Date, isInToday: Date -> bool): (b: bool)
    ensures style == All ==> b
    ensures style == Today ==> (b <==> isInToday(date))
    ensures style == Future ==> (b <==> date > now && !isInToday(date))
  {
    match style
    case Today => isInToday(date)
    case Future => date > now && !isInToday(date)
    case All => true
  }

  /** No date belongs to both the today list and the future list. */
  lemma TodayFutureDisjoint(date: Date, now: Date, isInToday: Date -> bool)
    ensures !(ShouldInclude(Today, date, now, isInToday) && ShouldInclude(Future, date, now, isInToday))
  {
  }

  /** The future list never shows a reminder due at or before the current instant. */
  lemma FutureIsStrictlyLater(date: Date, now: Date, isInToday: Date -> bool)
    requires date <= now
    ensures !ShouldInclude(Future, date, now, isInToday)
  {
  }
}
