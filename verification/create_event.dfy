/**
 * The event-creation screen that holds its start and end as date values and sets
 * them through a native picker: on iOS one combined date-and-time picker, on
 * Android a date picker followed by a time picker.
 *
 * Dates are local calendar moments. The `Date` setters the screen uses are
 * modelled after the ECMAScript `MakeDay` rule, including its roll-over of a day
 * of the month past the month's end into the next month, and its treatment of an
 * invalid date (`setFullYear` starts from 1 January 1970 at midnight,
 * `setHours`/`setMinutes` leave it invalid). Time zones are not modelled.
 */
module CreateEventScreen {
  import opened Wrappers
  import opened EventForm

  /** A local date and time; `month` counts from 0 as in JavaScript. */
  datatype Moment = Moment(year: int, month: nat, day: nat, hour: nat, minute: nat, second: nat, ms: nat)

  predicate LeapYear(y: int) {
    (y % 4 == 0 && y % 100 != 0) || y % 400 == 0
  }

  function DaysInMonth(y: int, month: nat): (n: nat)
    requires month < 12
    ensures 28 <= n <= 31
    ensures month == 1 ==> (n == 29 <==> LeapYear(y))
    ensures month != 1 ==> (n == 30 <==> month in {3, 5, 8, 10})
  {
    if month == 1 then (if LeapYear(y) then 29 else 28)
    else if month in {3, 5, 8, 10} then 30
    else 31
  }

  predicate ValidDay(m: Moment) {
    m.month < 12 && 1 <= m.day <= DaysInMonth(m.year, m.month)
  }

  predicate ValidTime(m: Moment) {
    m.hour < 24 && m.minute < 60 && m.second < 60 && m.ms < 1000
  }

  predicate ValidMoment(m: Moment) {
    ValidDay(m) && ValidTime(m)
  }

  /** A day of the month past the month's end runs over into the following month. */
  function Roll(m: Moment): (r: Moment)
    requires m.month < 12 && 1 <= m.day <= 31
    ensures ValidDay(r)
    ensures r.year == m.year && r.hour == m.hour && r.minute == m.minute && r.second == m.second && r.ms == m.ms
    ensures m.day <= DaysInMonth(m.year, m.month) ==> r == m
    ensures m.day > DaysInMonth(m.year, m.month) ==>
      r.month == m.month + 1 && r.day == m.day - DaysInMonth(m.year, m.month)
  {
    var n := DaysInMonth(m.year, m.month);
    if m.day <= n then m else m.(month := m.month + 1, day := m.day - n)
  }

  /**
   * A start or end value as the screen holds it: `Blank` is the empty string a
   * reset leaves, `Invalid` an invalid `Date`, `At` a valid one.
   */
  datatype DateValue = Blank | Invalid | At(m: Moment)

  predicate WellFormed(v: DateValue) {
    v.At? ==> ValidMoment(v.m)
  }

  /** `new Date(v)`: copying a held value; the empty string gives an invalid date. */
  function Copy(v: DateValue): (r: DateValue)
    ensures r.Blank? == false
    ensures v.At? ==> r == v
  {
    if v.Blank? then Invalid else v
  }

  /** `present` of the shared form: a `Date` object is truthy even when invalid, the empty string is not. */
  predicate Present(v: DateValue) {
    !v.Blank?
  }

  function SetFullYear(v: DateValue, y: int): (r: DateValue)
    requires WellFormed(v)
    ensures r.At? && ValidDay(r.m) && r.m.year == y
  {
    match v
    case At(m) => At(Roll(m.(year := y)))
    case _ => At(Moment(y, 0, 1, 0, 0, 0, 0))
  }

  function SetMonth(v: DateValue, month: nat): (r: DateValue)
    requires month < 12 && WellFormed(v)
    ensures v.At? ==> r.At? && ValidDay(r.m) && r.m.year == v.m.year
  {
    match v
    case At(m) => At(Roll(m.(month := month)))
    case _ => v
  }

  function SetDate(v: DateValue, day: nat): (r: DateValue)
    requires 1 <= day <= 31 && (v.At? ==> ValidDay(v.m))
    ensures v.At? ==> r.At? && ValidDay(r.m) && r.m.year == v.m.year
  {
    match v
    case At(m) => At(Roll(m.(day := day)))
    case _ => v
  }

  /** The moment with the calendar date of `sel` and the time of day of `base`. */
  function OnDay(base: Moment, sel: Moment): Moment {
    Moment(sel.year, sel.month, sel.day, base.hour, base.minute, base.second, base.ms)
  }

  /** The time of day an invalid or blank target takes once a date is set into it. */
  const MIDNIGHT := Moment(1970, 0, 1, 0, 0, 0, 0)

  /** The Android date step as written: `setFullYear`, then `setMonth`, then `setDate` on a copy of the target. */
  function MergeDayAsWritten(v: DateValue, sel: Moment): (r: DateValue)
    requires WellFormed(v) && ValidMoment(sel)
    ensures r.At? && WellFormed(r) && r.m.year == sel.year
    ensures v.At? ==> r.m.hour == v.m.hour && r.m.minute == v.m.minute && r.m.second == v.m.second
  {
    var y := SetFullYear(Copy(v), sel.year);
    var mo := SetMonth(y, sel.month);
    SetDate(mo, sel.day)
  }

  /** `setMonth` rolls over exactly when the day kept from the target does not exist in the selected month. */
  lemma MergeDayAsWrittenIff(m: Moment, sel: Moment)
    requires ValidMoment(m) && ValidMoment(sel)
    ensures MergeDayAsWritten(At(m), sel) == At(OnDay(m, sel)) <==>
      SetFullYear(At(m), sel.year).m.day <= DaysInMonth(sel.year, sel.month)
    ensures SetFullYear(At(m), sel.year).m.day > DaysInMonth(sel.year, sel.month) ==>
      MergeDayAsWritten(At(m), sel).m.month == sel.month + 1
  {
    var y := SetFullYear(At(m), sel.year);
    var mo := SetMonth(y, sel.month);
    if y.m.day > DaysInMonth(sel.year, sel.month) {
      assert mo.m.month == sel.month + 1;
    }
  }

  /** Target 31 January 2025 10:00, selected 15 February 2025: the as-written step stores 15 March. */
  lemma MergeDayAsWrittenSkipsMonth()
    ensures MergeDayAsWritten(At(Moment(2025, 0, 31, 10, 0, 0, 0)), Moment(2025, 1, 15, 9, 30, 0, 0))
         == At(Moment(2025, 2, 15, 10, 0, 0, 0))
  {
    assert DaysInMonth(2025, 1) == 28;
  }

  /** The Android date step as intended (`setFullYear(y, m, d)` in one call): the selected date, the target's time. */
  function MergeDay(v: DateValue, sel: Moment): (r: DateValue)
    requires WellFormed(v) && ValidMoment(sel)
    // it lands on the selected day whatever the target held, and stays well formed
    ensures r.At? && WellFormed(r)
    ensures r.m.year == sel.year && r.m.month == sel.month && r.m.day == sel.day
    ensures v.At? ==> r == At(OnDay(v.m, sel))
    ensures !v.At? ==> r == At(OnDay(MIDNIGHT, sel))
  {
    At(OnDay(if v.At? then v.m else MIDNIGHT, sel))
  }

  /** Where the two agree: as written and as intended differ only when `setMonth` rolls over. */
  lemma MergeDayAgreesWithoutRollOver(v: DateValue, sel: Moment)
    requires WellFormed(v) && ValidMoment(sel)
    requires v.At? ==> SetFullYear(v, sel.year).m.day <= DaysInMonth(sel.year, sel.month)
    ensures MergeDayAsWritten(v, sel) == MergeDay(v, sel)
  {
    if v.At? {
      MergeDayAsWrittenIff(v.m, sel);
    }
  }

  /** The Android time step: `setHours`, then `setMinutes` on a copy of the target. */
  function MergeTime(v: DateValue, sel: Moment): (r: DateValue)
    requires WellFormed(v) && ValidMoment(sel)
    ensures !v.At? ==> r == Invalid
    ensures v.At? ==> r.At? && ValidMoment(r.m)
    ensures v.At? ==> r.m.hour == sel.hour && r.m.minute == sel.minute
    ensures v.At? ==> r.m == v.m.(hour := r.m.hour, minute := r.m.minute)
  {
    match Copy(v)
    case At(m) => At(m.(hour := sel.hour, minute := sel.minute))
    case _ => Invalid
  }

  // ------------------------------------------------------------ pickers

  datatype Platform = Android | IOS

  datatype Mode = DateMode | TimeMode

  /** Which picker is open, which field the next selection is for, and the Android picker's mode. */
  datatype Picker = Picker(showStart: bool, showEnd: bool, settingStart: bool, mode: Mode)

  const InitialPicker := Picker(false, false, false, DateMode)

  datatype Dates = Dates(start: DateValue, end: DateValue)

  predicate DatesOk(d: Dates) {
    WellFormed(d.start) && WellFormed(d.end)
  }

  /** `handleStartDateTimePress` as written: on iOS it only opens the picker. */
  function PressStartAsWritten(p: Platform, pk: Picker): (pk': Picker)
    ensures pk'.showStart && pk'.showEnd == pk.showEnd
    ensures p == IOS ==> pk'.settingStart == pk.settingStart && pk'.mode == pk.mode
    ensures p == Android ==> pk'.settingStart && pk'.mode == DateMode
  {
    if p == IOS then pk.(showStart := true)
    else pk.(mode := DateMode, settingStart := true, showStart := true)
  }

  /** `handleEndDateTimePress` as written: on iOS it only opens the picker. */
  function PressEndAsWritten(p: Platform, pk: Picker): (pk': Picker)
    ensures pk'.showEnd && pk'.showStart == pk.showStart
    ensures p == IOS ==> pk'.settingStart == pk.settingStart && pk'.mode == pk.mode
    ensures p == Android ==> !pk'.settingStart && pk'.mode == DateMode
  {
    if p == IOS then pk.(showEnd := true)
    else pk.(mode := DateMode, settingStart := false, showEnd := true)
  }

  /** The start press as intended: the selection that follows is for the start on both platforms. */
  function PressStart(p: Platform, pk: Picker): (pk': Picker)
    ensures pk'.showStart && pk'.showEnd == pk.showEnd && pk'.settingStart
    ensures p == IOS ==> pk'.mode == pk.mode
    ensures p == Android ==> pk'.mode == DateMode
  {
    if p == IOS then pk.(showStart := true, settingStart := true)
    else pk.(mode := DateMode, settingStart := true, showStart := true)
  }

  /** The end press as intended: the selection that follows is for the end on both platforms. */
  function PressEnd(p: Platform, pk: Picker): (pk': Picker)
    ensures pk'.showEnd && pk'.showStart == pk.showStart && !pk'.settingStart
    ensures p == IOS ==> pk'.mode == pk.mode
    ensures p == Android ==> pk'.mode == DateMode
  {
    if p == IOS then pk.(showEnd := true, settingStart := false)
    else pk.(mode := DateMode, settingStart := false, showEnd := true)
  }

  /** The presses agree on Android; on iOS only the corrected ones say which field is being set. */
  lemma PressesAgreeOnAndroid(pk: Picker)
    ensures PressStart(Android, pk) == PressStartAsWritten(Android, pk)
    ensures PressEnd(Android, pk) == PressEndAsWritten(Android, pk)
  {
  }

  /** Which Android date step runs: the setter chain the screen has, or the one-call step it intends. */
  datatype DateStep = AsWritten | Intended

  /**
   * The value `handleDateChange` writes into the target field, when it writes one.
   * On Android the date step keeps the target's time of day and the selected year;
   * only the intended step is sure to keep the selected month and day as well.
   */
  function NewTarget(step: DateStep, p: Platform, mode: Mode, v: DateValue, sel: Moment): (r: DateValue)
    requires WellFormed(v) && ValidMoment(sel)
    ensures WellFormed(r)
    ensures p == IOS ==> r == At(sel)
    ensures p == Android && mode == DateMode ==> r.At? && r.m.year == sel.year
    ensures p == Android && mode == DateMode && v.At? ==>
      r.m.hour == v.m.hour && r.m.minute == v.m.minute && r.m.second == v.m.second
    ensures p == Android && mode == DateMode && step == AsWritten ==> r == MergeDayAsWritten(v, sel)
    ensures p == Android && mode == DateMode && step == Intended ==>
      r.m.month == sel.month && r.m.day == sel.day
    ensures p == Android && mode == TimeMode ==> r == MergeTime(v, sel)
  {
    if p == IOS then At(sel)
    else if mode == TimeMode then MergeTime(v, sel)
    else if step == AsWritten then MergeDayAsWritten(v, sel)
    else MergeDay(v, sel)
  }

  /**
   * `handleDateChange`: on Android both pickers close first; a dismissal stops there.
   * A selection replaces the target on iOS; on Android the date step keeps the
   * target's time and reopens the same picker in time mode, and the time step keeps
   * the target's date and returns to date mode. `step` picks the Android date step:
   * the screen runs `AsWritten`.
   */
  function DateChange(step: DateStep, p: Platform, pk: Picker, d: Dates, dismissed: bool, selected: Option<Moment>): (r: (Picker, Dates))
    requires DatesOk(d) && (selected.Some? ==> ValidMoment(selected.value))
    ensures DatesOk(r.1)
    // only the field being set can change, and only when a date was selected
    ensures dismissed || selected.None? ==> r.1 == d
    ensures pk.settingStart ==> r.1.end == d.end
    ensures !pk.settingStart ==> r.1.start == d.start
    ensures !dismissed && selected.Some? ==>
      (if pk.settingStart then r.1.start else r.1.end)
        == NewTarget(step, p, pk.mode, if pk.settingStart then d.start else d.end, selected.value)
    // the pickers
    ensures p == IOS ==> r.0 == pk
    ensures p == Android && (dismissed || selected.None? || pk.mode == TimeMode) ==>
      !r.0.showStart && !r.0.showEnd
    ensures p == Android && !dismissed && selected.Some? && pk.mode == DateMode ==>
      r.0.showStart == pk.settingStart && r.0.showEnd == !pk.settingStart && r.0.mode == TimeMode
    ensures p == Android && !dismissed && selected.Some? && pk.mode == TimeMode ==> r.0.mode == DateMode
    ensures r.0.settingStart == pk.settingStart
    ensures dismissed || selected.None? ==> r.0.mode == pk.mode
  {
    var closed := if p == Android then pk.(showStart := false, showEnd := false) else pk;
    if dismissed || selected.None? then (closed, d)
    else
      var sel := selected.value;
      var target := NewTarget(step, p, pk.mode, if pk.settingStart then d.start else d.end, sel);
      var d' := if pk.settingStart then d.(start := target) else d.(end := target);
      if p == IOS then (closed, d')
      else if pk.mode == DateMode then
        (closed.(mode := TimeMode, showStart := pk.settingStart, showEnd := !pk.settingStart), d')
      else (closed.(mode := DateMode), d')
  }

  /** On iOS the as-written handlers never mark the start as the field being set. */
  lemma IosNeverSetsStartAsWritten(pk: Picker, d: Dates, dismissed: bool, selected: Option<Moment>)
    requires DatesOk(d) && (selected.Some? ==> ValidMoment(selected.value))
    ensures PressStartAsWritten(IOS, pk).settingStart == pk.settingStart
    ensures PressEndAsWritten(IOS, pk).settingStart == pk.settingStart
    ensures DateChange(AsWritten, IOS, pk, d, dismissed, selected).0.settingStart == pk.settingStart
  {
  }

  /**
   * As written, on iOS the flag starts false and nothing sets it, so choosing a
   * moment in the start picker leaves the start alone and overwrites the end.
   */
  lemma IosStartPickerWritesEnd(d: Dates, sel: Moment)
    requires DatesOk(d) && ValidMoment(sel)
    ensures var pk := PressStartAsWritten(IOS, InitialPicker);
      pk.showStart
      && DateChange(AsWritten, IOS, pk, d, false, Some(sel)).1 == Dates(d.start, At(sel))
  {
  }

  /** With the intended presses, each iOS picker writes its own field and leaves the other alone. */
  lemma IosPickersWriteTheirOwnField(step: DateStep, pk: Picker, d: Dates, sel: Moment)
    requires DatesOk(d) && ValidMoment(sel)
    ensures DateChange(step, IOS, PressStart(IOS, pk), d, false, Some(sel)).1 == Dates(At(sel), d.end)
    ensures DateChange(step, IOS, PressEnd(IOS, pk), d, false, Some(sel)).1 == Dates(d.start, At(sel))
  {
  }

  /**
   * The Android start flow with the intended date step: press, choose a day, choose
   * a time. The start then holds the chosen day at the chosen hour and minute, the
   * end is untouched, and both pickers are closed and back in date mode.
   */
  lemma AndroidStartFlow(pk: Picker, d: Dates, day: Moment, time: Moment)
    requires DatesOk(d) && ValidMoment(day) && ValidMoment(time)
    ensures var pk1 := PressStart(Android, pk);
      var (pk2, d2) := DateChange(Intended, Android, pk1, d, false, Some(day));
      var (pk3, d3) := DateChange(Intended, Android, pk2, d2, false, Some(time));
      && pk2.showStart && !pk2.showEnd && pk2.mode == TimeMode
      && d3.end == d.end
      && d3.start.At?
      && d3.start.m.year == day.year && d3.start.m.month == day.month && d3.start.m.day == day.day
      && d3.start.m.hour == time.hour && d3.start.m.minute == time.minute
      && !pk3.showStart && !pk3.showEnd && pk3.mode == DateMode
  {
    var pk1 := PressStart(Android, pk);
    var (pk2, d2) := DateChange(Intended, Android, pk1, d, false, Some(day));
    assert d2.start == MergeDay(d.start, day);
  }

  /**
   * The same flow on the screen as written reaches the chosen day too, provided the
   * start's day of the month exists in the chosen month, so `setMonth` does not roll over.
   */
  lemma AndroidStartFlowAsWritten(pk: Picker, d: Dates, day: Moment, time: Moment)
    requires DatesOk(d) && ValidMoment(day) && ValidMoment(time)
    requires d.start.At? ==> SetFullYear(d.start, day.year).m.day <= DaysInMonth(day.year, day.month)
    ensures var pk1 := PressStart(Android, pk);
      var (pk2, d2) := DateChange(AsWritten, Android, pk1, d, false, Some(day));
      var (pk3, d3) := DateChange(AsWritten, Android, pk2, d2, false, Some(time));
      && d3.end == d.end
      && d3.start.At?
      && d3.start.m.year == day.year && d3.start.m.month == day.month && d3.start.m.day == day.day
      && d3.start.m.hour == time.hour && d3.start.m.minute == time.minute
      && !pk3.showStart && !pk3.showEnd && pk3.mode == DateMode
  {
    var pk1 := PressStart(Android, pk);
    MergeDayAgreesWithoutRollOver(d.start, day);
    var (pk2, d2) := DateChange(AsWritten, Android, pk1, d, false, Some(day));
    assert d2.start == MergeDay(d.start, day);
  }

  /** On the screen as written, a start of 31 January 2025 10:00 and a pick of 15 February store 15 March. */
  lemma ScreenDateStepSkipsMonth(pk: Picker, end: DateValue)
    requires WellFormed(end)
    ensures var jan31 := At(Moment(2025, 0, 31, 10, 0, 0, 0));
      var feb15 := Moment(2025, 1, 15, 9, 30, 0, 0);
      DateChange(AsWritten, Android, PressStart(Android, pk), Dates(jan31, end), false, Some(feb15)).1
        == Dates(At(Moment(2025, 2, 15, 10, 0, 0, 0)), end)
  {
    MergeDayAsWrittenSkipsMonth();
  }

  /** Dismissing a picker changes no date; on Android it closes both pickers. */
  lemma DismissKeepsDates(step: DateStep, p: Platform, pk: Picker, d: Dates, selected: Option<Moment>)
    requires DatesOk(d) && (selected.Some? ==> ValidMoment(selected.value))
    ensures DateChange(step, p, pk, d, true, selected).1 == d
    ensures p == Android ==> !DateChange(step, p, pk, d, true, selected).0.showStart
    ensures p == IOS ==> DateChange(step, p, pk, d, true, selected).0 == pk
  {
  }

  // ------------------------------------------------------------ the screen's form

  /** The form on opening: start now, end an hour later (both supplied by the caller). */
  function Opening(now: Moment, inAnHour: Moment): (w: Wizard<DateValue>)
    ensures w.form.start == At(now) && w.form.end == At(inAnHour)
    ensures w.activeSection == 0 && w.errors == {}
    ensures w.form == EmptyForm(Blank).(start := At(now), end := At(inAnHour))
  {
    Wizard(EmptyForm(Blank).(start := At(now), end := At(inAnHour)), 0, {})
  }

  /** After a reset both dates are the empty string, so the venue-and-date section reports both missing. */
  lemma ResetNeedsBothDates(num: string -> Option<real>)
    ensures StartDateKey in SectionErrors(Reset(Blank).form, 1, num, Present)
    ensures EndDateKey in SectionErrors(Reset(Blank).form, 1, num, Present)
    ensures SectionErrors(Opening(MIDNIGHT, MIDNIGHT).form, 1, num, Present) * {StartDateKey, EndDateKey} == {}
  {
  }

  /** An invalid date counts as present: validation cannot tell it from a real one. */
  lemma InvalidDatePassesCheck(f: Form<DateValue>, num: string -> Option<real>)
    requires f.start == Invalid
    ensures StartDateKey !in SectionErrors(f, 1, num, Present)
  {
  }
}
