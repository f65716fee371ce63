/**
 * The event-creation screen whose start and end are typed in as text. It shares
 * the wizard of `EventForm`; a date is present when its text is not empty, and
 * the text goes into the payload as typed.
 */
module HelloScreen {
  import opened Wrappers
  import opened Text
  import opened EventForm

  /** `!dateTime.start` on a string: only the empty string is missing. */
  predicate Present(s: string) {
    s != ""
  }

  /** The state on opening, field by field. */
  function Opening(): (w: Wizard<string>)
    ensures w.form.title == "" && w.form.start == "" && w.form.end == ""
    ensures w.form.tickets.ticketTypes == [BlankTicket] && w.form.images == []
    ensures w.activeSection == 0 && w.errors == {}
  {
    Wizard(Form("", "", "", "", "", Venue("", "", ""), "", "",
      TicketConfig(false, "", [Ticket("", "", "")], true), false, [], 0, ""), 0, {})
  }

  /** Opening the screen and resetting it after a successful submission give the same state. */
  lemma OpeningIsReset()
    ensures Opening() == Reset("")
  {
  }

  /** Text that is only spaces counts as a date: the date check does not trim. */
  lemma SpacesPassDateCheck(f: Form<string>, num: string -> Option<real>)
    requires f.start == " " && f.end == " "
    ensures StartDateKey !in SectionErrors(f, 1, num, Present)
    ensures EndDateKey !in SectionErrors(f, 1, num, Present)
  {
  }

  /**
   * Submitting from the images section with at least one image sends the dates as
   * typed, status DRAFT, and each ticket name trimmed.
   */
  lemma SubmitSendsTypedDates(w: Wizard<string>, num: string -> Option<real>, clock: nat -> nat, fulfilled: bool)
    requires w.activeSection == LAST_SECTION && |w.form.images| > 0
    ensures var s := HandleCreateEvent(w, num, Present, clock, fulfilled, "");
      && s.payload.Some?
      && s.payload.value.start == w.form.start && s.payload.value.end == w.form.end
      && s.payload.value.status == STATUS_DRAFT
      && (forall i :: 0 <= i < |w.form.tickets.ticketTypes| ==>
            s.payload.value.ticketTypes[i].name == Trim(w.form.tickets.ticketTypes[i].name))
      && (fulfilled ==> s.wizard == Opening())
  {
    OpeningIsReset();
  }
}
