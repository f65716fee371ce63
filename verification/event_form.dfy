/**
 * The four-section create-event wizard shared by both event-creation screens:
 * per-section validation, bounded navigation, the ticket-list and image-list
 * editors, reset, and the shape of the submitted payload.
 *
 * The two screens differ only in how the start and end dates are held, so the
 * form is generic in the date type `D`, and "a date is present" (JavaScript
 * truthiness) is a parameter. `Number()` is a parameter too: it returns None
 * where JavaScript returns NaN.
 */
module EventForm {
  import opened Wrappers
  import opened Text

  const LAST_SECTION: nat := 3
  const MAX_IMAGES: nat := 5
  const STATUS_DRAFT := "DRAFT"
  const DEFAULT_IMAGE_TYPE := "image/jpeg"

  datatype Ticket = Ticket(name: string, price: string, quantity: string)

  const BlankTicket := Ticket("", "", "")

  datatype TicketField = NameField | PriceField | QuantityField

  datatype Venue = Venue(name: string, address: string, city: string)

  datatype TicketConfig = TicketConfig(
    isRegistrationRequired: bool, maxAttendees: string, ticketTypes: seq<Ticket>, showTickets: bool)

  /** A picked image; an empty `mime` or `name` stands for a missing one. */
  datatype Image = Image(uri: string, mime: string, name: string)

  /** The form fields; an empty category, type or organizer id stands for `null`. */
  datatype Form<D> = Form(
    title: string, description: string,
    category: string, eventType: string, organizerId: string,
    venue: Venue, start: D, end: D,
    tickets: TicketConfig,
    isFeatured: bool, images: seq<Image>, primaryIndex: nat, captions: string)

  /** The keys of the error object. */
  datatype ErrorKey =
    | TitleKey | DescriptionKey | CategoryKey | TypeKey | OrganizerKey
    | VenueNameKey | VenueAddressKey | VenueCityKey | StartDateKey | EndDateKey
    | MaxAttendeesKey | TicketNameKey(i: nat) | TicketPriceKey(i: nat) | TicketQtyKey(i: nat)
    | ImagesKey

  datatype Wizard<D> = Wizard(form: Form<D>, activeSection: nat, errors: set<ErrorKey>)

  // ------------------------------------------------------------ validation

  /** `!s || Number(s) <= 0`: empty, or a number that is not positive (NaN is neither). */
  predicate NotPositive(s: string, num: string -> Option<real>) {
    s == "" || (num(s).Some? && num(s).value <= 0.0)
  }

  /** `!s.trim()`: trimming leaves nothing exactly when every character is whitespace (`TrimEmptyIffBlank`). */
  predicate Blank(s: string) {
    AllSpace(s)
  }

  /** The section whose validation can raise a key. */
  function SectionOf(k: ErrorKey): nat {
    match k
    case TitleKey | DescriptionKey | CategoryKey | TypeKey | OrganizerKey => 0
    case VenueNameKey | VenueAddressKey | VenueCityKey | StartDateKey | EndDateKey => 1
    case MaxAttendeesKey | TicketNameKey(_) | TicketPriceKey(_) | TicketQtyKey(_) => 2
    case ImagesKey => 3
  }

  /** The condition under which validation raises key `k` for form `f`. */
  predicate Fault<D>(f: Form<D>, k: ErrorKey, num: string -> Option<real>, present: D -> bool) {
    var ts := f.tickets.ticketTypes;
    match k
    case TitleKey => Blank(f.title)
    case DescriptionKey => Blank(f.description)
    case CategoryKey => f.category == ""
    case TypeKey => f.eventType == ""
    case OrganizerKey => f.organizerId == ""
    case VenueNameKey => Blank(f.venue.name)
    case VenueAddressKey => Blank(f.venue.address)
    case VenueCityKey => Blank(f.venue.city)
    case StartDateKey => !present(f.start)
    case EndDateKey => !present(f.end)
    case MaxAttendeesKey => NotPositive(f.tickets.maxAttendees, num)
    case TicketNameKey(i) => i < |ts| && Blank(ts[i].name)
    case TicketPriceKey(i) => i < |ts| && NotPositive(ts[i].price, num)
    case TicketQtyKey(i) => i < |ts| && NotPositive(ts[i].quantity, num)
    case ImagesKey => |f.images| == 0
  }

  /** The keys of tickets `from` onwards that are at fault, one ticket at a time as the `forEach` goes. */
  function TicketsErrors<D>(f: Form<D>, from: nat, num: string -> Option<real>, present: D -> bool): (errs: set<ErrorKey>)
    requires from <= |f.tickets.ticketTypes|
    ensures forall k :: k in errs <==>
      (k.TicketNameKey? || k.TicketPriceKey? || k.TicketQtyKey?) && k.i >= from && Fault(f, k, num, present)
    decreases |f.tickets.ticketTypes| - from
  {
    if from == |f.tickets.ticketTypes| then {}
    else
      var rest := TicketsErrors(f, from + 1, num, present);
      var here := set k | k in {TicketNameKey(from), TicketPriceKey(from), TicketQtyKey(from)} && Fault(f, k, num, present);
      here + rest
  }

  /** `validateCurrentSection`: the keys of the section on screen whose fields are at fault. */
  function SectionErrors<D>(f: Form<D>, section: nat, num: string -> Option<real>, present: D -> bool): (errs: set<ErrorKey>)
    ensures forall k :: k in errs <==> SectionOf(k) == section && Fault(f, k, num, present)
  {
    var fixed := set k | k in {TitleKey, DescriptionKey, CategoryKey, TypeKey, OrganizerKey,
                               VenueNameKey, VenueAddressKey, VenueCityKey, StartDateKey, EndDateKey,
                               MaxAttendeesKey, ImagesKey}
                         && SectionOf(k) == section && Fault(f, k, num, present);
    if section == 2 then fixed + TicketsErrors(f, 0, num, present) else fixed
  }

  /** All fields a section checks are acceptable. */
  predicate SectionValid<D>(f: Form<D>, section: nat, num: string -> Option<real>, present: D -> bool) {
    if section == 0 then
      !Blank(f.title) && !Blank(f.description) && f.category != "" && f.eventType != "" && f.organizerId != ""
    else if section == 1 then
      !Blank(f.venue.name) && !Blank(f.venue.address) && !Blank(f.venue.city) && present(f.start) && present(f.end)
    else if section == 2 then
      && !NotPositive(f.tickets.maxAttendees, num)
      && forall i :: 0 <= i < |f.tickets.ticketTypes| ==>
           var t := f.tickets.ticketTypes[i];
           !Blank(t.name) && !NotPositive(t.price, num) && !NotPositive(t.quantity, num)
    else if section == 3 then |f.images| > 0
    else true
  }

  /** A section raises no error exactly when every field it checks is acceptable. */
  lemma NoErrorsIffValid<D>(f: Form<D>, section: nat, num: string -> Option<real>, present: D -> bool)
    ensures SectionErrors(f, section, num, present) == {} <==> SectionValid(f, section, num, present)
  {
    var errs := SectionErrors(f, section, num, present);
    if errs != {} {
      var k :| k in errs;
      FaultBreaksSection(f, k, section, num, present);
    } else {
      assert forall k :: SectionOf(k) == section ==> !Fault(f, k, num, present) by {
        forall k | SectionOf(k) == section ensures !Fault(f, k, num, present) {
          assert k !in errs;
        }
      }
      NoFaultIsValid(f, section, num, present);
    }
  }

  /** A key at fault makes its own section invalid. */
  lemma FaultBreaksSection<D>(f: Form<D>, k: ErrorKey, section: nat, num: string -> Option<real>, present: D -> bool)
    requires Fault(f, k, num, present) && SectionOf(k) == section
    ensures !SectionValid(f, section, num, present)
  {
  }

  /** A section none of whose keys is at fault is valid. */
  lemma NoFaultIsValid<D>(f: Form<D>, section: nat, num: string -> Option<real>, present: D -> bool)
    requires forall k :: SectionOf(k) == section ==> !Fault(f, k, num, present)
    ensures SectionValid(f, section, num, present)
  {
    if section == 0 {
      assert !Fault(f, TitleKey, num, present) && !Fault(f, DescriptionKey, num, present);
      assert !Fault(f, CategoryKey, num, present) && !Fault(f, TypeKey, num, present);
      assert !Fault(f, OrganizerKey, num, present);
    } else if section == 1 {
      assert !Fault(f, VenueNameKey, num, present) && !Fault(f, VenueAddressKey, num, present);
      assert !Fault(f, VenueCityKey, num, present) && !Fault(f, StartDateKey, num, present);
      assert !Fault(f, EndDateKey, num, present);
    } else if section == 2 {
      NoTicketFaultIsValid(f, num, present);
    } else if section == 3 {
      assert !Fault(f, ImagesKey, num, present);
    }
  }

  lemma NoTicketFaultIsValid<D>(f: Form<D>, num: string -> Option<real>, present: D -> bool)
    requires forall k :: SectionOf(k) == 2 ==> !Fault(f, k, num, present)
    ensures SectionValid(f, 2, num, present)
  {
    var ts := f.tickets.ticketTypes;
    forall i | 0 <= i < |ts|
      ensures !Blank(ts[i].name) && !NotPositive(ts[i].price, num) && !NotPositive(ts[i].quantity, num)
    {
      assert !Fault(f, TicketNameKey(i), num, present);
      assert !Fault(f, TicketPriceKey(i), num, present);
      assert !Fault(f, TicketQtyKey(i), num, present);
    }
    assert !Fault(f, MaxAttendeesKey, num, present);
  }

  // ------------------------------------------------------------ navigation

  /** `handleNext`: advance (never past the last section) only when the section validates. */
  function Next<D>(w: Wizard<D>, num: string -> Option<real>, present: D -> bool): (w': Wizard<D>)
    ensures w'.form == w.form
    ensures SectionValid(w.form, w.activeSection, num, present) ==>
      w'.activeSection == (if w.activeSection < LAST_SECTION then w.activeSection + 1 else LAST_SECTION)
      && w'.errors == {}
    ensures !SectionValid(w.form, w.activeSection, num, present) ==>
      w'.activeSection == w.activeSection && w'.errors == SectionErrors(w.form, w.activeSection, num, present)
      && w'.errors != {}
    ensures w.activeSection <= LAST_SECTION ==> w'.activeSection <= LAST_SECTION
  {
    NoErrorsIffValid(w.form, w.activeSection, num, present);
    var errs := SectionErrors(w.form, w.activeSection, num, present);
    if errs == {} then
      w.(activeSection := if w.activeSection + 1 < LAST_SECTION then w.activeSection + 1 else LAST_SECTION,
         errors := errs)
    else w.(errors := errs)
  }

  /** `handlePrev`: step back, never below the first section. */
  function Prev<D>(w: Wizard<D>): (w': Wizard<D>)
    ensures w'.activeSection == if w.activeSection > 0 then w.activeSection - 1 else 0
    ensures w'.form == w.form && w'.errors == w.errors
  {
    w.(activeSection := if w.activeSection > 0 then w.activeSection - 1 else 0)
  }

  /** Going back after a successful step forward returns to the same section, errors cleared. */
  lemma PrevUndoesNext<D>(w: Wizard<D>, num: string -> Option<real>, present: D -> bool)
    requires SectionValid(w.form, w.activeSection, num, present) && w.activeSection < LAST_SECTION
    ensures Prev(Next(w, num, present)) == w.(errors := {})
  {
  }

  /** `Next` moves forward at most one section, and only past a section that validates. */
  lemma {:induction false} NextNeverSkips<D>(w: Wizard<D>, num: string -> Option<real>, present: D -> bool)
    requires w.activeSection <= LAST_SECTION
    ensures Next(w, num, present).activeSection <= w.activeSection + 1
    ensures Next(w, num, present).activeSection > w.activeSection ==>
      SectionValid(w.form, w.activeSection, num, present)
  {
  }

  // ------------------------------------------------------------ ticket editors

  /** The ticket list is never empty. */
  predicate TicketsOk<D>(f: Form<D>) {
    |f.tickets.ticketTypes| >= 1
  }

  function AddTicket<D>(f: Form<D>): (f': Form<D>)
    ensures f'.tickets.ticketTypes == f.tickets.ticketTypes + [BlankTicket]
    ensures f' == f.(tickets := f'.tickets)
    ensures f'.tickets.maxAttendees == f.tickets.maxAttendees
    ensures TicketsOk(f')
  {
    f.(tickets := f.tickets.(ticketTypes := f.tickets.ticketTypes + [BlankTicket]))
  }

  /** Removes the ticket at `idx` unless it is the only one; an index outside the list removes nothing. */
  function RemoveTicket<D>(f: Form<D>, idx: int): (f': Form<D>)
    ensures TicketsOk(f) ==> TicketsOk(f')
    ensures |f.tickets.ticketTypes| == 1 ==> f' == f
    ensures |f.tickets.ticketTypes| != 1 && 0 <= idx < |f.tickets.ticketTypes| ==>
      && |f'.tickets.ticketTypes| == |f.tickets.ticketTypes| - 1
      && (forall j :: 0 <= j < idx ==> f'.tickets.ticketTypes[j] == f.tickets.ticketTypes[j])
      && (forall j :: idx <= j < |f'.tickets.ticketTypes| ==> f'.tickets.ticketTypes[j] == f.tickets.ticketTypes[j + 1])
    ensures !(0 <= idx < |f.tickets.ticketTypes|) ==> f' == f
    ensures f' == f.(tickets := f'.tickets) && f'.tickets == f.tickets.(ticketTypes := f'.tickets.ticketTypes)
  {
    var ts := f.tickets.ticketTypes;
    if |ts| == 1 || !(0 <= idx < |ts|) then f
    else f.(tickets := f.tickets.(ticketTypes := ts[..idx] + ts[idx + 1..]))
  }

  function SetField(t: Ticket, field: TicketField, value: string): (t': Ticket)
    ensures field == NameField ==> t' == t.(name := value)
    ensures field == PriceField ==> t' == t.(price := value)
    ensures field == QuantityField ==> t' == t.(quantity := value)
  {
    match field
    case NameField => t.(name := value)
    case PriceField => t.(price := value)
    case QuantityField => t.(quantity := value)
  }

  /** `handleTicketChange`: only the named field of ticket `idx` changes. */
  function ChangeTicket<D>(f: Form<D>, idx: nat, field: TicketField, value: string): (f': Form<D>)
    requires idx < |f.tickets.ticketTypes|
    ensures |f'.tickets.ticketTypes| == |f.tickets.ticketTypes|
    ensures f'.tickets.ticketTypes[idx] == SetField(f.tickets.ticketTypes[idx], field, value)
    ensures forall j :: 0 <= j < |f.tickets.ticketTypes| && j != idx ==>
      f'.tickets.ticketTypes[j] == f.tickets.ticketTypes[j]
    ensures f' == f.(tickets := f'.tickets) && f'.tickets == f.tickets.(ticketTypes := f'.tickets.ticketTypes)
  {
    var ts := f.tickets.ticketTypes;
    f.(tickets := f.tickets.(ticketTypes := ts[idx := SetField(ts[idx], field, value)]))
  }

  // ------------------------------------------------------------ image editors

  /** The primary index designates an image, or is 0 when there are none. */
  predicate PrimaryOk<D>(f: Form<D>) {
    f.primaryIndex < |f.images| || (|f.images| == 0 && f.primaryIndex == 0)
  }

  /** `removeImage`: drop position `index`, and pull the primary index back only when it falls off the end. */
  function RemoveImage<D>(f: Form<D>, index: int): (f': Form<D>)
    ensures 0 <= index < |f.images| ==>
      && |f'.images| == |f.images| - 1
      && (forall j :: 0 <= j < index ==> f'.images[j] == f.images[j])
      && (forall j :: index <= j < |f'.images| ==> f'.images[j] == f.images[j + 1])
    ensures !(0 <= index < |f.images|) ==> f'.images == f.images
    ensures f.primaryIndex < |f'.images| ==> f'.primaryIndex == f.primaryIndex
    ensures f.primaryIndex >= |f'.images| ==> f'.primaryIndex == if |f'.images| > 0 then |f'.images| - 1 else 0
    ensures PrimaryOk(f')
    ensures f' == f.(images := f'.images, primaryIndex := f'.primaryIndex)
  {
    var kept := if 0 <= index < |f.images| then f.images[..index] + f.images[index + 1..] else f.images;
    var primary := if f.primaryIndex >= |kept| then (if |kept| > 0 then |kept| - 1 else 0) else f.primaryIndex;
    f.(images := kept, primaryIndex := primary)
  }

  /**
   * Removing an image in front of the primary one keeps the index, so the primary
   * designation moves to the image that followed it.
   */
  lemma PrimaryMovesOnEarlierRemoval<D>(f: Form<D>, index: nat)
    requires index < f.primaryIndex < |f.images| - 1
    ensures RemoveImage(f, index).images[RemoveImage(f, index).primaryIndex] == f.images[f.primaryIndex + 1]
  {
  }

  /** Tapping image `i` in the grid: it becomes the primary one, and nothing else changes. */
  function SetPrimary<D>(f: Form<D>, i: nat): (f': Form<D>)
    requires i < |f.images|
    ensures PrimaryOk(f')
    ensures f'.primaryIndex < |f'.images| && f'.images[f'.primaryIndex] == f.images[i]
    ensures f'.images == f.images
    ensures f' == f.(primaryIndex := f'.primaryIndex)
  {
    f.(primaryIndex := i)
  }

  /** After a tap on image `i`, the submitted `primaryIndex` reads back as `i`, naming the tapped image. */
  lemma TappedImageIsSentPrimary<D>(f: Form<D>, i: nat, num: string -> Option<real>, clock: nat -> nat)
    requires i < |f.images|
    ensures var p := ToPayload(SetPrimary(f, i), num, clock);
      AllDigits(p.primaryIndex) && DigitsValue(p.primaryIndex) == i && p.images[i] == ImageOut(f.images[i], clock(i))
  {
    DecimalRoundTrip(i);
  }

  /** `handleImagesSelect`: keep at most the first five picked images, first one primary. */
  function SelectImages<D>(f: Form<D>, picked: seq<Image>): (f': Form<D>)
    ensures |f'.images| <= MAX_IMAGES
    ensures |f'.images| == if |picked| < MAX_IMAGES then |picked| else MAX_IMAGES
    ensures f'.images == picked[..|f'.images|]
    ensures f'.primaryIndex == 0 && PrimaryOk(f')
    ensures f' == f.(images := f'.images, primaryIndex := 0)
  {
    f.(images := if |picked| <= MAX_IMAGES then picked else picked[..MAX_IMAGES], primaryIndex := 0)
  }

  // ------------------------------------------------------------ reset and submit

  /** The cleared form, with `blank` as the start and end value. */
  function EmptyForm<D>(blank: D): (f: Form<D>)
    ensures f.title == "" && f.description == "" && f.category == "" && f.eventType == "" && f.organizerId == ""
    ensures f.venue == Venue("", "", "") && f.start == blank && f.end == blank
    ensures f.tickets == TicketConfig(false, "", [BlankTicket], true)
    ensures !f.isFeatured && f.images == [] && f.primaryIndex == 0 && f.captions == ""
  {
    Form("", "", "", "", "", Venue("", "", ""), blank, blank,
      TicketConfig(false, "", [BlankTicket], true), false, [], 0, "")
  }

  /** `resetForm`: every field and the section back to the start, no errors. */
  function Reset<D>(blank: D): (w: Wizard<D>)
    ensures w.form == EmptyForm(blank) && w.activeSection == 0 && w.errors == {}
    ensures TicketsOk(w.form) && PrimaryOk(w.form)
  {
    Wizard(EmptyForm(blank), 0, {})
  }

  datatype TicketPayload = TicketPayload(name: string, price: Option<real>, quantity: Option<real>)

  datatype Payload<D> = Payload(
    title: string, description: string, category: string, eventType: string, organizerId: string,
    venue: Venue, start: D, end: D, status: string, isFeatured: string, primaryIndex: string,
    captions: string, isRegistrationRequired: bool, maxAttendees: Option<real>,
    ticketTypes: seq<TicketPayload>, showTickets: bool, images: seq<Image>)

  function TicketOut(t: Ticket, num: string -> Option<real>): (p: TicketPayload)
    ensures p.name == Trim(t.name) && p.price == num(t.price) && p.quantity == num(t.quantity)
  {
    TicketPayload(Trim(t.name), num(t.price), num(t.quantity))
  }

  /** An uploaded image part: missing type and name replaced by the defaults. */
  function ImageOut(img: Image, now: nat): (p: Image)
    ensures p.uri == img.uri
    ensures p.mime == if img.mime != "" then img.mime else DEFAULT_IMAGE_TYPE
    ensures p.name == if img.name != "" then img.name else "img_" + Decimal(now) + ".jpg"
  {
    Image(img.uri, if img.mime != "" then img.mime else DEFAULT_IMAGE_TYPE,
      if img.name != "" then img.name else "img_" + Decimal(now) + ".jpg")
  }

  /**
   * The multipart body: form fields as entered, status DRAFT, ticket names trimmed,
   * numbers parsed. `clock(i)` is what `Date.now()` returns while the i-th image is
   * appended, so each defaulted image name is stamped with its own reading.
   */
  function ToPayload<D>(f: Form<D>, num: string -> Option<real>, clock: nat -> nat): (p: Payload<D>)
    ensures p.status == STATUS_DRAFT
    ensures p.title == f.title && p.description == f.description && p.venue == f.venue
    ensures p.category == f.category && p.eventType == f.eventType && p.organizerId == f.organizerId
    ensures p.start == f.start && p.end == f.end
    ensures p.isFeatured == (if f.isFeatured then "true" else "false")
    ensures p.primaryIndex == Decimal(f.primaryIndex)
    ensures p.captions == f.captions
    ensures p.isRegistrationRequired == f.tickets.isRegistrationRequired
    ensures p.showTickets == f.tickets.showTickets
    ensures p.maxAttendees == num(f.tickets.maxAttendees)
    ensures |p.ticketTypes| == |f.tickets.ticketTypes|
    ensures forall i :: 0 <= i < |p.ticketTypes| ==> p.ticketTypes[i] == TicketOut(f.tickets.ticketTypes[i], num)
    ensures |p.images| == |f.images|
    ensures forall i :: 0 <= i < |p.images| ==> p.images[i] == ImageOut(f.images[i], clock(i))
  {
    Payload(f.title, f.description, f.category, f.eventType, f.organizerId, f.venue, f.start, f.end,
      STATUS_DRAFT, if f.isFeatured then "true" else "false", Decimal(f.primaryIndex), f.captions,
      f.tickets.isRegistrationRequired, num(f.tickets.maxAttendees),
      seq(|f.tickets.ticketTypes|, i requires 0 <= i < |f.tickets.ticketTypes| => TicketOut(f.tickets.ticketTypes[i], num)),
      f.tickets.showTickets,
      seq(|f.images|, i requires 0 <= i < |f.images| => ImageOut(f.images[i], clock(i))))
  }

  /**
   * Two unnamed images get the same default name exactly when the clock read the
   * same millisecond for both. The image picker always supplies a name (the file
   * name, or one with a random part), so this default is a fallback that picked
   * images never reach; the lemma describes the fallback alone.
   */
  lemma DefaultNamesCollideIff<D>(f: Form<D>, num: string -> Option<real>, clock: nat -> nat, i: nat, j: nat)
    requires i < |f.images| && j < |f.images|
    requires f.images[i].name == "" && f.images[j].name == ""
    ensures ToPayload(f, num, clock).images[i].name == ToPayload(f, num, clock).images[j].name <==> clock(i) == clock(j)
  {
    var p := ToPayload(f, num, clock);
    if p.images[i].name == p.images[j].name {
      var di, dj := Decimal(clock(i)), Decimal(clock(j));
      assert p.images[i].name == "img_" + di + ".jpg";
      assert p.images[j].name == "img_" + dj + ".jpg";
      assert |di| == |dj|;
      assert di == p.images[i].name[4..4 + |di|];
      assert dj == p.images[j].name[4..4 + |dj|];
      DecimalInjective(clock(i), clock(j));
    }
  }

  datatype Submission<D> = Submission(wizard: Wizard<D>, payload: Option<Payload<D>>)

  /**
   * `handleCreateEvent`: nothing is sent unless the section on screen validates;
   * a fulfilled request resets the wizard, a rejected one keeps the form.
   */
  function HandleCreateEvent<D>(w: Wizard<D>, num: string -> Option<real>, present: D -> bool,
                                clock: nat -> nat, fulfilled: bool, blank: D): (s: Submission<D>)
    ensures !SectionValid(w.form, w.activeSection, num, present) ==>
      s.payload.None? && s.wizard == w.(errors := SectionErrors(w.form, w.activeSection, num, present))
    ensures SectionValid(w.form, w.activeSection, num, present) ==>
      && s.payload == Some(ToPayload(w.form, num, clock))
      && s.wizard == (if fulfilled then Reset(blank) else w.(errors := {}))
  {
    NoErrorsIffValid(w.form, w.activeSection, num, present);
    var errs := SectionErrors(w.form, w.activeSection, num, present);
    if errs != {} then Submission(w.(errors := errs), None)
    else Submission(if fulfilled then Reset(blank) else w.(errors := errs), Some(ToPayload(w.form, num, clock)))
  }

  /** Submitting from the last section checks only the images, whatever the other sections hold. */
  lemma SubmitChecksOnlyImages<D>(w: Wizard<D>, num: string -> Option<real>, present: D -> bool,
                                  clock: nat -> nat, fulfilled: bool, blank: D)
    requires w.activeSection == LAST_SECTION
    ensures HandleCreateEvent(w, num, present, clock, fulfilled, blank).payload.Some? <==> |w.form.images| > 0
  {
  }
}
