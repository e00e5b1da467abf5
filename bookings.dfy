/**
 * Bookings as the dashboards hold them: the four-state status, the row a new
 * booking is inserted as, the per-id status update both dashboards apply to
 * their local list, the transitions the administrator is offered, and the
 * colour a status is shown in.
 */
module Bookings {
  import opened Wrappers

  datatype BookingStatus = Pending | Confirmed | Cancelled | Completed

  datatype ContactInfo = ContactInfo(phone: string, email: string)

  datatype Booking = Booking(
    id: string,
    userId: string,
    destinationId: string,
    destinationName: string,
    destinationImage: string,
    bookingDate: string,
    travelDate: string,
    numberOfTravelers: int,
    totalCost: real,
    status: BookingStatus,
    specialRequests: Option<string>,
    contactInfo: ContactInfo,
    createdAt: string,
    updatedAt: string)

  /** What the booking form submits. */
  datatype BookingFormData = BookingFormData(
    destinationId: string,
    travelDate: string,
    numberOfTravelers: int,
    specialRequests: Option<string>,
    contactInfo: ContactInfo)

  /** The row `createBooking` inserts; the database fills in the id, the cost and the dates. */
  datatype BookingInsert = BookingInsert(
    userId: string,
    destinationId: string,
    destinationName: string,
    destinationImage: string,
    travelDate: string,
    numberOfTravelers: int,
    specialRequests: Option<string>,
    contactInfo: ContactInfo,
    status: BookingStatus)

  /**
   * The row inserted for a signed-in user's form, with the name and image of
   * the destination whose slug the form names: the form's fields are carried
   * over and every new booking starts out pending.
   */
  function NewBookingRow(userId: string, form: BookingFormData, destinationName: string, destinationImage: string): (r: BookingInsert)
    ensures r.status == Pending
    ensures r.userId == userId && r.destinationId == form.destinationId
    ensures r.destinationName == destinationName && r.destinationImage == destinationImage
    ensures r.travelDate == form.travelDate && r.numberOfTravelers == form.numberOfTravelers
    ensures r.specialRequests == form.specialRequests && r.contactInfo == form.contactInfo
  {
    BookingInsert(userId, form.destinationId, destinationName, destinationImage, form.travelDate,
                  form.numberOfTravelers, form.specialRequests, form.contactInfo, Pending)
  }

  // ---------------------------------------------------------------------------
  // `prev.map(b => b.id === bookingId ? { ...b, status } : b)`
  // ---------------------------------------------------------------------------

  /**
   * The list with `status` written into every booking whose id is `id`: the
   * same bookings in the same order, each differing from the original in its
   * status at most, and only where the id matches.
   */
  function SetStatusById(bookings: seq<Booking>, id: string, status: BookingStatus): (r: seq<Booking>)
    ensures |r| == |bookings|
    ensures forall i | 0 <= i < |r| :: r[i].id == bookings[i].id
    ensures forall i | 0 <= i < |r| :: r[i].(status := bookings[i].status) == bookings[i]
    ensures forall i | 0 <= i < |r| :: r[i].status == (if bookings[i].id == id then status else bookings[i].status)
  {
    seq(|bookings|, i requires 0 <= i < |bookings| =>
      if bookings[i].id == id then bookings[i].(status := status) else bookings[i])
  }

  /** A list in which no booking has the id is left as it is. */
  lemma SetStatusNoMatch(bookings: seq<Booking>, id: string, status: BookingStatus)
    requires forall i | 0 <= i < |bookings| :: bookings[i].id != id
    ensures SetStatusById(bookings, id, status) == bookings
  {
  }

  /** Applying the same update twice is the same as applying it once. */
  lemma SetStatusIdempotent(bookings: seq<Booking>, id: string, status: BookingStatus)
    ensures SetStatusById(SetStatusById(bookings, id, status), id, status) == SetStatusById(bookings, id, status)
  {
  }

  /** Of two updates of the same booking, the later one decides its status. */
  lemma SetStatusLastWins(bookings: seq<Booking>, id: string, first: BookingStatus, second: BookingStatus)
    ensures SetStatusById(SetStatusById(bookings, id, first), id, second) == SetStatusById(bookings, id, second)
  {
    var a := SetStatusById(SetStatusById(bookings, id, first), id, second);
    var b := SetStatusById(bookings, id, second);
    forall i | 0 <= i < |a| ensures a[i] == b[i] {
      if bookings[i].id == id {
        assert a[i] == bookings[i].(status := second);
      }
    }
  }

  /** Updates of two different bookings do not interfere, so their order does not matter. */
  lemma SetStatusCommutes(bookings: seq<Booking>, id1: string, s1: BookingStatus, id2: string, s2: BookingStatus)
    requires id1 != id2
    ensures SetStatusById(SetStatusById(bookings, id1, s1), id2, s2) ==
            SetStatusById(SetStatusById(bookings, id2, s2), id1, s1)
  {
    var a := SetStatusById(SetStatusById(bookings, id1, s1), id2, s2);
    var b := SetStatusById(SetStatusById(bookings, id2, s2), id1, s1);
    forall i | 0 <= i < |a| ensures a[i] == b[i] {
      if bookings[i].id == id1 {
        assert a[i] == bookings[i].(status := s1) == b[i];
      } else if bookings[i].id == id2 {
        assert a[i] == bookings[i].(status := s2) == b[i];
      }
    }
  }

  // ---------------------------------------------------------------------------
  // The status lifecycle
  // ---------------------------------------------------------------------------

  /** A booking in this status is offered no further change. */
  predicate Terminal(s: BookingStatus) {
    s == Cancelled || s == Completed
  }

  /** How far along the lifecycle a status is: pending, then confirmed, then an end. */
  function Stage(s: BookingStatus): nat {
    match s
    case Pending => 0
    case Confirmed => 1
    case Cancelled => 2
    case Completed => 2
  }

  /**
   * The status buttons the administrator sees on a booking, in the order
   * shown: Confirm and Cancel on a pending booking, Mark Complete on a
   * confirmed one, nothing otherwise. Every offered status is further along
   * the lifecycle, so none leads back to pending.
   */
  function OfferedTransitions(s: BookingStatus): (r: seq<BookingStatus>)
    ensures r == [] <==> Terminal(s)
    ensures forall i | 0 <= i < |r| :: Stage(s) < Stage(r[i]) && r[i] != Pending
    ensures Cancelled in r <==> s == Pending
    ensures Completed in r <==> s == Confirmed
  {
    match s
    case Pending => [Confirmed, Cancelled]
    case Confirmed => [Completed]
    case Cancelled => []
    case Completed => []
  }

  /** A sequence of statuses a booking can pass through by the offered buttons. */
  predicate IsRun(path: seq<BookingStatus>) {
    forall i | 0 <= i < |path| - 1 :: path[i + 1] in OfferedTransitions(path[i])
  }

  /** Along any run the stage strictly increases, by at least one per step. */
  lemma {:induction false} RunStagesIncrease(path: seq<BookingStatus>)
    requires IsRun(path)
    ensures forall i, j | 0 <= i < j < |path| :: Stage(path[i]) < Stage(path[j])
    ensures forall i | 0 <= i < |path| :: Stage(path[0]) + i <= Stage(path[i])
    decreases |path|
  {
    if |path| > 1 {
      var rest := path[1..];
      assert IsRun(rest) by {
        forall i | 0 <= i < |rest| - 1 ensures rest[i + 1] in OfferedTransitions(rest[i]) {
          assert rest[i] == path[i + 1] && rest[i + 1] == path[i + 2];
        }
      }
      RunStagesIncrease(rest);
      var offered := OfferedTransitions(path[0]);
      assert path[1] in offered;
      var k :| 0 <= k < |offered| && offered[k] == path[1];
      assert Stage(path[0]) < Stage(path[1]);
      forall i, j | 0 <= i < j < |path| ensures Stage(path[i]) < Stage(path[j]) {
        if i == 0 && j > 1 {
          assert rest[0] == path[1] && rest[j - 1] == path[j];
        } else if i > 0 {
          assert rest[i - 1] == path[i] && rest[j - 1] == path[j];
        }
      }
      forall i | 1 <= i < |path| ensures Stage(path[0]) + i <= Stage(path[i]) {
        assert rest[0] == path[1] && rest[i - 1] == path[i];
      }
    }
  }

  /**
   * No booking returns to a status it has left, it takes at most two button
   * presses to reach an end, and a pending booking appears only at the start.
   */
  lemma RunsAreShort(path: seq<BookingStatus>)
    requires IsRun(path)
    ensures |path| <= 3
    ensures forall i, j | 0 <= i < j < |path| :: path[i] != path[j]
    ensures forall i | 0 < i < |path| :: path[i] != Pending
  {
    RunStagesIncrease(path);
    if path != [] {
      assert |path| - 1 <= Stage(path[|path| - 1]);
    }
  }

  /**
   * From pending, the lifecycle ends either cancelled or confirmed and then
   * completed: both runs exist, and every run from pending to an end is one
   * of them.
   */
  lemma LifecycleEndings()
    ensures IsRun([Pending, Cancelled]) && Terminal(Cancelled)
    ensures IsRun([Pending, Confirmed, Completed]) && Terminal(Completed)
    ensures forall p | IsRun(p) && |p| > 0 && p[0] == Pending && Terminal(p[|p| - 1]) ::
      p == [Pending, Cancelled] || p == [Pending, Confirmed, Completed]
  {
    assert Cancelled in OfferedTransitions(Pending);
    assert Completed in OfferedTransitions(Confirmed);
    forall p | IsRun(p) && |p| > 0 && p[0] == Pending && Terminal(p[|p| - 1])
      ensures p == [Pending, Cancelled] || p == [Pending, Confirmed, Completed]
    {
      RunsAreShort(p);
      if |p| >= 2 {
        assert p[1] in OfferedTransitions(p[0]);
      }
      if |p| == 3 {
        assert p[2] in OfferedTransitions(p[1]);
      }
    }
  }

  // ---------------------------------------------------------------------------
  // `getStatusColor`
  // ---------------------------------------------------------------------------

  /** The colour a status is shown in. */
  function Hue(s: BookingStatus): string {
    match s
    case Confirmed => "green"
    case Pending => "yellow"
    case Cancelled => "red"
    case Completed => "blue"
  }

  /** The classes begin with a text colour class named after `hue`. */
  predicate NamesHue(classes: string, hue: string) {
    |classes| >= 5 + |hue| && classes[..5] == "text-" && forall i | 0 <= i < |hue| :: classes[5 + i] == hue[i]
  }

  /** The text and background classes of a status badge, whose text colour is the status's own. */
  function StatusColor(s: BookingStatus): (r: string)
    ensures NamesHue(r, Hue(s))
  {
    match s
    case Confirmed => "text-green-600 bg-green-100"
    case Pending => "text-yellow-600 bg-yellow-100"
    case Cancelled => "text-red-600 bg-red-100"
    case Completed => "text-blue-600 bg-blue-100"
  }

  /** Different statuses are shown in different colours. */
  lemma StatusColorInjective(a: BookingStatus, b: BookingStatus)
    requires a != b
    ensures StatusColor(a) != StatusColor(b)
  {
    assert StatusColor(a)[5] != StatusColor(b)[5];
  }
}
