/**
 * The signed-in user's dashboard: dropping a saved destination and
 * cancelling a booking in the local lists once the service has done so, the
 * rule that offers cancellation, the tab count badge and the review stars.
 */
module UserDashboard {
  import opened Wrappers
  import opened Sequences
  import opened Bookings

  datatype SavedDestination = SavedDestination(
    id: string,
    userId: string,
    destinationId: string,
    destinationName: string,
    destinationImage: string,
    destinationLocation: string,
    destinationCategory: string,
    notes: Option<string>,
    createdAt: string)

  // ---------------------------------------------------------------------------
  // `prev.filter(d => d.destination_id !== destinationId)`
  // ---------------------------------------------------------------------------

  /**
   * The saved list without the entries for `destinationId`: the others stay,
   * in their order and with their multiplicity, and nothing else is added.
   */
  function Unsave(saved: seq<SavedDestination>, destinationId: string): (r: seq<SavedDestination>)
    ensures Subsequence(r, saved)
    ensures forall i | 0 <= i < |r| :: r[i].destinationId != destinationId
    ensures forall s :: multiset(r)[s] == if s.destinationId != destinationId then multiset(saved)[s] else 0
  {
    var keep := (s: SavedDestination) => s.destinationId != destinationId;
    var r := Filter(saved, keep);
    forall s ensures multiset(r)[s] == if s.destinationId != destinationId then multiset(saved)[s] else 0 {
      FilterCount(saved, keep, s);
    }
    r
  }

  /** An entry is still saved exactly when it was saved and is for another destination. */
  lemma UnsaveMembership(saved: seq<SavedDestination>, destinationId: string, s: SavedDestination)
    ensures s in Unsave(saved, destinationId) <==> s in saved && s.destinationId != destinationId
  {
    var r := Unsave(saved, destinationId);
    assert s in r <==> multiset(r)[s] > 0;
    assert s in saved <==> multiset(saved)[s] > 0;
  }

  /** Removing a destination that is not in the list leaves the list as it is. */
  lemma UnsaveAbsent(saved: seq<SavedDestination>, destinationId: string)
    requires forall i | 0 <= i < |saved| :: saved[i].destinationId != destinationId
    ensures Unsave(saved, destinationId) == saved
  {
    FilterAll(saved, (s: SavedDestination) => s.destinationId != destinationId);
  }

  /** Removing the same destination a second time changes nothing. */
  lemma UnsaveIdempotent(saved: seq<SavedDestination>, destinationId: string)
    ensures Unsave(Unsave(saved, destinationId), destinationId) == Unsave(saved, destinationId)
  {
    UnsaveAbsent(Unsave(saved, destinationId), destinationId);
  }

  // ---------------------------------------------------------------------------
  // Which bookings offer "Cancel Booking"
  // ---------------------------------------------------------------------------

  /**
   * The user may cancel a booking only while it is pending: exactly when the
   * administrator is offered "Cancel" too, and never once it has ended.
   */
  function CanCancel(s: BookingStatus): (r: bool)
    ensures r <==> Cancelled in OfferedTransitions(s)
    ensures r ==> !Terminal(s)
  {
    s == Pending
  }

  /**
   * The user is offered cancellation exactly where the administrator is
   * offered it too, and a cancelled booking offers nothing further.
   */
  lemma CancelMatchesAdministrator(s: BookingStatus)
    ensures CanCancel(s) <==> Cancelled in OfferedTransitions(s)
    ensures CanCancel(s) ==> IsRun([s, Cancelled]) && Terminal(Cancelled)
  {
    if CanCancel(s) {
      assert [s, Cancelled][1] in OfferedTransitions([s, Cancelled][0]);
    }
  }

  /** After the local cancellation no booking with that id can be cancelled again. */
  lemma CancelledNotCancellable(bookings: seq<Booking>, id: string)
    ensures forall i | 0 <= i < |bookings| && SetStatusById(bookings, id, Cancelled)[i].id == id ::
      !CanCancel(SetStatusById(bookings, id, Cancelled)[i].status)
  {
  }

  // ---------------------------------------------------------------------------
  // The tab badge: `count !== undefined && count > 0`
  // ---------------------------------------------------------------------------

  /** Whether a tab shows its count: never without one, and for a size exactly when it is not zero. */
  function ShowCountBadge(count: Option<int>): (r: bool)
    ensures count.None? ==> !r
    ensures count.Some? && count.value >= 0 ==> (r <==> count.value != 0)
  {
    count.Some? && count.value > 0
  }

  /** A tab given the length of its list shows the badge exactly when the list is not empty. */
  lemma BadgeForList<T>(xs: seq<T>)
    ensures ShowCountBadge(Some(|xs|)) <==> xs != []
    ensures !ShowCountBadge(None)
  {
  }

  // ---------------------------------------------------------------------------
  // Review stars: `Array.from({ length: 5 })` with star `i` filled when `i < rating`
  // ---------------------------------------------------------------------------

  /** Number of `true` entries. */
  function CountTrue(s: seq<bool>): nat
    decreases |s|
  {
    if s == [] then 0 else CountTrue(s[..|s| - 1]) + (if s[|s| - 1] then 1 else 0)
  }

  /** A row of `n` stars for `rating`: star `i` is filled when `i < rating`. */
  function StarRow(n: nat, rating: int): (r: seq<bool>)
    ensures |r| == n
    ensures forall i, j | 0 <= i < j < n :: r[j] ==> r[i]
  {
    seq(n, i requires 0 <= i < n => i < rating)
  }

  /** `rating` clamped to `0..n`. */
  function Clamp(rating: int, n: nat): nat {
    if rating < 0 then 0 else if rating > n then n else rating
  }

  /** A row of `n` stars has as many filled as the rating, clamped to `0..n`. */
  lemma {:induction false} StarRowFilled(n: nat, rating: int)
    ensures CountTrue(StarRow(n, rating)) == Clamp(rating, n)
    decreases n
  {
    if n > 0 {
      var r := StarRow(n, rating);
      StarRowFilled(n - 1, rating);
      assert r[..n - 1] == StarRow(n - 1, rating);
    }
  }

  /** The five stars of a review: as many filled as the rating allows, and those first. */
  function Stars(rating: int): (r: seq<bool>)
    ensures |r| == 5
    ensures forall i, j | 0 <= i < j < 5 :: r[j] ==> r[i]
    ensures CountTrue(r) == Clamp(rating, 5)
  {
    StarRowFilled(5, rating);
    StarRow(5, rating)
  }

  /** For a rating from 0 to 5 exactly that many stars are filled, and they come first. */
  lemma StarsFilled(rating: int)
    requires 0 <= rating <= 5
    ensures CountTrue(Stars(rating)) == rating
    ensures forall i | 0 <= i < 5 :: Stars(rating)[i] <==> i < rating
  {
    StarRowFilled(5, rating);
  }

  // ---------------------------------------------------------------------------
  // The dashboard's lists
  // ---------------------------------------------------------------------------

  class Dashboard {
    var saved: seq<SavedDestination>
    var bookings: seq<Booking>

    constructor()
      ensures saved == [] && bookings == []
    {
      saved := [];
      bookings := [];
    }

    /**
     * `handleUnsaveDestination`: once the service has removed the destination
     * the local list drops its entries; when the service fails the list is
     * kept and the failure message is shown.
     */
    method UnsaveDestination(destinationId: string, serviceSucceeded: bool) returns (outcome: Outcome)
      modifies this
      ensures serviceSucceeded ==> outcome == Pass && saved == Unsave(old(saved), destinationId)
      ensures !serviceSucceeded ==> outcome == Fail("Failed to remove destination") && unchanged(this`saved)
      ensures unchanged(this`bookings)
    {
      if serviceSucceeded {
        saved := Unsave(saved, destinationId);
        outcome := Pass;
      } else {
        outcome := Fail("Failed to remove destination");
      }
    }

    /**
     * `handleCancelBooking`: once the service has cancelled the booking the
     * local list marks it cancelled and changes nothing else; when the
     * service fails the list is kept and the failure message is shown.
     */
    method CancelBooking(bookingId: string, serviceSucceeded: bool) returns (outcome: Outcome)
      modifies this
      ensures serviceSucceeded ==> outcome == Pass && bookings == SetStatusById(old(bookings), bookingId, Cancelled)
      ensures !serviceSucceeded ==> outcome == Fail("Failed to cancel booking") && unchanged(this`bookings)
      ensures unchanged(this`saved)
    {
      if serviceSucceeded {
        bookings := SetStatusById(bookings, bookingId, Cancelled);
        outcome := Pass;
      } else {
        outcome := Fail("Failed to cancel booking");
      }
    }
  }
}
