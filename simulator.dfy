/** The bookkeeping of the ticket booking simulator: the bookings it has made, the revenue it
    has counted, and the statistics it reports. The randomly generated attendee and the booking
    time are inputs. */
module BookingSimulator {
  import opened Common
  import opened Tally

  /** The generated attendee details attached to a booking. */
  datatype Attendee = Attendee(
    name: string,
    email: string,
    phone: string,
    age: int,
    city: string,
    purchaseTime: int,
    paymentMethod: string,
    referralSource: string)

  /** One simulated booking. */
  datatype SimBooking = SimBooking(
    id: int,
    eventId: string,
    attendee: Attendee,
    ticketPrice: int,
    currency: string,
    bookingTime: int,
    status: string)

  datatype Timeframe = Timeframe(firstBooking: int, lastBooking: int)

  /** What `get_booking_stats` answers: a message when nothing was booked, the summary otherwise. */
  datatype BookingStats =
    | NoBookings(message: string)
    | Summary(
        totalBookings: nat,
        totalRevenue: int,
        averageTicketPrice: real,
        topCities: map<string, int>,
        paymentMethodBreakdown: map<string, int>,
        referralSourceBreakdown: map<string, int>,
        timeframe: Timeframe)

  const DefaultBaseUrl := "http://localhost:5000"
  const DefaultTicketPrice := 250000
  const DefaultCurrency := "INR"

  /** Sum of the ticket prices of the bookings. */
  function Revenue(bookings: seq<SimBooking>): int
  {
    if bookings == [] then 0 else Revenue(bookings[..|bookings| - 1]) + bookings[|bookings| - 1].ticketPrice
  }

  lemma RevenueAppend(bookings: seq<SimBooking>, b: SimBooking)
    ensures Revenue(bookings + [b]) == Revenue(bookings) + b.ticketPrice
  {
    assert (bookings + [b])[..|bookings|] == bookings;
  }

  function Cities(bookings: seq<SimBooking>): seq<string>
  {
    seq(|bookings|, i requires 0 <= i < |bookings| => bookings[i].attendee.city)
  }

  function PaymentMethods(bookings: seq<SimBooking>): seq<string>
  {
    seq(|bookings|, i requires 0 <= i < |bookings| => bookings[i].attendee.paymentMethod)
  }

  function ReferralSources(bookings: seq<SimBooking>): seq<string>
  {
    seq(|bookings|, i requires 0 <= i < |bookings| => bookings[i].attendee.referralSource)
  }

  function BookingTimes(bookings: seq<SimBooking>): seq<int>
  {
    seq(|bookings|, i requires 0 <= i < |bookings| => bookings[i].bookingTime)
  }

  /** Python's `min(s)` on a non-empty sequence. */
  function SeqMin(s: seq<int>): (m: int)
    requires s != []
    ensures m in s
    ensures forall i :: 0 <= i < |s| ==> m <= s[i]
  {
    if |s| == 1 then s[0] else Min(s[0], SeqMin(s[1..]))
  }

  /** Python's `max(s)` on a non-empty sequence. */
  function SeqMax(s: seq<int>): (m: int)
    requires s != []
    ensures m in s
    ensures forall i :: 0 <= i < |s| ==> s[i] <= m
  {
    if |s| == 1 then s[0] else Max(s[0], SeqMax(s[1..]))
  }

  class TicketBookingSimulator {
    var baseUrl: string
    var bookings: seq<SimBooking>
    var totalRevenue: int

    /** The revenue counter is the sum of the booked prices, and the ids are 1..n in order. */
    ghost predicate Valid()
      reads this
    {
      totalRevenue == Revenue(bookings) && forall i :: 0 <= i < |bookings| ==> bookings[i].id == i + 1
    }

    /** `__init__`: no bookings and no revenue yet. */
    constructor(baseUrl: string := DefaultBaseUrl)
      ensures Valid()
      ensures this.baseUrl == baseUrl && bookings == [] && totalRevenue == 0
    {
      this.baseUrl := baseUrl;
      bookings := [];
      totalRevenue := 0;
    }

    /** `book_ticket`: appends one confirmed booking, numbered one past the previous count, and
        counts its price. */
    method BookTicket(eventId: string, attendee: Attendee, bookingTime: int,
                      ticketPrice: int := DefaultTicketPrice, currency: string := DefaultCurrency)
        returns (b: SimBooking)
      requires Valid()
      modifies this
      ensures Valid()
      ensures b == SimBooking(|old(bookings)| + 1, eventId, attendee, ticketPrice, currency, bookingTime, "confirmed")
      ensures bookings == old(bookings) + [b]
      ensures totalRevenue == old(totalRevenue) + ticketPrice
      ensures baseUrl == old(baseUrl)
    {
      b := SimBooking(|bookings| + 1, eventId, attendee, ticketPrice, currency, bookingTime, "confirmed");
      RevenueAppend(bookings, b);
      bookings := bookings + [b];
      totalRevenue := totalRevenue + ticketPrice;
    }

    /** `get_booking_stats`: the "No bookings yet" message when nothing was booked; otherwise the
        count, the revenue and its average, a count per distinct city, payment method and
        referral source, and the earliest and latest booking times. */
    function GetBookingStats(): (s: BookingStats)
      reads this
      ensures s.NoBookings? <==> bookings == []
      ensures s.NoBookings? ==> s.message == "No bookings yet"
      ensures s.Summary? ==>
        && s.totalBookings == |bookings|
        && s.totalRevenue == totalRevenue
        && s.averageTicketPrice * |bookings| as real == totalRevenue as real
        && s.topCities == Counts(Cities(bookings))
        && s.paymentMethodBreakdown == Counts(PaymentMethods(bookings))
        && s.referralSourceBreakdown == Counts(ReferralSources(bookings))
        && s.timeframe.firstBooking in BookingTimes(bookings)
        && s.timeframe.lastBooking in BookingTimes(bookings)
        && (forall i :: 0 <= i < |bookings| ==>
              s.timeframe.firstBooking <= bookings[i].bookingTime <= s.timeframe.lastBooking)
    {
      if bookings == [] then NoBookings("No bookings yet")
      else
        var times := BookingTimes(bookings);
        assert forall i :: 0 <= i < |bookings| ==> times[i] == bookings[i].bookingTime;
        Summary(|bookings|, totalRevenue, totalRevenue as real / |bookings| as real,
                Counts(Cities(bookings)), Counts(PaymentMethods(bookings)), Counts(ReferralSources(bookings)),
                Timeframe(SeqMin(times), SeqMax(times)))
    }
  }

  /** The first booking time never comes after the last. */
  lemma TimeframeOrdered(sim: TicketBookingSimulator)
    requires sim.bookings != []
    ensures sim.GetBookingStats().Summary?
    ensures sim.GetBookingStats().timeframe.firstBooking <= sim.GetBookingStats().timeframe.lastBooking
  {
    var s := sim.GetBookingStats();
    assert s.timeframe.firstBooking <= sim.bookings[0].bookingTime <= s.timeframe.lastBooking;
  }

  /** Each breakdown lists exactly the observed values, each at least once, and its counts add
      up to the number of bookings. */
  lemma BreakdownsAddUp(sim: TicketBookingSimulator)
    requires sim.bookings != []
    ensures var s := sim.GetBookingStats();
      && s.Summary?
      && s.topCities.Keys == set c | c in Cities(sim.bookings)
      && (forall c :: c in s.topCities ==> s.topCities[c] >= 1)
      && Total(s.topCities) == |sim.bookings|
      && Total(s.paymentMethodBreakdown) == |sim.bookings|
      && Total(s.referralSourceBreakdown) == |sim.bookings|
  {
    CountsTotal(Cities(sim.bookings));
    CountsTotal(PaymentMethods(sim.bookings));
    CountsTotal(ReferralSources(sim.bookings));
  }

  /** In a consistent simulator, the reported revenue is the sum of the booked prices. */
  lemma StatsRevenue(sim: TicketBookingSimulator)
    requires sim.Valid() && sim.bookings != []
    ensures sim.GetBookingStats().totalRevenue == Revenue(sim.bookings)
  {
  }
}
