/** The Flask backend's in-memory state and its request handlers. The module globals `events`,
    `engagement_data`, `ticket_bookings` and `live_sales_data` are the fields of one `Backend`
    object; each state-changing handler is a method on it, with the JSON body passed in as
    plain parameters and `datetime.now()` passed in as an opaque integer. The read-only
    handlers are functions of the state. */
module App {
  import opened Common
  import opened TextOps
  import opened Tally
  import opened Records

  // ---------------------------------------------------------------- ticket bookings

  /** One entry of `ticket_bookings`. */
  datatype Booking = Booking(
    id: int,
    eventId: string,
    attendeeName: string,
    attendeeEmail: string,
    ticketPrice: int,
    currency: string,
    bookingTime: int,
    status: string)

  /** `live_sales_data`: running counters and the newest-first list of recent bookings. */
  datatype LiveSales = LiveSales(totalSales: int, totalRevenue: int, recentBookings: seq<Booking>)

  /** How many bookings `recent_bookings` keeps. */
  const RecentLimit := 10

  /** Sum of the prices of the given bookings. */
  function SumPrices(bs: seq<Booking>): int
  {
    if bs == [] then 0 else SumPrices(bs[..|bs| - 1]) + bs[|bs| - 1].ticketPrice
  }

  /** The most recent `min(n, 10)` of the bookings, newest first. */
  function RecentWindow(bs: seq<Booking>): (r: seq<Booking>)
    ensures |r| == Min(RecentLimit, |bs|)
    ensures forall i :: 0 <= i < |r| ==> r[i] == bs[|bs| - 1 - i]
  {
    seq(Min(RecentLimit, |bs|), i requires 0 <= i < Min(RecentLimit, |bs|) => bs[|bs| - 1 - i])
  }

  /** Putting a new booking in front of the window of the earlier ones and cutting the result
      back to ten entries yields the window of all bookings. */
  lemma RecentWindowStep(bs: seq<Booking>, b: Booking)
    ensures var front := [b] + RecentWindow(bs);
      (if |front| > RecentLimit then front[..RecentLimit] else front) == RecentWindow(bs + [b])
  {
    var front := [b] + RecentWindow(bs);
    var cut := if |front| > RecentLimit then front[..RecentLimit] else front;
    var w := RecentWindow(bs + [b]);
    assert |cut| == |w|;
    forall i | 0 <= i < |w|
      ensures cut[i] == w[i]
    {
      if i > 0 {
        assert cut[i] == RecentWindow(bs)[i - 1] == bs[|bs| - i];
      }
    }
  }

  /** Appending a booking adds its price to the sum. */
  lemma SumPricesAppend(bs: seq<Booking>, b: Booking)
    ensures SumPrices(bs + [b]) == SumPrices(bs) + b.ticketPrice
  {
    assert (bs + [b])[..|bs|] == bs;
  }

  // ---------------------------------------------------------------- polls and questions

  /** A poll whose response counter equals the sum of its per-option votes, none negative. */
  ghost predicate Tallied(p: Poll)
  {
    p.responses == Total(p.optionVotes) && forall o :: o in p.optionVotes ==> p.optionVotes[o] >= 0
  }

  /** What a vote does to the poll it lands on: one more for the chosen option (created at 1
      when absent) and one more response. */
  function Voted(p: Poll, option: string): (q: Poll)
    ensures q.id == p.id && q.question == p.question && q.options == p.options
    ensures q.responses == p.responses + 1
    ensures q.optionVotes.Keys == p.optionVotes.Keys + {option}
    ensures q.optionVotes[option] == (if option in p.optionVotes then p.optionVotes[option] else 0) + 1
    ensures forall o :: o in p.optionVotes && o != option ==> q.optionVotes[o] == p.optionVotes[o]
  {
    p.(optionVotes := Bump(p.optionVotes, option), responses := p.responses + 1)
  }

  /** A vote keeps a poll's responses equal to the sum of its option votes. */
  lemma VotedTallied(p: Poll, option: string)
    requires Tallied(p)
    ensures Tallied(Voted(p, option))
    ensures Total(Voted(p, option).optionVotes) == Total(p.optionVotes) + 1
  {
    TotalBump(p.optionVotes, option);
  }

  /** A newly created poll: no responses and every listed option at zero votes. */
  function NewPoll(id: int, question: string, options: seq<string>, now: int): (p: Poll)
    ensures p.id == id && p.question == question && p.options == options
    ensures p.responses == 0 && p.active && p.created == now
    ensures p.optionVotes.Keys == set o | o in options
    ensures forall o :: o in p.optionVotes ==> p.optionVotes[o] == 0
  {
    Poll(id, question, options, 0, true, now, map o | o in options :: 0)
  }

  /** A new poll is tallied: zero responses, zero votes. */
  lemma NewPollTallied(id: int, question: string, options: seq<string>, now: int)
    ensures Tallied(NewPoll(id, question, options, now))
  {
    TotalZeros(NewPoll(id, question, options, now).optionVotes);
  }

  /** `[p for p in polls if p.get('id') != poll_id]`. */
  function WithoutPoll(polls: seq<Poll>, pollId: int): (r: seq<Poll>)
    ensures forall i :: 0 <= i < |r| ==> r[i] in polls && r[i].id != pollId
    ensures forall i :: 0 <= i < |polls| && polls[i].id != pollId ==> polls[i] in r
    ensures IsSubsequence(r, polls)
    ensures pollId !in PollIds(polls) ==> r == polls
  {
    assert forall i :: 0 <= i < |polls| ==> PollIds(polls)[i] == polls[i].id;
    Filter(polls, (p: Poll) => p.id != pollId)
  }

  /** `[q for q in qa_questions if q.get('id') != question_id]`. */
  function WithoutQuestion(questions: seq<Question>, questionId: int): (r: seq<Question>)
    ensures forall i :: 0 <= i < |r| ==> r[i] in questions && r[i].id != questionId
    ensures forall i :: 0 <= i < |questions| && questions[i].id != questionId ==> questions[i] in r
    ensures IsSubsequence(r, questions)
    ensures questionId !in QuestionIds(questions) ==> r == questions
  {
    assert forall i :: 0 <= i < |questions| ==> QuestionIds(questions)[i] == questions[i].id;
    Filter(questions, (q: Question) => q.id != questionId)
  }

  /** The record a poll or question write starts from: the stored one, or the fresh record
      with no polls, no questions and an attendance of 240. */
  function RecordOrFresh(engagement: map<string, Engagement>, key: string): (e: Engagement)
    ensures key !in engagement ==> e == Engagement([], [], 240)
    ensures key in engagement ==> e == engagement[key]
  {
    if key in engagement then engagement[key] else Engagement([], [], 240)
  }

  // ---------------------------------------------------------------- events

  /** The two sample events stored when no events could be loaded. */
  function SampleEvents(now: int): (es: seq<Event>)
    ensures |es| == 2 && EventIds(es) == [1, 2]
    ensures forall i :: 0 <= i < 2 ==> es[i].status == Upcoming && es[i].attendees == 0
  {
    [Event(1, "Tech Conference 2024", "Annual technology conference featuring the latest innovations",
           "2024-03-15", "09:00", "Convention Center, Jakarta", 500, 250000, "INR",
           "/static/images/tech-conference.jpg", 0, Upcoming, now, None, None),
     Event(2, "Music Festival", "Three-day music festival with international artists",
           "2024-04-20", "18:00", "City Park, Jakarta", 1000, 450000, "INR",
           "/static/images/music-festival.jpg", 0, Upcoming, now, None, None)]
  }

  /** The state of the backend. */
  class Backend {
    var events: seq<Event>
    var engagement: map<string, Engagement>
    var bookings: seq<Booking>
    var sales: LiveSales

    /** The sales counters agree with the booking list, the recent list is its newest-first
        window, booking ids are 1..n in order, every poll is tallied, and within each record
        no two polls and no two questions share an id. */
    ghost predicate Valid()
      reads this
    {
      && sales.totalSales == |bookings|
      && sales.totalRevenue == SumPrices(bookings)
      && sales.recentBookings == RecentWindow(bookings)
      && (forall i :: 0 <= i < |bookings| ==> bookings[i].id == i + 1)
      && (forall k, i :: k in engagement && 0 <= i < |engagement[k].polls| ==> Tallied(engagement[k].polls[i]))
      && (forall k :: k in engagement ==>
            DistinctIds(PollIds(engagement[k].polls)) && DistinctIds(QuestionIds(engagement[k].questions)))
    }

    /** Module initialisation: the loaded events, or the two samples when there are none;
        no engagement records, no bookings, zero sales. */
    constructor(loaded: seq<Event>, now: int)
      ensures Valid()
      ensures events == (if loaded == [] then SampleEvents(now) else loaded)
      ensures engagement == map[] && bookings == [] && sales == LiveSales(0, 0, [])
    {
      events := if loaded == [] then SampleEvents(now) else loaded;
      engagement := map[];
      bookings := [];
      sales := LiveSales(0, 0, []);
    }

    /** `book_ticket`: appends a confirmed booking numbered one past the previous count and
        updates the sales counters and the recent list. */
    method BookTicket(eventId: string, attendeeName: string, attendeeEmail: string,
                      ticketPrice: Option<int>, currency: Option<string>, now: int)
        returns (bookingId: int)
      requires Valid()
      modifies this
      ensures Valid()
      ensures bookingId == |old(bookings)| + 1
      ensures var price := if ticketPrice.Some? then ticketPrice.value else 250000;
        && bookings == old(bookings) + [Booking(bookingId, eventId, attendeeName, attendeeEmail, price,
                                                if currency.Some? then currency.value else "INR", now, "confirmed")]
        && sales.totalSales == old(sales.totalSales) + 1
        && sales.totalRevenue == old(sales.totalRevenue) + price
      ensures |sales.recentBookings| <= RecentLimit && sales.recentBookings[0] == bookings[|bookings| - 1]
      ensures events == old(events) && engagement == old(engagement)
    {
      var price := if ticketPrice.Some? then ticketPrice.value else 250000;
      var b := Booking(|bookings| + 1, eventId, attendeeName, attendeeEmail, price,
                       if currency.Some? then currency.value else "INR", now, "confirmed");
      SumPricesAppend(bookings, b);
      RecentWindowStep(bookings, b);
      bookings := bookings + [b];
      var recent := [b] + sales.recentBookings;
      if |recent| > RecentLimit {
        recent := recent[..RecentLimit];
      }
      sales := LiveSales(sales.totalSales + 1, sales.totalRevenue + price, recent);
      bookingId := b.id;
    }

    /** `create_event_api`: appends an upcoming event with no attendees under the next free id. */
    method CreateEvent(title: string, description: string, date: string, time: string, location: string,
                       capacity: Option<int>, ticketPrice: Option<int>, currency: Option<string>,
                       image: Option<string>, now: int)
        returns (newId: int)
      requires Valid()
      modifies this
      ensures Valid()
      ensures newId == NextId(EventIds(old(events)))
      ensures newId !in EventIds(old(events))
      ensures events == old(events) + [Event(newId, title, description, date, time, location,
                                             if capacity.Some? then capacity.value else 0,
                                             if ticketPrice.Some? then ticketPrice.value else 0,
                                             if currency.Some? then currency.value else "INR",
                                             if image.Some? then image.value else "/static/images/default-event.jpg",
                                             0, Upcoming, now, None, None)]
      ensures engagement == old(engagement) && bookings == old(bookings) && sales == old(sales)
    {
      NextIdFresh(EventIds(events));
      newId := NextId(EventIds(events));
      var e := Event(newId, title, description, date, time, location,
                     if capacity.Some? then capacity.value else 0,
                     if ticketPrice.Some? then ticketPrice.value else 0,
                     if currency.Some? then currency.value else "INR",
                     if image.Some? then image.value else "/static/images/default-event.jpg",
                     0, Upcoming, now, None, None);
      events := events + [e];
    }

    /** `handle_event_polls` (POST): creates the event's record when missing, then appends a
        new poll under the next free poll id of that event. */
    method CreatePoll(eventId: int, question: string, options: seq<string>, now: int) returns (p: Poll)
      requires Valid()
      modifies this
      ensures Valid()
      ensures var rec := RecordOrFresh(old(engagement), IdKey(eventId));
        && p == NewPoll(NextId(PollIds(rec.polls)), question, options, now)
        && p.id !in PollIds(rec.polls)
        && engagement == old(engagement)[IdKey(eventId) := rec.(polls := rec.polls + [p])]
      ensures events == old(events) && bookings == old(bookings) && sales == old(sales)
    {
      var key := IdKey(eventId);
      if key !in engagement {
        engagement := engagement[key := Engagement([], [], 240)];
      }
      var rec := engagement[key];
      NextIdFresh(PollIds(rec.polls));
      p := NewPoll(NextId(PollIds(rec.polls)), question, options, now);
      NewPollTallied(p.id, question, options, now);
      DistinctAfterAllocation(PollIds(rec.polls));
      assert PollIds(rec.polls + [p]) == PollIds(rec.polls) + [p.id];
      engagement := engagement[key := rec.(polls := rec.polls + [p])];
    }

    /** `vote_on_poll`: the first poll with the given id gets the vote; every other poll and
        every other record stays as it was. */
    method VotePoll(eventId: int, pollId: int, option: string) returns (r: Outcome<Poll>)
      requires Valid()
      modifies this
      ensures Valid()
      ensures IdKey(eventId) !in old(engagement) ==> r == Err(404, "Event not found")
      ensures IdKey(eventId) in old(engagement) && pollId !in PollIds(old(engagement)[IdKey(eventId)].polls) ==>
                r == Err(404, "Poll not found")
      ensures r.Ok? <==> IdKey(eventId) in old(engagement) && pollId in PollIds(old(engagement)[IdKey(eventId)].polls)
      ensures r.Err? ==> engagement == old(engagement)
      ensures r.Ok? ==>
        var rec := old(engagement)[IdKey(eventId)];
        var k := IndexOf(PollIds(rec.polls), pollId);
        && IdKey(eventId) in old(engagement) && k < |rec.polls|
        && r.value == Voted(rec.polls[k], option)
        && (forall j :: 0 <= j < |rec.polls| && j != k ==> rec.polls[j].id != pollId)
        && engagement == old(engagement)[IdKey(eventId) := rec.(polls := rec.polls[k := r.value])]
      ensures events == old(events) && bookings == old(bookings) && sales == old(sales)
    {
      var key := IdKey(eventId);
      if key !in engagement {
        return Err(404, "Event not found");
      }
      var rec := engagement[key];
      var polls := rec.polls;
      var i := 0;
      while i < |polls|
        invariant 0 <= i <= |polls|
        invariant forall j :: 0 <= j < i ==> polls[j].id != pollId
      {
        if polls[i].id == pollId {
          IndexOfFirst(PollIds(polls), pollId, i);
          DistinctIdsUnique(PollIds(polls), pollId);
          assert forall j :: 0 <= j < |polls| ==> PollIds(polls)[j] == polls[j].id;
          var q := Voted(polls[i], option);
          VotedTallied(polls[i], option);
          assert PollIds(polls[i := q]) == PollIds(polls);
          engagement := engagement[key := rec.(polls := polls[i := q])];
          return Ok(q);
        }
        i := i + 1;
      }
      assert pollId !in PollIds(polls);
      return Err(404, "Poll not found");
    }

    /** `delete_poll`: drops every poll of the event with the given id, keeping the order of
        the rest; succeeds even when none matches, fails only when the event has no record. */
    method DeletePoll(eventId: int, pollId: int) returns (r: Outcome<()>)
      requires Valid()
      modifies this
      ensures Valid()
      ensures r.Err? <==> IdKey(eventId) !in old(engagement)
      ensures r.Err? ==> r == Err(404, "Poll not found") && engagement == old(engagement)
      ensures r.Ok? ==>
        var rec := old(engagement)[IdKey(eventId)];
        engagement == old(engagement)[IdKey(eventId) := rec.(polls := WithoutPoll(rec.polls, pollId))]
      ensures events == old(events) && bookings == old(bookings) && sales == old(sales)
    {
      var key := IdKey(eventId);
      if key !in engagement {
        return Err(404, "Poll not found");
      }
      var rec := engagement[key];
      PollIdsDistinctSubsequence(WithoutPoll(rec.polls, pollId), rec.polls);
      engagement := engagement[key := rec.(polls := WithoutPoll(rec.polls, pollId))];
      return Ok(());
    }

    /** `handle_qa_questions` (POST): creates the event's record when missing, then appends an
        unanswered question with no votes under the next free question id of that event. */
    method CreateQuestion(eventId: int, question: string, now: int) returns (q: Question)
      requires Valid()
      modifies this
      ensures Valid()
      ensures var rec := RecordOrFresh(old(engagement), IdKey(eventId));
        && q == Question(NextId(QuestionIds(rec.questions)), question, 0, false, now)
        && q.id !in QuestionIds(rec.questions)
        && engagement == old(engagement)[IdKey(eventId) := rec.(questions := rec.questions + [q])]
      ensures events == old(events) && bookings == old(bookings) && sales == old(sales)
    {
      var key := IdKey(eventId);
      if key !in engagement {
        engagement := engagement[key := Engagement([], [], 240)];
      }
      var rec := engagement[key];
      NextIdFresh(QuestionIds(rec.questions));
      q := Question(NextId(QuestionIds(rec.questions)), question, 0, false, now);
      DistinctAfterAllocation(QuestionIds(rec.questions));
      assert QuestionIds(rec.questions + [q]) == QuestionIds(rec.questions) + [q.id];
      engagement := engagement[key := rec.(questions := rec.questions + [q])];
    }

    /** `vote_on_question`: one more vote for the first question with the given id. */
    method VoteQuestion(eventId: int, questionId: int) returns (r: Outcome<Question>)
      requires Valid()
      modifies this
      ensures Valid()
      ensures IdKey(eventId) !in old(engagement) ==> r == Err(404, "Event not found")
      ensures IdKey(eventId) in old(engagement) &&
              questionId !in QuestionIds(old(engagement)[IdKey(eventId)].questions) ==>
                r == Err(404, "Question not found")
      ensures r.Ok? <==>
        IdKey(eventId) in old(engagement) && questionId in QuestionIds(old(engagement)[IdKey(eventId)].questions)
      ensures r.Err? ==> engagement == old(engagement)
      ensures r.Ok? ==>
        var rec := old(engagement)[IdKey(eventId)];
        var k := IndexOf(QuestionIds(rec.questions), questionId);
        && IdKey(eventId) in old(engagement) && k < |rec.questions|
        && r.value == rec.questions[k].(votes := rec.questions[k].votes + 1)
        && (forall j :: 0 <= j < |rec.questions| && j != k ==> rec.questions[j].id != questionId)
        && engagement == old(engagement)[IdKey(eventId) := rec.(questions := rec.questions[k := r.value])]
      ensures events == old(events) && bookings == old(bookings) && sales == old(sales)
    {
      var key := IdKey(eventId);
      if key !in engagement {
        return Err(404, "Event not found");
      }
      var rec := engagement[key];
      var questions := rec.questions;
      var i := 0;
      while i < |questions|
        invariant 0 <= i <= |questions|
        invariant forall j :: 0 <= j < i ==> questions[j].id != questionId
      {
        if questions[i].id == questionId {
          IndexOfFirst(QuestionIds(questions), questionId, i);
          DistinctIdsUnique(QuestionIds(questions), questionId);
          assert forall j :: 0 <= j < |questions| ==> QuestionIds(questions)[j] == questions[j].id;
          var q := questions[i].(votes := questions[i].votes + 1);
          assert QuestionIds(questions[i := q]) == QuestionIds(questions);
          engagement := engagement[key := rec.(questions := questions[i := q])];
          return Ok(q);
        }
        i := i + 1;
      }
      assert questionId !in QuestionIds(questions);
      return Err(404, "Question not found");
    }

    /** `delete_question`: drops every question of the event with the given id; fails only
        when the event has no record (with the text "Question not found"). */
    method DeleteQuestion(eventId: int, questionId: int) returns (r: Outcome<()>)
      requires Valid()
      modifies this
      ensures Valid()
      ensures r.Err? <==> IdKey(eventId) !in old(engagement)
      ensures r.Err? ==> r == Err(404, "Question not found") && engagement == old(engagement)
      ensures r.Ok? ==>
        var rec := old(engagement)[IdKey(eventId)];
        engagement == old(engagement)[IdKey(eventId) := rec.(questions := WithoutQuestion(rec.questions, questionId))]
      ensures events == old(events) && bookings == old(bookings) && sales == old(sales)
    {
      var key := IdKey(eventId);
      if key !in engagement {
        return Err(404, "Question not found");
      }
      var rec := engagement[key];
      QuestionIdsDistinctSubsequence(WithoutQuestion(rec.questions, questionId), rec.questions);
      engagement := engagement[key := rec.(questions := WithoutQuestion(rec.questions, questionId))];
      return Ok(());
    }

    /** `go_live_event`: the first event with the given id becomes live, whatever its status
        was, and records its start time. */
    method GoLive(eventId: int, now: int) returns (r: Outcome<()>)
      requires Valid()
      modifies this
      ensures Valid()
      ensures r.Err? <==> eventId !in EventIds(old(events))
      ensures r.Err? ==> r == Err(404, "Event not found") && events == old(events)
      ensures r.Ok? ==>
        var k := IndexOf(EventIds(old(events)), eventId);
        events == old(events)[k := old(events)[k].(status := Live, liveStartTime := Some(now))]
      ensures engagement == old(engagement) && bookings == old(bookings) && sales == old(sales)
    {
      var i := 0;
      while i < |events|
        invariant 0 <= i <= |events|
        invariant forall j :: 0 <= j < i ==> events[j].id != eventId
      {
        if events[i].id == eventId {
          IndexOfFirst(EventIds(events), eventId, i);
          events := events[i := events[i].(status := Live, liveStartTime := Some(now))];
          return Ok(());
        }
        i := i + 1;
      }
      assert eventId !in EventIds(events);
      return Err(404, "Event not found");
    }

    /** `end_event`: the first event with the given id becomes completed and records its end
        time; the handler reports success whether or not an event matched. */
    method EndEvent(eventId: int, now: int)
      requires Valid()
      modifies this
      ensures Valid()
      ensures eventId !in EventIds(old(events)) ==> events == old(events)
      ensures eventId in EventIds(old(events)) ==>
        var k := IndexOf(EventIds(old(events)), eventId);
        events == old(events)[k := old(events)[k].(status := Completed, endedAt := Some(now))]
      ensures engagement == old(engagement) && bookings == old(bookings) && sales == old(sales)
    {
      var i := 0;
      while i < |events|
        invariant 0 <= i <= |events|
        invariant forall j :: 0 <= j < i ==> events[j].id != eventId
      {
        if events[i].id == eventId {
          IndexOfFirst(EventIds(events), eventId, i);
          events := events[i := events[i].(status := Completed, endedAt := Some(now))];
          break;
        }
        i := i + 1;
      }
    }
  }
}
