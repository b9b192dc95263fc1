/** The backend's read-only handlers: the credential check, the dashboard totals, the per-event
    engagement and analytics views, and the post-event report. Each is a function of the state
    fields it reads. */
module AppQueries {
  import opened Common
  import opened TextOps
  import opened Tally
  import opened Records
  import opened App
  import EventAnalytics

  // ---------------------------------------------------------------- login

  datatype Credential = Credential(email: string, password: string)

  /** The fixed accounts `login` accepts. */
  const ValidCredentials: seq<Credential> :=
    [Credential("admin@eventpro.com", "admin123"), Credential("admin@gmail.com", "admin"),
     Credential("test@test.com", "test123"), Credential("demo@demo.com", "demo")]

  /** Some account in `creds` has this email, compared case-insensitively, and exactly this
      password. */
  predicate Accepts(creds: seq<Credential>, email: string, password: string)
    ensures Accepts(creds, email, password) <==>
      exists i :: 0 <= i < |creds| && Lower(email) == Lower(creds[i].email) && password == creds[i].password
    decreases |creds|
  {
    creds != [] &&
    ((Lower(email) == Lower(creds[0].email) && password == creds[0].password) || Accepts(creds[1..], email, password))
  }

  /** `login`: the lower-cased email is put in the session when an account matches, otherwise
      the answer is 401. */
  function Login(email: string, password: string): (r: Outcome<string>)
    ensures r.Ok? <==>
      exists i :: 0 <= i < |ValidCredentials| &&
        Lower(email) == Lower(ValidCredentials[i].email) && password == ValidCredentials[i].password
    ensures r.Ok? ==> r.value == Lower(email)
    ensures r.Err? ==> r == Err(401, "Invalid credentials")
  {
    if Accepts(ValidCredentials, email, password) then Ok(Lower(email)) else Err(401, "Invalid credentials")
  }

  /** A listed account logs in. */
  lemma LoginAcceptsListed()
    ensures Login("admin@gmail.com", "admin").Ok?
  {
    assert ValidCredentials[1] == Credential("admin@gmail.com", "admin");
  }

  /** The password is compared case-sensitively. */
  lemma LoginPasswordCaseSensitive()
    ensures Login("admin@gmail.com", "ADMIN") == Err(401, "Invalid credentials")
  {
    assert forall i :: 0 <= i < |ValidCredentials| ==> ValidCredentials[i].password != "ADMIN";
  }

  // ---------------------------------------------------------------- dashboard

  datatype Dashboard = Dashboard(
    totalEvents: nat,
    totalRevenue: int,
    totalAttendees: int,
    avgRating: real,
    recentEvents: seq<Event>)

  /** Sum of ticket price times attendees over the events. */
  function TicketRevenue(events: seq<Event>): (r: int)
    ensures (forall i :: 0 <= i < |events| ==> events[i].ticketPrice >= 0 && events[i].attendees >= 0) ==> r >= 0
  {
    if events == [] then 0
    else TicketRevenue(events[..|events| - 1]) + events[|events| - 1].ticketPrice * events[|events| - 1].attendees
  }

  /** Sum of attendees over the events. */
  function AttendeeCount(events: seq<Event>): (n: int)
    ensures (forall i :: 0 <= i < |events| ==> events[i].attendees >= 0) ==> n >= 0
  {
    if events == [] then 0 else AttendeeCount(events[..|events| - 1]) + events[|events| - 1].attendees
  }

  /** One more event adds its price times its attendees to the revenue total. */
  lemma TicketRevenueAppend(events: seq<Event>, e: Event)
    ensures TicketRevenue(events + [e]) == TicketRevenue(events) + e.ticketPrice * e.attendees
  {
    assert (events + [e])[..|events|] == events;
  }

  /** One more event adds its attendees to the attendee total. */
  lemma AttendeeCountAppend(events: seq<Event>, e: Event)
    ensures AttendeeCount(events + [e]) == AttendeeCount(events) + e.attendees
  {
    assert (events + [e])[..|events|] == events;
  }

  /** `get_dashboard_stats`: the event count, revenue and attendee totals, the fixed average
      rating and the last four events. */
  function DashboardStats(events: seq<Event>): (d: Dashboard)
    ensures d.totalEvents == |events| && d.avgRating == 4.6
    ensures d.totalRevenue == TicketRevenue(events) && d.totalAttendees == AttendeeCount(events)
    ensures |d.recentEvents| == Min(4, |events|)
    ensures d.recentEvents == events[|events| - |d.recentEvents|..]
  {
    var n := Min(4, |events|);
    Dashboard(|events|, TicketRevenue(events), AttendeeCount(events), 4.6, events[|events| - n..])
  }

  /** Creating an event adds one to the event count, leaves the revenue and attendee totals
      unchanged (it starts with no attendees) and puts the new event last among the recent ones. */
  lemma DashboardAfterCreate(events: seq<Event>, e: Event)
    requires e.attendees == 0
    ensures var before, after := DashboardStats(events), DashboardStats(events + [e]);
      && after.totalEvents == before.totalEvents + 1
      && after.totalRevenue == before.totalRevenue
      && after.totalAttendees == before.totalAttendees
      && after.recentEvents[|after.recentEvents| - 1] == e
  {
    TicketRevenueAppend(events, e);
    AttendeeCountAppend(events, e);
  }

  /** With no negative price or attendee count, the totals are non-negative. */
  lemma DashboardNonNegative(events: seq<Event>)
    requires forall i :: 0 <= i < |events| ==> events[i].ticketPrice >= 0 && events[i].attendees >= 0
    ensures DashboardStats(events).totalRevenue >= 0 && DashboardStats(events).totalAttendees >= 0
  {
  }

  // ---------------------------------------------------------------- per-event views

  /** `get_event_engagement`: the stored record, or an empty one with no attendance. */
  function EventEngagement(engagement: map<string, Engagement>, eventId: int): (e: Engagement)
    ensures IdKey(eventId) in engagement ==> e == engagement[IdKey(eventId)]
    ensures IdKey(eventId) !in engagement ==> e.polls == [] && e.questions == [] && e.liveAttendance == 0
  {
    if IdKey(eventId) in engagement then engagement[IdKey(eventId)] else Engagement([], [], 0)
  }

  /** Reading a missing record shows no attendance, although the record a first poll or question
      creates starts at 240. */
  lemma EngagementDefaultsDiffer(engagement: map<string, Engagement>, eventId: int)
    requires IdKey(eventId) !in engagement
    ensures EventEngagement(engagement, eventId) == RecordOrFresh(engagement, IdKey(eventId)).(liveAttendance := 0)
    ensures RecordOrFresh(engagement, IdKey(eventId)).liveAttendance == 240
  {
  }

  datatype EventMetrics = EventMetrics(
    event: Event,
    revenue: int,
    engagementRate: int,
    satisfactionScore: real,
    attendanceTrend: seq<int>)

  /** `get_event_analytics`: the first event with the id, its revenue (price times attendees)
      and fixed engagement, satisfaction and attendance-trend figures. */
  function EventAnalyticsView(events: seq<Event>, eventId: int): (r: Outcome<EventMetrics>)
    ensures r.Err? <==> eventId !in EventIds(events)
    ensures r.Err? ==> r == Err(404, "Event not found")
    ensures r.Ok? ==>
      var e := events[IndexOf(EventIds(events), eventId)];
      && r.value.event == e && e.id == eventId
      && r.value.revenue == e.ticketPrice * e.attendees
      && r.value.engagementRate == 75 && r.value.satisfactionScore == 4.5
      && r.value.attendanceTrend == [50, 120, e.attendees]
  {
    var k := IndexOf(EventIds(events), eventId);
    if k == |events| then Err(404, "Event not found")
    else
      var e := events[k];
      Ok(EventMetrics(e, e.ticketPrice * e.attendees, 75, 4.5, [50, 120, e.attendees]))
  }

  // ---------------------------------------------------------------- post-event report: rules

  /** Python's `a / max(b, 1)`. */
  function Ratio(a: int, b: int): (r: real)
    ensures r * Max(b, 1) as real == a as real
    ensures 0 <= a <= Max(b, 1) ==> 0.0 <= r <= 1.0
  {
    RateFacts(a as real, Max(b, 1) as real);
    a as real / Max(b, 1) as real
  }

  /** Python's `a / max(b, 1) * 100`. */
  function Percent(a: int, b: int): (r: real)
    ensures r * Max(b, 1) as real == 100.0 * a as real
    ensures 0 <= a <= Max(b, 1) ==> 0.0 <= r <= 100.0
  {
    RateFacts(a as real, Max(b, 1) as real);
    a as real / Max(b, 1) as real * 100.0
  }

  /** The report's engagement rate: (poll responses + questions) / attendance * 100, capped at
      100, and 0 when attendance is not positive. */
  function ReportEngagementRate(interactions: int, attendance: int): (r: real)
    ensures r <= 100.0
    ensures attendance <= 0 ==> r == 0.0
    ensures interactions >= 0 ==> r >= 0.0
    ensures attendance > 0 && interactions >= attendance ==> r == 100.0
    ensures attendance > 0 && interactions <= attendance ==> r * attendance as real == 100.0 * interactions as real
  {
    if attendance > 0 then
      RateFacts(interactions as real, attendance as real);
      MinReal(Ratio(interactions, attendance) * 100.0, 100.0)
    else 0.0
  }

  /** The report weighs a question like a poll response; the analytics helper weighs it twice,
      so with questions asked and the rate below the cap, the report's rate is the lower one. */
  lemma EngagementRatesDiverge(responses: int, questions: int, attendance: int)
    requires attendance > 0 && responses >= 0 && questions > 0
    requires responses + 2 * questions <= attendance
    ensures ReportEngagementRate(responses + questions, attendance) <
            EventAnalytics.EngagementRate(responses, questions, attendance)
  {
    var a := attendance as real;
    var x := ReportEngagementRate(responses + questions, attendance);
    var y := EventAnalytics.EngagementRate(responses, questions, attendance);
    calc {
      x * a;
    ==
      100.0 * (responses + questions) as real;
    <
      100.0 * (responses + 2 * questions) as real;
    ==
      y * a;
    }
    ScaledLess(x, y, a);
  }

  /** The report's priority: more than 15 votes is high, more than 5 medium. */
  function ReportPriority(votes: int): (p: Priority)
    ensures p == High <==> votes > 15
    ensures p == Medium <==> 5 < votes <= 15
    ensures p == Low <==> votes <= 5
  {
    if votes > 15 then High else if votes > 5 then Medium else Low
  }

  /** The report never ranks a question lower than the analytics helper does, and ranks some
      strictly higher. */
  lemma PriorityRulesDiverge(votes: int)
    ensures Rank(ReportPriority(votes)) >= Rank(EventAnalytics.DeterminePriority(votes))
    ensures ReportPriority(16) == High && EventAnalytics.DeterminePriority(16) == Medium
    ensures ReportPriority(6) == Medium && EventAnalytics.DeterminePriority(6) == Low
  {
  }

  // ---------------------------------------------------------------- post-event report: insights

  const GoodEngagement := Insight(Strength, "engagement", 0.85)
  const InteractivePolls := Insight(Strength, "interaction", 0.90)
  const QuestionVolume := Insight(Strength, "participation", 0.80)
  const RevenueGenerated := Insight(Strength, "revenue", 0.95)
  const MarketingOpportunity := Insight(Opportunity, "marketing", 0.75)

  /** Every insight the report can emit, in the order it emits them. */
  const ReportInsightOrder: seq<Insight> :=
    [GoodEngagement, InteractivePolls, QuestionVolume, RevenueGenerated, MarketingOpportunity]

  /** The entries emitted for the given outcomes of the five tests, in emission order. */
  function ReportInsightList(engaged: bool, polls: bool, questions: bool, revenue: bool, underfilled: bool)
    : seq<Insight>
  {
    When(engaged, GoodEngagement) + (When(polls, InteractivePolls) +
    (When(questions, QuestionVolume) + (When(revenue, RevenueGenerated) +
    When(underfilled, MarketingOpportunity))))
  }

  /** An insight is in the list exactly when it is one whose test passed. */
  lemma ReportInsightListHas(x: Insight, engaged: bool, polls: bool, questions: bool, revenue: bool,
                             underfilled: bool)
    ensures x in ReportInsightList(engaged, polls, questions, revenue, underfilled) <==>
      || (engaged && x == GoodEngagement)
      || (polls && x == InteractivePolls)
      || (questions && x == QuestionVolume)
      || (revenue && x == RevenueGenerated)
      || (underfilled && x == MarketingOpportunity)
  {
    var t4 := When(underfilled, MarketingOpportunity);
    var t3 := When(revenue, RevenueGenerated) + t4;
    var t2 := When(questions, QuestionVolume) + t3;
    var t1 := When(polls, InteractivePolls) + t2;
    InWhen(x, underfilled, MarketingOpportunity, []);
    assert t4 + [] == t4;
    InWhen(x, revenue, RevenueGenerated, t4);
    InWhen(x, questions, QuestionVolume, t3);
    InWhen(x, polls, InteractivePolls, t2);
    InWhen(x, engaged, GoodEngagement, t1);
  }

  /** Each insight is present exactly when its test passed. */
  lemma ReportInsightListMembers(engaged: bool, polls: bool, questions: bool, revenue: bool, underfilled: bool)
    ensures var ins := ReportInsightList(engaged, polls, questions, revenue, underfilled);
      && (GoodEngagement in ins <==> engaged)
      && (InteractivePolls in ins <==> polls)
      && (QuestionVolume in ins <==> questions)
      && (RevenueGenerated in ins <==> revenue)
      && (MarketingOpportunity in ins <==> underfilled)
  {
    assert "engagement"[0] != "interaction"[0] && "engagement"[0] != "participation"[0];
    assert "engagement"[0] != "revenue"[0] && "engagement"[0] != "marketing"[0];
    assert "interaction"[0] != "participation"[0] && "interaction"[0] != "revenue"[0];
    assert "interaction"[0] != "marketing"[0] && "participation"[0] != "revenue"[0];
    assert "participation"[0] != "marketing"[0] && "revenue"[0] != "marketing"[0];
    ReportInsightListHas(GoodEngagement, engaged, polls, questions, revenue, underfilled);
    ReportInsightListHas(InteractivePolls, engaged, polls, questions, revenue, underfilled);
    ReportInsightListHas(QuestionVolume, engaged, polls, questions, revenue, underfilled);
    ReportInsightListHas(RevenueGenerated, engaged, polls, questions, revenue, underfilled);
    ReportInsightListHas(MarketingOpportunity, engaged, polls, questions, revenue, underfilled);
  }

  /** The entries follow the fixed order, so there are at most five of them. */
  lemma ReportInsightListOrder(engaged: bool, polls: bool, questions: bool, revenue: bool, underfilled: bool)
    ensures var ins := ReportInsightList(engaged, polls, questions, revenue, underfilled);
      IsSubsequence(ins, ReportInsightOrder) && |ins| <= 5
  {
    var cat := ReportInsightOrder;
    var t4 := When(underfilled, MarketingOpportunity);
    assert cat[4..][0] == MarketingOpportunity && cat[4..][1..] == [];
    StepOrder(underfilled, [], cat[4..]);
    assert t4 + [] == t4;
    var t3 := When(revenue, RevenueGenerated) + t4;
    assert cat[3..][0] == RevenueGenerated && cat[3..][1..] == cat[4..];
    StepOrder(revenue, t4, cat[3..]);
    var t2 := When(questions, QuestionVolume) + t3;
    assert cat[2..][0] == QuestionVolume && cat[2..][1..] == cat[3..];
    StepOrder(questions, t3, cat[2..]);
    var t1 := When(polls, InteractivePolls) + t2;
    assert cat[1..][0] == InteractivePolls && cat[1..][1..] == cat[2..];
    StepOrder(polls, t2, cat[1..]);
    assert cat[0..][0] == GoodEngagement && cat[0..][1..] == cat[1..];
    StepOrder(engaged, t1, cat[0..]);
    assert cat[0..] == cat;
    SubsequenceMembers(ReportInsightList(engaged, polls, questions, revenue, underfilled), cat);
  }

  // ---------------------------------------------------------------- post-event report: tables

  datatype OptionStat = OptionStat(text: string, votes: int, percentage: real)

  datatype PollStat = PollStat(
    id: int,
    question: string,
    pollType: string,
    totalResponses: int,
    responseRate: real,
    options: seq<OptionStat>)

  datatype QaStat = QaStat(
    id: int,
    question: string,
    category: string,
    voteCount: int,
    answered: bool,
    priority: Priority,
    responseTime: int)

  /** A poll the report lists: it has options and at least one recorded option vote. */
  predicate IsReported(p: Poll)
  {
    p.options != [] && p.optionVotes != map[]
  }

  /** `poll['option_votes'].get(option, 0)`. */
  function VotesFor(p: Poll, option: string): int
  {
    if option in p.optionVotes then p.optionVotes[option] else 0
  }

  /** One listed poll: its responses, its response rate over the attendance and, per option in
      the poll's order, its votes and its share of the responses. */
  function PollStatOf(p: Poll, attendance: int): (s: PollStat)
    ensures s.id == p.id && s.question == p.question && s.pollType == "custom"
    ensures s.totalResponses == p.responses
    ensures s.responseRate == Percent(p.responses, attendance)
    ensures |s.options| == |p.options|
    ensures forall i :: 0 <= i < |p.options| ==>
      && s.options[i].text == p.options[i]
      && s.options[i].votes == VotesFor(p, p.options[i])
      && s.options[i].percentage == Percent(VotesFor(p, p.options[i]), p.responses)
  {
    PollStat(p.id, p.question, "custom", p.responses, Percent(p.responses, attendance),
             seq(|p.options|, i requires 0 <= i < |p.options| =>
               OptionStat(p.options[i], VotesFor(p, p.options[i]), Percent(VotesFor(p, p.options[i]), p.responses))))
  }

  /** In the row of a tallied poll every option's percentage lies in [0, 100], and the response
      rate does too when no more responses than attendees were recorded. */
  lemma PollStatBounded(p: Poll, attendance: int)
    requires Tallied(p)
    ensures var s := PollStatOf(p, attendance);
      && (forall i :: 0 <= i < |s.options| ==> 0.0 <= s.options[i].percentage <= 100.0)
      && (p.responses <= Max(attendance, 1) ==> 0.0 <= s.responseRate <= 100.0)
  {
    var s := PollStatOf(p, attendance);
    forall i | 0 <= i < |s.options|
      ensures 0.0 <= s.options[i].percentage <= 100.0
    {
      OptionShareBounded(p, p.options[i]);
    }
    OptionShareBounded(p, "");
  }

  /** An option of a tallied poll holds between none and all of its responses, so its share is
      between 0 and 100 percent. */
  lemma OptionShareBounded(p: Poll, option: string)
    requires Tallied(p)
    ensures 0 <= VotesFor(p, option) <= p.responses
    ensures 0.0 <= Percent(VotesFor(p, option), p.responses) <= 100.0
  {
    TotalNonNegative(p.optionVotes);
    if option in p.optionVotes {
      TotalRemove(p.optionVotes, option);
      TotalNonNegative(p.optionVotes - {option});
    }
  }

  /** The poll table: one row per listed poll, in the polls' order. */
  function PollStats(polls: seq<Poll>, attendance: int): (r: seq<PollStat>)
    ensures |r| == |Filter(polls, IsReported)|
    ensures forall i :: 0 <= i < |r| ==> r[i] == PollStatOf(Filter(polls, IsReported)[i], attendance)
  {
    var kept := Filter(polls, IsReported);
    seq(|kept|, i requires 0 <= i < |kept| => PollStatOf(kept[i], attendance))
  }

  /** The question table: one row per question, in order, ranked by the report's priority rule. */
  function QaStats(questions: seq<Question>): (r: seq<QaStat>)
    ensures |r| == |questions|
    ensures forall i :: 0 <= i < |r| ==>
      && r[i].id == questions[i].id && r[i].question == questions[i].question
      && r[i].category == "General" && r[i].voteCount == questions[i].votes
      && r[i].answered == questions[i].answered && r[i].priority == ReportPriority(questions[i].votes)
      && r[i].responseTime == 120
  {
    seq(|questions|, i requires 0 <= i < |questions| =>
      var q := questions[i];
      QaStat(q.id, q.question, "General", q.votes, q.answered, ReportPriority(q.votes), 120))
  }

  /** Python's `max(questions, key=votes)`: the first question with the most votes. */
  function TopQuestionIndex(questions: seq<Question>): (k: nat)
    requires questions != []
    ensures k < |questions|
    ensures forall j :: 0 <= j < |questions| ==> questions[j].votes <= questions[k].votes
    ensures forall j :: 0 <= j < k ==> questions[j].votes < questions[k].votes
    decreases |questions|
  {
    if |questions| == 1 then 0
    else
      var k := TopQuestionIndex(questions[..|questions| - 1]);
      if questions[|questions| - 1].votes > questions[k].votes then |questions| - 1 else k
  }

  // ---------------------------------------------------------------- post-event report

  datatype ReportMetrics = ReportMetrics(
    totalRevenue: int,
    totalAttendees: int,
    totalCapacity: int,
    ticketsSold: int,
    totalPolls: nat,
    totalPollResponses: int,
    totalQuestions: nat,
    engagementRate: real,
    satisfactionScore: real,
    npsScore: int,
    currency: string,
    ticketPrice: int)

  datatype ReportSummary = ReportSummary(
    totalInteractions: int,
    avgPollResponses: real,
    qaAnswerRate: real,
    revenuePerAttendee: real,
    mostEngagingPoll: string,
    topQuestion: string,
    overallSatisfaction: real,
    improvementAreas: seq<string>)

  datatype PostEventReport = PostEventReport(
    metrics: ReportMetrics,
    polls: seq<PollStat>,
    questions: seq<QaStat>,
    insights: seq<Insight>,
    summary: ReportSummary)

  /** The key each event is looked up by: `str(e['id'])`. */
  function EventKeys(events: seq<Event>): seq<string>
  {
    seq(|events|, i requires 0 <= i < |events| => IdKey(events[i].id))
  }

  /** The engagement record the report reads: the stored one, or an empty one with no attendance. */
  function ReportRecord(engagement: map<string, Engagement>, eventId: string): (rec: Engagement)
    ensures eventId in engagement ==> rec == engagement[eventId]
    ensures eventId !in engagement ==> rec.polls == [] && rec.questions == [] && rec.liveAttendance == 0
  {
    if eventId in engagement then engagement[eventId] else Engagement([], [], 0)
  }

  /** Capacity utilisation in percent. */
  function Utilization(attendance: int, capacity: int): (u: real)
    requires capacity != 0
    ensures u * capacity as real == 100.0 * attendance as real
    ensures capacity > 0 && attendance >= 0 ==> u >= 0.0
    ensures capacity > 0 && 0 <= attendance <= capacity ==> u <= 100.0
  {
    RateFacts(attendance as real, capacity as real);
    attendance as real / capacity as real * 100.0
  }

  /** The headline figures of the report: revenue is the ticket price times the live
      attendance, which also stands for attendees and tickets sold. */
  function MetricsOf(e: Event, rec: Engagement): (m: ReportMetrics)
    ensures var live := rec.liveAttendance;
      && m.totalRevenue == e.ticketPrice * live
      && m.totalAttendees == live && m.ticketsSold == live
      && m.totalCapacity == e.capacity
      && m.totalPolls == |rec.polls|
      && m.totalPollResponses == TotalResponses(rec.polls)
      && m.totalQuestions == |rec.questions|
      && m.engagementRate == ReportEngagementRate(TotalResponses(rec.polls) + |rec.questions|, live)
      && m.satisfactionScore == 4.3 && m.npsScore == 68
      && m.currency == e.currency && m.ticketPrice == e.ticketPrice
      && m.engagementRate <= 100.0
      && (live <= 0 ==> m.engagementRate == 0.0)
      && (TotalResponses(rec.polls) >= 0 ==> m.engagementRate >= 0.0)
  {
    var live := rec.liveAttendance;
    var responses := TotalResponses(rec.polls);
    ReportMetrics(e.ticketPrice * live, live, e.capacity, live, |rec.polls|, responses, |rec.questions|,
                  ReportEngagementRate(responses + |rec.questions|, live), 4.3, 68, e.currency, e.ticketPrice)
  }

  /** The report's insights, in the fixed order, each present exactly when its test holds. */
  function InsightsOf(e: Event, rec: Engagement): (ins: seq<Insight>)
    requires e.capacity != 0
    ensures var m := MetricsOf(e, rec);
      && |ins| <= 5 && IsSubsequence(ins, ReportInsightOrder)
      && (GoodEngagement in ins <==> m.engagementRate > 50.0)
      && (InteractivePolls in ins <==> |rec.polls| > 0)
      && (QuestionVolume in ins <==> |rec.questions| > 5)
      && (RevenueGenerated in ins <==> m.totalRevenue > 0)
      && (MarketingOpportunity in ins <==> Utilization(rec.liveAttendance, e.capacity) < 70.0)
  {
    var m := MetricsOf(e, rec);
    var engaged, polls, questions := m.engagementRate > 50.0, |rec.polls| > 0, |rec.questions| > 5;
    var revenue, underfilled := m.totalRevenue > 0, Utilization(rec.liveAttendance, e.capacity) < 70.0;
    ReportInsightListMembers(engaged, polls, questions, revenue, underfilled);
    ReportInsightListOrder(engaged, polls, questions, revenue, underfilled);
    ReportInsightList(engaged, polls, questions, revenue, underfilled)
  }

  /** The summary block: interaction total, averages, the first poll, the top-voted question
      and three improvement hints. */
  function SummaryOf(e: Event, rec: Engagement): (s: ReportSummary)
    requires e.capacity != 0
    ensures s.totalInteractions == TotalResponses(rec.polls) + |rec.questions|
    ensures s.mostEngagingPoll == if rec.polls == [] then "N/A" else rec.polls[0].question
    ensures s.topQuestion ==
      if rec.questions == [] then "N/A" else rec.questions[TopQuestionIndex(rec.questions)].question
    ensures var responses, live := TotalResponses(rec.polls), rec.liveAttendance;
      && s.avgPollResponses == Ratio(responses, |rec.polls|)
      && s.qaAnswerRate == Percent(AnsweredCount(rec.questions), |rec.questions|)
      && 0.0 <= s.qaAnswerRate <= 100.0
      && s.revenuePerAttendee == Ratio(e.ticketPrice * live, live)
      && s.overallSatisfaction == 4.3
    ensures |s.improvementAreas| == 3
    ensures s.improvementAreas[0] ==
      if |rec.questions| > 10 then "Consider longer Q&A sessions" else "Encourage more questions"
    ensures s.improvementAreas[1] ==
      if |rec.polls| < 3 then "Add more interactive elements" else "Maintain poll frequency"
    ensures s.improvementAreas[2] ==
      if Utilization(rec.liveAttendance, e.capacity) < 80.0 then "Improve attendance marketing" else "Great attendance!"
  {
    var polls, questions, live := rec.polls, rec.questions, rec.liveAttendance;
    var responses := TotalResponses(polls);
    var answerRate := Percent(AnsweredCount(questions), |questions|);
    ReportSummary(
      responses + |questions|,
      Ratio(responses, |polls|),
      answerRate,
      Ratio(e.ticketPrice * live, live),
      if polls == [] then "N/A" else polls[0].question,
      if questions == [] then "N/A" else questions[TopQuestionIndex(questions)].question,
      4.3,
      [if |questions| > 10 then "Consider longer Q&A sessions" else "Encourage more questions",
       if |polls| < 3 then "Add more interactive elements" else "Maintain poll frequency",
       if Utilization(live, e.capacity) < 80.0 then "Improve attendance marketing" else "Great attendance!"])
  }

  /** The report of a completed event with a non-zero capacity. */
  function CompletedReport(e: Event, rec: Engagement): (rep: PostEventReport)
    requires e.capacity != 0
    ensures rep.metrics == MetricsOf(e, rec) && rep.insights == InsightsOf(e, rec) && rep.summary == SummaryOf(e, rec)
    ensures rep.polls == PollStats(rec.polls, rec.liveAttendance) && rep.questions == QaStats(rec.questions)
    ensures |rep.questions| == |rec.questions| && |rep.polls| <= |rec.polls|
  {
    SubsequenceMembers(Filter(rec.polls, IsReported), rec.polls);
    PostEventReport(MetricsOf(e, rec), PollStats(rec.polls, rec.liveAttendance), QaStats(rec.questions),
                    InsightsOf(e, rec), SummaryOf(e, rec))
  }

  /** `get_post_event_analytics`: an unknown event is 404; an event that is not completed is 400
      and nothing is computed; a capacity of 0 makes the utilisation division raise, which the
      handler answers with 500; otherwise the report. */
  function PostEventAnalytics(events: seq<Event>, engagement: map<string, Engagement>, eventId: string)
    : (r: Outcome<PostEventReport>)
    ensures r == Err(404, "Event not found") <==> eventId !in EventKeys(events)
    ensures eventId in EventKeys(events) ==>
      var e := events[IndexOf(EventKeys(events), eventId)];
      && IdKey(e.id) == eventId
      && (e.status != Completed ==> r == Err(400, "Event not completed yet"))
      && (e.status == Completed && e.capacity == 0 ==> r == Err(500, "division by zero"))
      && (e.status == Completed && e.capacity != 0 ==> r == Ok(CompletedReport(e, ReportRecord(engagement, eventId))))
  {
    var k := IndexOf(EventKeys(events), eventId);
    if k == |events| then Err(404, "Event not found")
    else
      var e := events[k];
      if e.status != Completed then Err(400, "Event not completed yet")
      else if e.capacity == 0 then Err(500, "division by zero")
      else Ok(CompletedReport(e, ReportRecord(engagement, eventId)))
  }

  /** Poll response counts of tallied polls are never negative. */
  lemma {:induction false} TalliedResponsesNonNegative(polls: seq<Poll>)
    requires forall i :: 0 <= i < |polls| ==> Tallied(polls[i])
    ensures TotalResponses(polls) >= 0
  {
    forall i | 0 <= i < |polls|
      ensures polls[i].responses >= 0
    {
      TotalNonNegative(polls[i].optionVotes);
    }
  }

  /** On any state the handlers can reach, a report's engagement rate lies between 0 and 100. */
  lemma ReportRateBounded(b: Backend, eventId: string)
    requires b.Valid()
    ensures var r := PostEventAnalytics(b.events, b.engagement, eventId);
      r.Ok? ==> 0.0 <= r.value.metrics.engagementRate <= 100.0
  {
    var rec := ReportRecord(b.engagement, eventId);
    if eventId in b.engagement {
      TalliedResponsesNonNegative(rec.polls);
    }
  }

  /** A completed event with capacity 1000 and price 450000. */
  const Festival := Event(2, "Music Festival", "", "2024-04-20", "18:00", "City Park, Jakarta", 1000, 450000,
                          "INR", "", 0, Completed, 0, None, None)

  /** Its engagement: one poll with 89 responses, one answered question, 450 attendees. */
  const FestivalRecord := Engagement([Poll(1, "Rate the music quality", [], 89, false, 0, map[])],
                                     [Question(1, "When is the next performance?", 12, true, 0)], 450)

  lemma FestivalLookup()
    ensures PostEventAnalytics([Festival], map["2" := FestivalRecord], "2") == Ok(CompletedReport(Festival, FestivalRecord))
  {
    assert EventKeys([Festival]) == ["2"];
  }

  lemma FestivalMetrics()
    ensures MetricsOf(Festival, FestivalRecord).totalRevenue == 202500000
    ensures MetricsOf(Festival, FestivalRecord).engagementRate == 20.0
  {
    assert TotalResponses(FestivalRecord.polls) == 89;
    var rate := ReportEngagementRate(90, 450);
    assert rate * 450.0 == 9000.0;
  }

  lemma FestivalInsights()
    ensures InsightsOf(Festival, FestivalRecord) == [InteractivePolls, RevenueGenerated, MarketingOpportunity]
  {
    FestivalMetrics();
    assert Utilization(450, 1000) == 45.0;
    assert InsightsOf(Festival, FestivalRecord) == ReportInsightList(false, true, false, true, true);
  }

  /** The festival's report: revenue 202,500,000, engagement 20%, and the polls, revenue and
      marketing insights. */
  lemma PostEventExample()
    ensures var r := PostEventAnalytics([Festival], map["2" := FestivalRecord], "2");
            && r.Ok?
            && r.value.metrics.totalRevenue == 202500000
            && r.value.metrics.engagementRate == 20.0
            && r.value.insights == [InteractivePolls, RevenueGenerated, MarketingOpportunity]
  {
    FestivalLookup();
    FestivalMetrics();
    FestivalInsights();
  }
}
