/** The stateless helpers of the analytics engine: question classification, the two word-list
    sentiment rules, vote priority, the capped rate formulas, the completed-event record and
    the insight generator used when an event's data is captured. */
module EventAnalytics {
  import opened Common
  import opened TextOps
  import opened Records

  // ---------------------------------------------------------------- question category

  /** The keyword buckets, in the order they are tried. */
  const CategoryBuckets: seq<(string, seq<string>)> := [
    ("technical", ["technical", "platform", "tool", "software", "system", "bug", "error"]),
    ("content", ["topic", "subject", "content", "session", "speaker", "presentation"]),
    ("engagement", ["engage", "audience", "interaction", "participate", "involve"]),
    ("logistics", ["time", "schedule", "venue", "location", "registration", "access"]),
    ("feedback", ["feedback", "opinion", "suggestion", "improve", "better", "rate"]),
    ("future", ["future", "next", "upcoming", "plan", "roadmap", "trend"]),
    ("business", ["business", "strategy", "revenue", "roi", "profit", "cost"])
  ]

  /** Index of the first bucket one of whose keywords occurs in `text`; `|buckets|` when none does. */
  function FirstMatchingBucket(buckets: seq<(string, seq<string>)>, text: string): (k: nat)
    ensures k <= |buckets|
    ensures k < |buckets| ==> AnyHit(buckets[k].1, text)
    ensures forall j :: 0 <= j < k ==> !AnyHit(buckets[j].1, text)
    decreases |buckets|
  {
    if buckets == [] then 0
    else if AnyHit(buckets[0].1, text) then 0
    else 1 + FirstMatchingBucket(buckets[1..], text)
  }

  /** `categorize_question_for_db`: the name of the first bucket with a keyword occurring in the
      lower-cased question, or "general". */
  function CategorizeQuestion(question: string): (c: string)
    ensures c == "general" <==>
              forall j :: 0 <= j < |CategoryBuckets| ==> !AnyHit(CategoryBuckets[j].1, Lower(question))
    ensures c != "general" ==>
              exists k :: 0 <= k < |CategoryBuckets| && CategoryBuckets[k].0 == c &&
                AnyHit(CategoryBuckets[k].1, Lower(question)) &&
                forall j :: 0 <= j < k ==> !AnyHit(CategoryBuckets[j].1, Lower(question))
  {
    var k := FirstMatchingBucket(CategoryBuckets, Lower(question));
    if k < |CategoryBuckets| then CategoryBuckets[k].0 else "general"
  }

  // ---------------------------------------------------------------- sentiment

  datatype Sentiment = Positive | Negative | Neutral

  const QuestionPositiveWords: seq<string> :=
    ["good", "great", "excellent", "amazing", "helpful", "useful", "love", "best"]
  const QuestionNegativeWords: seq<string> :=
    ["bad", "poor", "terrible", "awful", "hate", "worst", "difficult", "problem", "issue"]

  /** `analyze_question_sentiment`: compares how many listed positive and negative words occur. */
  function QuestionSentiment(question: string): (s: Sentiment)
    ensures var pos, neg := CountHits(QuestionPositiveWords, Lower(question)),
                            CountHits(QuestionNegativeWords, Lower(question));
            (s == Positive <==> pos > neg) && (s == Negative <==> neg > pos) && (s == Neutral <==> pos == neg)
  {
    var text := Lower(question);
    var pos := CountHits(QuestionPositiveWords, text);
    var neg := CountHits(QuestionNegativeWords, text);
    if pos > neg then Positive else if neg > pos then Negative else Neutral
  }

  /** A question containing no listed word at all is neutral. */
  lemma QuestionSentimentNoWords(question: string)
    requires !AnyHit(QuestionPositiveWords, Lower(question)) && !AnyHit(QuestionNegativeWords, Lower(question))
    ensures QuestionSentiment(question) == Neutral
  {
    CountHitsPositive(QuestionPositiveWords, Lower(question));
    CountHitsPositive(QuestionNegativeWords, Lower(question));
  }

  /** A question with some positive word and no negative word is positive, and symmetrically. */
  lemma QuestionSentimentOneSided(question: string)
    ensures (AnyHit(QuestionPositiveWords, Lower(question)) && !AnyHit(QuestionNegativeWords, Lower(question)))
              ==> QuestionSentiment(question) == Positive
    ensures (AnyHit(QuestionNegativeWords, Lower(question)) && !AnyHit(QuestionPositiveWords, Lower(question)))
              ==> QuestionSentiment(question) == Negative
  {
    CountHitsPositive(QuestionPositiveWords, Lower(question));
    CountHitsPositive(QuestionNegativeWords, Lower(question));
  }

  const SimplePositiveWords: seq<string> :=
    ["good", "great", "excellent", "amazing", "helpful", "useful", "love", "best",
     "fantastic", "wonderful", "awesome", "perfect"]
  const SimpleNegativeWords: seq<string> :=
    ["bad", "poor", "terrible", "awful", "hate", "worst", "difficult", "problem", "issue",
     "disappointing", "frustrating", "confusing"]

  datatype SentimentScore = SentimentScore(score: real, polarity: Sentiment)

  /** The score and label of a text with the given numbers of positive hits, negative hits and
      words: the difference per word (at least one), labelled by the thresholds +0.1 and -0.1. */
  function ScoreHits(pos: nat, neg: nat, words: nat): (r: SentimentScore)
    ensures r.score * Max(words, 1) as real == (pos - neg) as real
    ensures r.score > 0.0 <==> pos > neg
    ensures r.score < 0.0 <==> neg > pos
    ensures r.polarity == Positive <==> r.score > 0.1
    ensures r.polarity == Negative <==> r.score < -0.1
    ensures r.polarity == Neutral <==> -0.1 <= r.score <= 0.1
  {
    var n := Max(words, 1) as real;
    QuotientSign((pos - neg) as real, n);
    var score := (pos - neg) as real / n;
    SentimentScore(score, if score > 0.1 then Positive else if score < -0.1 then Negative else Neutral)
  }

  /** `simple_sentiment_analysis`: the score of the text's positive and negative hits over its
      word count; its sign is the sign of the difference of the hits. */
  function SimpleSentiment(text: string): (r: SentimentScore)
    ensures var pos, neg := CountHits(SimplePositiveWords, Lower(text)), CountHits(SimpleNegativeWords, Lower(text));
            && r == ScoreHits(pos, neg, |Words(text)|)
            && (r.score > 0.0 <==> pos > neg) && (r.score < 0.0 <==> neg > pos)
    ensures r.polarity == Positive <==> r.score > 0.1
    ensures r.polarity == Negative <==> r.score < -0.1
    ensures r.polarity == Neutral <==> -0.1 <= r.score <= 0.1
  {
    ScoreHits(CountHits(SimplePositiveWords, Lower(text)), CountHits(SimpleNegativeWords, Lower(text)), |Words(text)|)
  }

  /** Dividing by a positive count keeps the sign and can be undone. */
  lemma QuotientSign(x: real, n: real)
    requires n >= 1.0
    ensures (x / n) * n == x
    ensures x / n > 0.0 <==> x > 0.0
    ensures x / n < 0.0 <==> x < 0.0
  {
  }

  /** A text without any listed word scores 0 and is neutral. */
  lemma SimpleSentimentNoWords(text: string)
    requires !AnyHit(SimplePositiveWords, Lower(text)) && !AnyHit(SimpleNegativeWords, Lower(text))
    ensures SimpleSentiment(text) == SentimentScore(0.0, Neutral)
  {
    CountHitsPositive(SimplePositiveWords, Lower(text));
    CountHitsPositive(SimpleNegativeWords, Lower(text));
  }

  // ---------------------------------------------------------------- priority and rates

  /** `determine_priority_level`: 20 votes or more is high, 10 or more medium. */
  function DeterminePriority(votes: int): (p: Priority)
    ensures p == High <==> votes >= 20
    ensures p == Medium <==> 10 <= votes < 20
    ensures p == Low <==> votes < 10
  {
    if votes >= 20 then High else if votes >= 10 then Medium else Low
  }

  /** More votes never lower the priority. */
  lemma DeterminePriorityMonotone(v: int, w: int)
    requires v <= w
    ensures Rank(DeterminePriority(v)) <= Rank(DeterminePriority(w))
  {
  }

  /** `calculate_engagement_rate`: (poll responses + 2 * questions) / attendance * 100, capped at 100,
      and 0 for no attendance. */
  function EngagementRate(pollResponses: int, qaQuestions: int, attendance: int): (r: real)
    ensures r <= 100.0
    ensures attendance == 0 ==> r == 0.0
    ensures attendance > 0 && pollResponses >= 0 && qaQuestions >= 0 ==> r >= 0.0
    ensures attendance > 0 && pollResponses + 2 * qaQuestions >= attendance ==> r == 100.0
    ensures attendance > 0 && pollResponses + 2 * qaQuestions <= attendance ==>
              r * attendance as real == 100.0 * (pollResponses + 2 * qaQuestions) as real
  {
    if attendance == 0 then 0.0
    else
      var weighted := (pollResponses + qaQuestions * 2) as real;
      var score := weighted / attendance as real * 100.0;
      RateFacts(weighted, attendance as real);
      MinReal(score, 100.0)
  }

  /** `calculate_conversion_rate`: tickets sold over max(1000, 5 * sold) page views, in percent. */
  function ConversionRate(ticketsSold: int): (r: real)
    ensures r <= 20.0
    ensures ticketsSold >= 0 ==> r >= 0.0
    ensures ticketsSold >= 200 ==> r == 20.0
    ensures ticketsSold <= 200 ==> r * 10.0 == ticketsSold as real
  {
    var pageViews := Max(1000, ticketsSold * 5);
    if pageViews > 0 then
      RateFacts(ticketsSold as real, pageViews as real);
      ticketsSold as real / pageViews as real * 100.0
    else 0.0
  }

  // ---------------------------------------------------------------- satisfaction

  datatype Satisfaction = Satisfaction(score: real, nps: real, recommendationRate: real)

  const SatisfactionWords: seq<string> := ["satisfaction", "satisfied", "rate", "recommend"]

  /** A poll asking about satisfaction or recommendation. */
  predicate IsSatisfactionPoll(p: Poll)
  {
    AnyHit(SatisfactionWords, Lower(p.question))
  }

  /** `analyze_satisfaction_from_polls`: fixed defaults without a satisfaction poll, otherwise
      scores that grow with the satisfaction polls' responses, each capped. */
  function AnalyzeSatisfaction(polls: seq<Poll>): (s: Satisfaction)
    ensures Filter(polls, IsSatisfactionPoll) == [] ==> s == Satisfaction(3.5, 50.0, 75.0)
    ensures s.score <= 5.0 && s.nps <= 100.0 && s.recommendationRate <= 95.0
    ensures Filter(polls, IsSatisfactionPoll) != [] && TotalResponses(Filter(polls, IsSatisfactionPoll)) >= 0 ==>
              s.score >= 3.5 && s.nps >= 40.0 && s.recommendationRate >= 60.0
  {
    var chosen := Filter(polls, IsSatisfactionPoll);
    if chosen == [] then Satisfaction(3.5, 50.0, 75.0)
    else
      var total := TotalResponses(chosen) as real;
      Satisfaction(MinReal(3.5 + total / 100.0, 5.0),
                   MinReal(40.0 + total / 10.0, 100.0),
                   MinReal(60.0 + total / 5.0, 95.0))
  }

  // ---------------------------------------------------------------- keywords

  const StopWords: set<string> := {
    "the", "a", "an", "and", "or", "but", "in", "on", "at", "to", "for", "of", "with", "by",
    "how", "what", "when", "where", "why", "is", "are", "was", "were", "be", "been", "have",
    "has", "had", "do", "does", "did", "will", "would", "could", "should", "can", "may", "might"
  }

  /** A token worth keeping: longer than three characters and not a stop word. */
  predicate IsKeyword(w: string)
  {
    |w| > 3 && w !in StopWords
  }

  /** `extract_keywords`: the first five qualifying lower-cased tokens, in input order. */
  function ExtractKeywords(text: string): (r: seq<string>)
    ensures |r| <= 5
    ensures forall i :: 0 <= i < |r| ==> r[i] in Words(Lower(text)) && |r[i]| > 3 && r[i] !in StopWords
    ensures IsSubsequence(r, Words(Lower(text)))
    ensures |Filter(Words(Lower(text)), IsKeyword)| <= 5 ==> r == Filter(Words(Lower(text)), IsKeyword)
    ensures |r| == Min(5, |Filter(Words(Lower(text)), IsKeyword)|)
    ensures r == Filter(Words(Lower(text)), IsKeyword)[..|r|]
  {
    var tokens := Words(Lower(text));
    var kept := Filter(tokens, IsKeyword);
    var r := kept[..Min(5, |kept|)];
    SubsequencePrefix(kept, tokens, |r|);
    assert |kept| <= 5 ==> r == kept;
    r
  }

  // ---------------------------------------------------------------- completed-event record

  /** Per-event ticket totals, each field possibly absent. */
  datatype TicketTotals = TicketTotals(totalSold: Option<int>, revenue: Option<int>)

  /** The record `get_complete_event_data` assembles (the 85% average attendance is not kept). */
  datatype EventData = EventData(
    eventId: string,
    title: string,
    date: string,
    totalCapacity: int,
    ticketsSold: int,
    totalRevenue: int,
    ticketPrice: int,
    currency: string,
    liveAttendance: int,
    peakAttendance: int,
    durationMinutes: int,
    totalPolls: nat,
    totalPollResponses: int,
    totalQuestions: nat,
    totalAnswered: nat,
    engagementRate: real,
    conversionRate: real,
    satisfaction: Satisfaction,
    polls: seq<Poll>,
    questions: seq<Question>)

  function GetOr(o: Option<int>, default: int): int
  {
    match o
    case Some(v) => v
    case None => default
  }

  /** `get_complete_event_data`: looks up the event, its engagement record and its ticket totals
      and fills every missing value with the source's default. */
  function CompleteEventData(eventId: int, events: seq<Event>, engagement: map<string, Engagement>,
                             tickets: map<string, TicketTotals>, today: string): (d: EventData)
    ensures var k := IndexOf(EventIds(events), eventId);
            && (k == |events| ==> d.title == "Unknown Event" && d.date == today && d.totalCapacity == 500 &&
                                  d.ticketPrice == 25000 && d.currency == "INR")
            && (k < |events| ==> d.title == events[k].title && d.date == events[k].date &&
                                 d.totalCapacity == events[k].capacity &&
                                 d.ticketPrice == events[k].ticketPrice && d.currency == events[k].currency)
    ensures IdKey(eventId) in engagement ==>
              d.polls == engagement[IdKey(eventId)].polls && d.questions == engagement[IdKey(eventId)].questions &&
              d.liveAttendance == engagement[IdKey(eventId)].liveAttendance
    ensures IdKey(eventId) !in engagement ==> d.polls == [] && d.questions == []
    ensures IdKey(eventId) !in engagement && IdKey(eventId) !in tickets ==>
              d.liveAttendance == 150 && d.ticketsSold == 150 && d.totalRevenue == d.ticketPrice * 150
    ensures d.totalPolls == |d.polls| && d.totalQuestions == |d.questions|
    ensures d.totalPollResponses == TotalResponses(d.polls) && d.totalAnswered == AnsweredCount(d.questions)
    ensures var key := IdKey(eventId);
            var tix := if key in tickets then tickets[key] else TicketTotals(None, None);
            && d.liveAttendance == (if key in engagement then engagement[key].liveAttendance else GetOr(tix.totalSold, 150))
            && d.ticketsSold == GetOr(tix.totalSold, d.liveAttendance)
            && d.totalRevenue == GetOr(tix.revenue, d.ticketPrice * d.ticketsSold)
    ensures d.totalAnswered <= d.totalQuestions
    ensures d.peakAttendance == Max(d.liveAttendance, d.ticketsSold)
    ensures d.peakAttendance >= d.liveAttendance && d.peakAttendance >= d.ticketsSold
    ensures d.durationMinutes == 120
    ensures d.engagementRate == EngagementRate(d.totalPollResponses, d.totalQuestions, d.liveAttendance)
    ensures d.conversionRate == ConversionRate(d.ticketsSold)
    ensures d.satisfaction == AnalyzeSatisfaction(d.polls)
    ensures d.engagementRate <= 100.0 && d.conversionRate <= 20.0
    ensures d.eventId == IdKey(eventId)
  {
    var key := IdKey(eventId);
    var k := IndexOf(EventIds(events), eventId);
    var tix := if key in tickets then tickets[key] else TicketTotals(None, None);
    var polls := if key in engagement then engagement[key].polls else [];
    var questions := if key in engagement then engagement[key].questions else [];
    var live := if key in engagement then engagement[key].liveAttendance else GetOr(tix.totalSold, 150);
    var sold := GetOr(tix.totalSold, live);
    var price := if k < |events| then events[k].ticketPrice else 25000;
    EventData(
      key,
      if k < |events| then events[k].title else "Unknown Event",
      if k < |events| then events[k].date else today,
      if k < |events| then events[k].capacity else 500,
      sold,
      GetOr(tix.revenue, price * sold),
      price,
      if k < |events| then events[k].currency else "INR",
      live,
      Max(live, sold),
      120,
      |polls|,
      TotalResponses(polls),
      |questions|,
      AnsweredCount(questions),
      EngagementRate(TotalResponses(polls), |questions|, live),
      ConversionRate(sold),
      AnalyzeSatisfaction(polls),
      polls,
      questions)
  }

  // ---------------------------------------------------------------- insights

  const ExceptionalEngagement := Insight(Strength, "engagement", 0.9)
  const LowEngagement := Insight(Weakness, "engagement", 0.85)
  const StrongTicketSales := Insight(Strength, "revenue", 0.95)
  const UnansweredQuestions := Insight(Opportunity, "content", 0.8)
  const EffectivePolls := Insight(Strength, "engagement", 0.85)
  const FutureRecommendation := Insight(Recommendation, "future", 0.75)

  /** Every insight this generator can emit, in the order it emits them. */
  const CaptureInsightOrder: seq<Insight> :=
    [ExceptionalEngagement, LowEngagement, StrongTicketSales, UnansweredQuestions, EffectivePolls,
     FutureRecommendation]

  /** Share of answered questions in percent, 100 when there are none. */
  function AnswerRate(answered: nat, questions: nat): (r: real)
    ensures questions == 0 ==> r == 100.0
    ensures questions > 0 ==> r * questions as real == 100.0 * answered as real
    ensures answered <= questions ==> 0.0 <= r <= 100.0
  {
    if questions > 0 then
      RateFacts(answered as real, questions as real);
      answered as real / questions as real * 100.0
    else 100.0
  }

  /** The entries emitted for the given outcomes of the five tests, in emission order. */
  function CaptureList(high: bool, low: bool, filled: bool, unanswered: bool, polls: bool): seq<Insight>
  {
    When(high, ExceptionalEngagement) + (When(!high && low, LowEngagement) + (When(filled, StrongTicketSales) +
    (When(unanswered, UnansweredQuestions) + (When(polls, EffectivePolls) + [FutureRecommendation]))))
  }

  /** The list holds one to five entries and the recommendation closes it. */
  lemma CaptureListShape(high: bool, low: bool, filled: bool, unanswered: bool, polls: bool)
    ensures var ins := CaptureList(high, low, filled, unanswered, polls);
      1 <= |ins| <= 5 && ins[|ins| - 1] == FutureRecommendation
  {
  }

  /** An insight is in the list exactly when it is one whose test passed, or the recommendation. */
  lemma CaptureListHas(x: Insight, high: bool, low: bool, filled: bool, unanswered: bool, polls: bool)
    ensures x in CaptureList(high, low, filled, unanswered, polls) <==>
      || (high && x == ExceptionalEngagement)
      || (!high && low && x == LowEngagement)
      || (filled && x == StrongTicketSales)
      || (unanswered && x == UnansweredQuestions)
      || (polls && x == EffectivePolls)
      || x == FutureRecommendation
  {
    var t4 := When(polls, EffectivePolls) + [FutureRecommendation];
    var t3 := When(unanswered, UnansweredQuestions) + t4;
    var t2 := When(filled, StrongTicketSales) + t3;
    var t1 := When(!high && low, LowEngagement) + t2;
    InWhen(x, polls, EffectivePolls, [FutureRecommendation]);
    InWhen(x, unanswered, UnansweredQuestions, t4);
    InWhen(x, filled, StrongTicketSales, t3);
    InWhen(x, !high && low, LowEngagement, t2);
    InWhen(x, high, ExceptionalEngagement, t1);
  }

  /** Each optional entry is present exactly when its test passed. */
  lemma CaptureListMembers(high: bool, low: bool, filled: bool, unanswered: bool, polls: bool)
    ensures var ins := CaptureList(high, low, filled, unanswered, polls);
      && (ExceptionalEngagement in ins <==> high)
      && (LowEngagement in ins <==> !high && low)
      && (StrongTicketSales in ins <==> filled)
      && (UnansweredQuestions in ins <==> unanswered)
      && (EffectivePolls in ins <==> polls)
  {
    assert "engagement"[0] != "revenue"[0] && "engagement"[0] != "content"[0] && "engagement"[0] != "future"[0];
    assert "revenue"[0] != "content"[0] && "revenue"[0] != "future"[0] && "content"[0] != "future"[0];
    CaptureListHas(ExceptionalEngagement, high, low, filled, unanswered, polls);
    CaptureListHas(LowEngagement, high, low, filled, unanswered, polls);
    CaptureListHas(StrongTicketSales, high, low, filled, unanswered, polls);
    CaptureListHas(UnansweredQuestions, high, low, filled, unanswered, polls);
    CaptureListHas(EffectivePolls, high, low, filled, unanswered, polls);
  }

  /** The entries follow catalogue order. */
  lemma CaptureListOrder(high: bool, low: bool, filled: bool, unanswered: bool, polls: bool)
    ensures IsSubsequence(CaptureList(high, low, filled, unanswered, polls), CaptureInsightOrder)
  {
    var cat := CaptureInsightOrder;
    var t5 := [FutureRecommendation];
    SubsequenceRefl(t5);
    assert cat[5..] == t5;
    var t4 := When(polls, EffectivePolls) + t5;
    assert cat[4..][0] == EffectivePolls && cat[4..][1..] == cat[5..];
    StepOrder(polls, t5, cat[4..]);
    var t3 := When(unanswered, UnansweredQuestions) + t4;
    assert cat[3..][0] == UnansweredQuestions && cat[3..][1..] == cat[4..];
    StepOrder(unanswered, t4, cat[3..]);
    var t2 := When(filled, StrongTicketSales) + t3;
    assert cat[2..][0] == StrongTicketSales && cat[2..][1..] == cat[3..];
    StepOrder(filled, t3, cat[2..]);
    var t1 := When(!high && low, LowEngagement) + t2;
    assert cat[1..][0] == LowEngagement && cat[1..][1..] == cat[2..];
    StepOrder(!high && low, t2, cat[1..]);
    assert cat[0..][0] == ExceptionalEngagement && cat[0..][1..] == cat[1..];
    StepOrder(high, t1, cat[0..]);
    assert cat[0..] == cat;
  }

  /** `generate_event_insights`; `None` stands for the ZeroDivisionError a capacity of 0 raises. */
  function CaptureInsights(d: EventData): (r: Option<seq<Insight>>)
    ensures r.Some? <==> d.totalCapacity != 0
    ensures r.Some? ==> var ins := r.value;
      && 1 <= |ins| <= 5
      && ins[|ins| - 1] == FutureRecommendation
      && IsSubsequence(ins, CaptureInsightOrder)
      && (ExceptionalEngagement in ins <==> d.engagementRate > 80.0)
      && (LowEngagement in ins <==> d.engagementRate < 30.0)
      && (StrongTicketSales in ins <==> d.ticketsSold as real / d.totalCapacity as real > 0.8)
      && (UnansweredQuestions in ins <==> d.totalQuestions > 0 && AnswerRate(d.totalAnswered, d.totalQuestions) < 50.0)
      && (EffectivePolls in ins <==>
            d.totalPolls > 0 && d.totalPollResponses as real / d.totalPolls as real > d.liveAttendance as real * 0.6)
  {
    if d.totalCapacity == 0 then None
    else
      var high := d.engagementRate > 80.0;
      var low := d.engagementRate < 30.0;
      var filled := d.ticketsSold as real / d.totalCapacity as real > 0.8;
      var unanswered := AnswerRate(d.totalAnswered, d.totalQuestions) < 50.0;
      var polls := d.totalPolls > 0 && d.totalPollResponses as real / d.totalPolls as real > d.liveAttendance as real * 0.6;
      CaptureListShape(high, low, filled, unanswered, polls);
      CaptureListMembers(high, low, filled, unanswered, polls);
      CaptureListOrder(high, low, filled, unanswered, polls);
      Some(CaptureList(high, low, filled, unanswered, polls))
  }
}
