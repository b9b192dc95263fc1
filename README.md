# EventPro backend: a verified model

EventPro is a Flask backend for running events. It creates events and sells tickets. During an
event it runs live polls and a Q&A board, and after the event it produces an analytics report.
This project models three parts of it in Dafny and proves properties of the model:

- **The in-memory application state** of `backend/app.py`. Four module globals become the
  fields of one `App.Backend` object:
  - the event list;
  - the engagement store, keyed by `str(event_id)`;
  - the booking list;
  - the live-sales counters.

  Each state-changing request handler is a method on that object. The JSON body arrives as
  plain parameters and `datetime.now()` as an opaque integer. The class invariant `Valid()`
  states five things:
  - the sales counters agree with the bookings;
  - the recent-bookings list is the newest-first window of at most ten bookings;
  - booking ids are 1..n in order;
  - every poll's `responses` equals the sum of its `option_votes`;
  - within one event's record, no two polls and no two questions share an id.

  Every handler preserves `Valid()`. The read-only handlers (login, dashboard, engagement view,
  event analytics, post-event report) are functions of the state in module `AppQueries`.
- **The stateless analytics helpers** of `backend/event_analytics.py` (module
  `EventAnalytics`):
  - keyword-bucket question categories;
  - the two word-list sentiment rules;
  - vote-threshold priority;
  - the capped engagement, conversion and satisfaction formulas;
  - stop-word keyword extraction;
  - the completed-event record;
  - the ordered insight generator.
- **The booking bookkeeping** of `ticket_booking_simulator.py`. This is the class
  `BookingSimulator.TicketBookingSimulator`, whose invariant keeps the revenue counter equal to
  the sum of the booked prices. The randomly generated attendee and the booking time are
  parameters.

Supporting modules:

- `Common` holds Option/Outcome, priorities, insights, subsequences, `Filter`, `IndexOf`, the
  `x / a * 100` rate facts and the conditional one-element list `When`.
- `TextOps` holds ASCII lower-casing, substring search, whitespace splitting and `str(int)`
  keys.
- `Tally` holds the sum of a vote map and occurrence counts.
- `Records` holds the stored records, the "max id + 1" allocation and response sums.

A handler's HTTP error becomes `Err(code, message)` with the status code and the error text the
handler returns.

Two points of the code are worth knowing:

- **Status transitions are not restricted.** `go_live_event` (`backend/app.py:756`) and
  `end_event` (`backend/app.py:790`) overwrite whatever status the event has. So
  `App.Backend.GoLive` and `App.Backend.EndEvent` have no status precondition.
- **Priority and engagement rules exist twice.** The report's rules (`backend/app.py`) and the
  helper's rules (`backend/event_analytics.py`) differ. They are kept as separate functions, and
  lemmas state how they differ.

## Model

| member | source | states |
|---|---|---|
| App.Backend.constructor | backend/app.py:31-79 | The loaded events, or the two sample events with ids 1 and 2 when none were loaded. No engagement records, no bookings and zero sales. The invariant holds. |
| App.SampleEvents | backend/app.py:47-79 | The two sample events have ids 1 and 2, status upcoming and no attendees. |
| App.Backend.BookTicket | backend/app.py:192-212 | The booking gets id = previous count + 1 and is appended. The price defaults to 250000 and the currency to "INR". `total_sales` goes up by one and `total_revenue` by the price. The new booking heads `recent_bookings`, which holds at most 10 entries. The invariant is kept, so the recent list is always the newest-first window. Events and engagement are unchanged. |
| App.RecentWindow | backend/app.py:208-212 | The window holds min(10, n) bookings: entry i is the (i+1)-th newest booking. |
| App.RecentWindowStep | backend/app.py:208-212 | `insert(0, b)` followed by the cut to ten turns the window of the earlier bookings into the window of all bookings. |
| App.SumPricesAppend | backend/app.py:207 | Appending a booking adds its price to the revenue sum. |
| App.Backend.CreateEvent | backend/app.py:226-244 | The new event gets id = max existing id + 1 (1 when there are none), and that id is fresh. It is appended with status upcoming and 0 attendees. Capacity and price default to 0, the currency to "INR" and the image to the default path. Earlier events and all other state are unchanged. |
| Records.NextIdFresh | backend/app.py:430 | `max(ids, default=0) + 1` exceeds every existing id, is 1 for no ids, and is not among them. |
| Records.DistinctAfterAllocation | backend/app.py:430 | Allocating the next id keeps ids distinct. |
| Records.DistinctIdsUnique | backend/app.py:500-501 | With distinct ids, the first position holding an id, which the handlers' loops find, is the only one. |
| Records.PollIdsDistinctSubsequence | backend/app.py:467 | Dropping polls, as the delete's comprehension does, keeps their ids distinct. |
| Records.QuestionIdsDistinctSubsequence | backend/app.py:639 | Dropping questions keeps their ids distinct. |
| Records.MaxId | backend/app.py:430 | `max(ids, default=0)`: an upper bound that is one of the ids, or 0 for none. |
| App.Backend.CreatePoll | backend/app.py:421-442 | A missing record is created with empty lists and attendance 240. The poll gets the next free poll id of that event, 0 responses and every option at 0 votes. It is appended. Every other record is untouched. |
| App.NewPoll | backend/app.py:432-440 | A new poll: zero responses, active, and a vote map whose keys are exactly the options, all at 0. |
| App.NewPollTallied | backend/app.py:432-440 | A new poll satisfies responses == sum(option_votes). |
| App.RecordOrFresh | backend/app.py:421-426 | The record a write starts from: the stored one, or the fresh record with attendance 240. |
| App.Backend.VotePoll | backend/app.py:497-531 | Ok exactly when the record exists and holds a poll with the id. Error cases: no record gives 404 "Event not found"; no poll with the id gives 404 "Poll not found"; both leave the state unchanged. On Ok only the first poll with that id changes, and no other poll of the record has that id. Its chosen option gets one more vote (created at 1 when absent) and it gets one more response. The tally invariant is kept. |
| App.Voted | backend/app.py:506-512 | A vote adds 1 to `responses` and 1 to the chosen option (0 + 1 when absent). Other options are unchanged. The key set gains the option. |
| App.VotedTallied | backend/app.py:506-512 | A vote preserves responses == sum(option_votes), and the sum grows by exactly 1. |
| Tally.TotalBump | backend/app.py:506-509 | Incrementing (or creating at 1) one key of a vote map adds 1 to its total. |
| App.Backend.DeletePoll | backend/app.py:465-480 | It fails (404 "Poll not found") exactly when the event has no record. Otherwise every poll with the id is dropped and the rest keep their order, also when none matches. |
| App.WithoutPoll | backend/app.py:467 | The filter-delete: the result is an order-preserving subsequence holding exactly the polls with other ids. It is the whole list when the id is absent. |
| App.Backend.CreateQuestion | backend/app.py:557-576 | A missing record is created with attendance 240. The question gets the next free question id of the event, 0 votes and `answered` false. It is appended. |
| App.Backend.VoteQuestion | backend/app.py:599-623 | Ok exactly when the record exists and holds a question with the id. Error cases: no record gives 404 "Event not found"; no question with the id gives 404 "Question not found"; both leave the state unchanged. On Ok the first question with the id gets exactly one more vote and nothing else changes; no other question of the record has that id. |
| App.Backend.DeleteQuestion | backend/app.py:637-652 | It fails (404 "Question not found") exactly when the event has no record. Otherwise every question with the id is dropped, order kept, also when none matches. |
| App.WithoutQuestion | backend/app.py:639 | An order-preserving subsequence holding exactly the questions with other ids. It is unchanged when the id is absent. |
| App.Backend.GoLive | backend/app.py:751-762 | It fails (404 "Event not found") exactly when no event has the id. Otherwise the first such event becomes live with its start time, whatever its prior status. |
| App.Backend.EndEvent | backend/app.py:788-800 | The first event with the id becomes completed with its end time. With no match nothing changes; the handler still reports success. |
| TextOps.IdKey | backend/app.py:406 | `str(id)`: a non-empty string of decimal digits, led by '-' for a negative id and by a digit otherwise. |
| TextOps.IdKeyInjective | backend/app.py:406 | `str(event_id)` is injective, so writing one event's record never touches another's. |
| TextOps.IdKeySign | backend/app.py:406 | A key starts with '-' exactly for a negative id. |
| TextOps.IdKeyExamples | backend/app.py:406 | `str(1)` is "1", `str(42)` is "42", `str(-7)` is "-7". |
| AppQueries.Login | backend/app.py:94-111 | Ok with the lower-cased email exactly when some fixed account matches the email case-insensitively and the password exactly. Otherwise 401 "Invalid credentials". |
| AppQueries.Accepts | backend/app.py:101-109 | The recursive account check holds iff some listed account matches. |
| AppQueries.LoginAcceptsListed | backend/app.py:96 | A listed account (admin@gmail.com / admin) logs in. |
| AppQueries.LoginPasswordCaseSensitive | backend/app.py:102-106 | The password comparison is case-sensitive: "ADMIN" is refused. |
| AppQueries.DashboardStats | backend/app.py:349-363 | The event count, the revenue (sum of price × attendees) and attendee totals, the fixed 4.6 rating, and the last min(4, n) events in order. |
| AppQueries.TicketRevenue | backend/app.py:350 | The sum of price × attendees over the events; non-negative when no price or attendee count is negative. |
| AppQueries.AttendeeCount | backend/app.py:351 | The sum of attendees over the events; non-negative when no count is negative. |
| AppQueries.TicketRevenueAppend | backend/app.py:350 | One more event adds its price × attendees to the revenue total. |
| AppQueries.AttendeeCountAppend | backend/app.py:351 | One more event adds its attendees to the attendee total. |
| AppQueries.DashboardAfterCreate | backend/app.py:349-363 | Creating an event raises the count by one, keeps revenue and attendee totals, and makes the new event the newest recent one. |
| AppQueries.DashboardNonNegative | backend/app.py:350-351 | With no negative price or attendee count, the revenue and attendee totals are non-negative. |
| AppQueries.EventEngagement | backend/app.py:384-395 | The stored record, or empty lists with attendance 0. |
| AppQueries.EngagementDefaultsDiffer | backend/app.py:384-388 | Reading a missing record shows attendance 0, while the record a first write creates starts at 240. |
| AppQueries.EventAnalyticsView | backend/app.py:726-744 | 404 "Event not found" iff no event has the id. Otherwise the first such event with revenue price × attendees and the fixed figures 75, 4.5 and [50, 120, attendees]. |
| AppQueries.ReportEngagementRate | backend/app.py:840-842 | 0 when attendance ≤ 0. Otherwise 100·(responses + questions)/attendance capped at 100. It is non-negative for non-negative counts and exactly 100 once interactions reach attendance. |
| AppQueries.EngagementRatesDiverge | backend/app.py:840-842 | With questions asked and below the cap, the report's rate is strictly lower than the helper's (questions weigh 1 instead of 2). |
| AppQueries.ReportPriority | backend/app.py:896 | High iff votes > 15, medium iff 5 < votes ≤ 15, low otherwise. |
| AppQueries.PriorityRulesDiverge | backend/app.py:896 | The report never ranks a question below the helper. It ranks 16 votes high where the helper says medium, and 6 votes medium where the helper says low. |
| AppQueries.ReportInsightListHas | backend/app.py:901-948 | An insight is emitted iff it is one whose test passed. |
| AppQueries.ReportInsightListMembers | backend/app.py:901-948 | Each of the five insights is present exactly when its condition holds. |
| AppQueries.ReportInsightListOrder | backend/app.py:901-948 | The insights follow the fixed order engagement, interaction, participation, revenue, marketing, so there are at most five. |
| AppQueries.PollStatOf | backend/app.py:863-884 | Per listed poll: its id, question text, the type "custom", its responses and a response rate of `Percent(responses, live_attendance)`; per option in order, its text, `option_votes.get(option, 0)` and a percentage of `Percent(votes, responses)`. |
| AppQueries.PollStatBounded | backend/app.py:869-876 | In a tallied poll's row every option percentage lies in [0, 100]. The response rate does too when responses do not exceed max(attendance, 1). |
| AppQueries.OptionShareBounded | backend/app.py:866-869 | For a tallied poll an option's votes lie in [0, responses], so its `Percent` share lies in [0, 100]. |
| AppQueries.PollStats | backend/app.py:861-884 | One row per poll that has options and option votes, in poll order. |
| AppQueries.QaStats | backend/app.py:887-898 | One row per question, in order, with its id, question text, category "General", votes, answered flag, a response time of 120, and a rank by the >15 / >5 rule. |
| AppQueries.TopQuestionIndex | backend/app.py:967 | `max(questions, key=votes)`: a question with the most votes, the first such one. |
| AppQueries.MetricsOf | backend/app.py:827-858 | Revenue = price × live attendance. Attendees and tickets sold are the live attendance. It carries the capacity, the poll, response and question counts, the event's price and currency, and the fixed satisfaction 4.3 and NPS 68. The engagement rate is the report's rate of (responses + questions) over the live attendance: at most 100, 0 for no attendance, non-negative for non-negative responses. |
| AppQueries.ReportRecord | backend/app.py:826-829 | The stored record for the key, or empty lists with attendance 0. |
| AppQueries.Utilization | backend/app.py:940 | utilisation × capacity = 100 × attendance; in [0, 100] for a positive capacity and an attendance between 0 and the capacity. |
| AppQueries.Ratio | backend/app.py:869 | `a / max(b, 1)`: ratio × max(b, 1) = a, and in [0, 1] when 0 ≤ a ≤ max(b, 1). |
| AppQueries.Percent | backend/app.py:964 | `a / max(b, 1) * 100`: percent × max(b, 1) = 100 × a, and in [0, 100] when 0 ≤ a ≤ max(b, 1). |
| AppQueries.InsightsOf | backend/app.py:901-948 | The report's insights in the fixed order, at most five. Each is present exactly when its test holds: rate > 50; some poll; more than 5 questions; revenue > 0; utilisation < 70. |
| AppQueries.SummaryOf | backend/app.py:962-977 | Total interactions = responses + questions. The average poll responses is responses / max(polls, 1); the Q&A answer rate is 100 × answered / max(questions, 1) and lies in [0, 100]; revenue per attendee is revenue / max(attendance, 1). The most engaging poll is the first poll or "N/A". The top question is the first most-voted one or "N/A". The satisfaction is 4.3. The three hints follow their thresholds: more than 10 questions, fewer than 3 polls, utilisation below 80. |
| AppQueries.CompletedReport | backend/app.py:845-977 | The report is made of the metrics, the poll table, the question table, the insights and the summary above; one question row per question and at most one poll row per poll. |
| AppQueries.PostEventAnalytics | backend/app.py:813-986 | Unknown id gives 404 "Event not found". Status not completed gives 400 "Event not completed yet", with no metrics computed. Capacity 0 gives 500 "division by zero" (the utilisation division). Otherwise the completed report. |
| AppQueries.ReportRateBounded | backend/app.py:840-842 | On every state satisfying the invariant, a report's engagement rate lies in [0, 100]. |
| Records.TotalResponses | backend/app.py:832 | `sum(poll['responses'])`; non-negative when no poll's count is negative. |
| Records.AnsweredCount | backend/app.py:964 | The number of answered questions, at most the number of questions. |
| AppQueries.TalliedResponsesNonNegative | backend/app.py:832 | Tallied polls have a non-negative response total. |
| AppQueries.PostEventExample | backend/app.py:813-948 | A completed event with capacity 1000, price 450000, attendance 450, one poll with 89 responses and one question. The report has revenue 202,500,000, engagement rate 20, and the interaction, revenue and marketing insights. |
| EventAnalytics.FirstMatchingBucket | backend/event_analytics.py:349-351 | The first bucket with a keyword occurring in the text; no earlier bucket has one. |
| EventAnalytics.CategorizeQuestion | backend/event_analytics.py:335-353 | "general" iff no bucket has a keyword in the lower-cased question. Otherwise it is the name of the first bucket, in the fixed order technical … business, whose keyword occurs. |
| EventAnalytics.QuestionSentiment | backend/event_analytics.py:355-369 | Positive iff more distinct positive words occur than negative, negative iff the reverse, neutral iff the counts are equal. |
| EventAnalytics.QuestionSentimentNoWords | backend/event_analytics.py:355-369 | A question with no listed word is neutral. |
| EventAnalytics.QuestionSentimentOneSided | backend/event_analytics.py:355-369 | Only positive words present gives positive; only negative words present gives negative. |
| TextOps.CountHitsPositive | backend/event_analytics.py:361-362 | The hit count is positive iff some listed word occurs. |
| TextOps.ContainsAt | backend/event_analytics.py:361 | Python's `word in text` holds iff the word occurs at some position. |
| EventAnalytics.DeterminePriority | backend/event_analytics.py:371-378 | High iff votes ≥ 20, medium iff 10 ≤ votes < 20, low otherwise. |
| EventAnalytics.DeterminePriorityMonotone | backend/event_analytics.py:371-378 | More votes never lower the priority. |
| EventAnalytics.EngagementRate | backend/event_analytics.py:380-386 | 0 for no attendance. Otherwise 100·(responses + 2·questions)/attendance capped at 100: never above 100, exactly 100 at or past attendance, non-negative for non-negative inputs. |
| EventAnalytics.ConversionRate | backend/event_analytics.py:388-392 | sold / max(1000, 5·sold) in percent. Never above 20, exactly 20 from 200 sold, sold/10 below that, non-negative for non-negative sales. |
| EventAnalytics.AnalyzeSatisfaction | backend/event_analytics.py:394-410 | Exactly (3.5, 50, 75) with no satisfaction poll. The score is always ≤ 5, nps ≤ 100 and the recommendation rate ≤ 95. With satisfaction polls and non-negative responses, each is at least its base. |
| EventAnalytics.ExtractKeywords | backend/event_analytics.py:535-542 | The first min(5, qualifying) qualifying tokens, as a prefix of the qualifying tokens. At most five words. Each is a lower-cased whitespace token longer than 3 and not a stop word. Input order is kept (a subsequence of the tokens). All qualifying tokens are returned when there are at most five, and min(5, qualifying) in general. |
| TextOps.Words | backend/event_analytics.py:537 | `str.split()`: each token is non-empty and has no whitespace. |
| TextOps.WordsOfSpaces | backend/event_analytics.py:537 | A text of separators only splits into no words. |
| TextOps.WordsSplitAtSpace | backend/event_analytics.py:537 | A separator splits a text into the words before it followed by the words after it; with `WordsOfToken` this fixes the split of every text. |
| TextOps.Lower | backend/event_analytics.py:337 | `str.lower()` on ASCII: same length, each letter A-Z mapped to a-z, everything else kept. |
| TextOps.WordsOfToken | backend/event_analytics.py:537 | A single whitespace-free string splits into itself. |
| EventAnalytics.ScoreHits | backend/event_analytics.py:524-533 | score × max(words, 1) = positive − negative hits. The sign of the score is the sign of the difference. The label is positive iff score > 0.1, negative iff score < −0.1, neutral otherwise. |
| EventAnalytics.SimpleSentiment | backend/event_analytics.py:516-533 | The score of the text's hits over its word count, with the same sign and label rules. |
| EventAnalytics.SimpleSentimentNoWords | backend/event_analytics.py:516-533 | A text with no listed word scores 0 and is neutral. |
| EventAnalytics.CompleteEventData | backend/event_analytics.py:284-332 | The record for the event, its engagement record and its ticket totals. A found event gives the title, date, capacity, price and currency; a missing one gives "Unknown Event", today, 500, 25000 and "INR". Live attendance is the record's, else tickets sold, else 150. Tickets sold default to the attendance, and revenue to price × sold. Peak is max(attendance, sold); the duration is 120. The counts are the sums of the polls and questions. The engagement, conversion and satisfaction fields are `EngagementRate`, `ConversionRate` and `AnalyzeSatisfaction` of those figures, within their caps. |
| EventAnalytics.AnswerRate | backend/event_analytics.py:447 | 100 with no questions; otherwise rate × questions = 100 × answered, and in [0, 100] when answered ≤ questions. |
| EventAnalytics.CaptureInsights | backend/event_analytics.py:412-478 | None (the division error) iff the capacity is 0. Otherwise 1 to 5 insights in catalogue order, ending with the recommendation. Strong engagement appears iff rate > 80 and weak iff rate < 30, never both. Ticket sales appears iff sold/capacity > 0.8. The Q&A opportunity appears iff there are questions and under 50% are answered. Polls appears iff average responses exceed 60% of attendance. |
| EventAnalytics.CaptureListShape | backend/event_analytics.py:412-478 | The list has one to five entries and ends with the recommendation. |
| EventAnalytics.CaptureListMembers | backend/event_analytics.py:412-478 | Each optional insight is present exactly when its test passed; low engagement only when high did not. |
| EventAnalytics.CaptureListOrder | backend/event_analytics.py:412-478 | The insights follow the generator's fixed order. |
| BookingSimulator.TicketBookingSimulator.constructor | ticket_booking_simulator.py:20-23 | No bookings, revenue 0, the given base URL. The invariant holds. |
| BookingSimulator.TicketBookingSimulator.BookTicket | ticket_booking_simulator.py:38-55 | Exactly one confirmed booking is appended, with id = previous count + 1 and the given event, price (default 250000) and currency (default "INR"). Earlier bookings are unchanged. Revenue rises by the price and stays equal to the sum of the prices. |
| BookingSimulator.RevenueAppend | ticket_booking_simulator.py:53 | Appending a booking adds its price to the revenue sum. |
| BookingSimulator.TicketBookingSimulator.GetBookingStats | ticket_booking_simulator.py:118-137 | "No bookings yet" iff there are no bookings. Otherwise the count, the revenue, an average with average × n = revenue, a count per observed city, payment method and referral source, and first/last times that bound every booking time. |
| BookingSimulator.TimeframeOrdered | ticket_booking_simulator.py:134-137 | The first booking time is never after the last. |
| BookingSimulator.BreakdownsAddUp | ticket_booking_simulator.py:131-133 | Each breakdown's keys are exactly the observed values, each counted at least once, and its counts add up to the number of bookings. |
| BookingSimulator.StatsRevenue | ticket_booking_simulator.py:23 | In a consistent simulator the reported revenue is the sum of the booked prices. |
| Tally.CountsTotal | ticket_booking_simulator.py:131-133 | The counts of `{v: xs.count(v) for v in set(xs)}` sum to the length of xs. |
| Tally.Bump | backend/app.py:506-509 | `m[k] += 1`, or `m[k] = 1` for a new key: the other keys keep their values. |
| Tally.Occurrences | ticket_booking_simulator.py:131 | `xs.count(v)`: 0 exactly when v does not occur, and at most the length. |
| Tally.Counts | ticket_booking_simulator.py:131-133 | The keys are exactly the observed values, each with count ≥ 1. |
| BookingSimulator.SeqMin | ticket_booking_simulator.py:135 | `min` is one of the values and below every value. |
| BookingSimulator.SeqMax | ticket_booking_simulator.py:136 | `max` is one of the values and above every value. |

## Left out

- Web layer: Flask routing, templates, redirects, sessions, CORS and JSON. Results are `Outcome` values. The HTML page routes are not modelled.
- Persistence: `load_events`, `save_events`, `save_engagement_data`, `load_engagement_data`, `load_tickets_data` and the SQLite database. Saves leave the modelled state unchanged. The constructor takes the loaded events as a parameter and starts with no engagement records.
- App.Backend.constructor: the sample engagement data that `load_engagement_data` might supply is not modelled. Its polls have responses but no option votes, so they would not satisfy the tally invariant.
- SQLite analytics: `init_event_analytics_db`, the inserts of `capture_event_data_on_completion` and `perform_comprehensive_sentiment_analysis` are database I/O. Only the pure pieces they call are modelled.
- CSV export in the backend and the simulator.
- Simulator randomness and timing: Faker, `random`, `time.sleep`, `simulate_booking_burst`, `continuous_simulation` and `main`. The attendee and the booking time are parameters, and printing is dropped.
- Timestamps: opaque integers; ISO formatting is not modelled.
- Floating point: rates are exact Dafny reals. `round(·, 1)`, the f-string texts and `supporting_data` of insights, and `key_strengths` are not modelled. An insight keeps only its type, category and confidence.
- AppQueries.PostEventAnalytics: the `sentiment_summary` counts (`int(x * 0.7)` and the like) are not modelled.
- EventAnalytics.CompleteEventData: the record does not keep `avg_attendance` (85% of capacity).
- BookingSimulator.TicketBookingSimulator.GetBookingStats: the average ticket price is stated by average × n = revenue, not as a rounded float.
- Stubs and mock data: the static `analytics_data` and `feedback_data`, the `/api/polls`, `/api/export` and `/api/live-updates` stubs, the unreachable code after the report's `return`, and the alternate Q&A route that only forwards.
- `get_events`, `get_live_sales` and `get_event_status` are plain reads of a state field or of the first matching event, so they have no member of their own.
- Dynamic typing: non-integer capacities or prices raising in `int()`. The model types ids, counts and prices as integers, so the generic `except` paths for such inputs are not modelled.
- Missing-key defaults (`e.get('attendees', 0)` and the like): records always carry every field.
- Unicode: lower-casing is ASCII only and splitting uses ASCII whitespace.
- Concurrency: the module globals are used single-threaded.
- EventAnalytics.CategorizeQuestion: the example "What time does registration open?" → "logistics" is not proved as a concrete lemma. Evaluating the substring search over the constant keyword lists is beyond the solver's budget here. The general first-match contract covers it.
- EventAnalytics.QuestionSentiment: no concrete-text example is proved, for the same reason. The contract and the lemmas state the rule for every input.
- AppQueries.Login: no concrete example with a mixed-case email is proved; the contract states case-insensitive email matching for every input.
