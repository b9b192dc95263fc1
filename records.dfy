/** The records the backend keeps: events, polls, Q&A questions and per-event engagement,
    with the derived quantities several handlers compute from them. */
module Records {
  import opened Common

  /** The 'status' field of an event. */
  datatype Status = Upcoming | Live | Completed

  /** An event as stored in the events list; timestamps are opaque integers. */
  datatype Event = Event(
    id: int,
    title: string,
    description: string,
    date: string,
    time: string,
    location: string,
    capacity: int,
    ticketPrice: int,
    currency: string,
    image: string,
    attendees: int,
    status: Status,
    createdAt: int,
    liveStartTime: Option<int>,
    endedAt: Option<int>)

  /** A live poll; `optionVotes` maps an option's text to its vote count. */
  datatype Poll = Poll(
    id: int,
    question: string,
    options: seq<string>,
    responses: int,
    active: bool,
    created: int,
    optionVotes: map<string, int>)

  /** A Q&A question submitted during an event. */
  datatype Question = Question(id: int, question: string, votes: int, answered: bool, timestamp: int)

  /** The engagement record of one event. */
  datatype Engagement = Engagement(polls: seq<Poll>, questions: seq<Question>, liveAttendance: int)

  /** Python's `max(ids, default=0)`: the largest id, or 0 for none. */
  function MaxId(ids: seq<int>): (m: int)
    ensures forall i :: 0 <= i < |ids| ==> ids[i] <= m
    ensures ids == [] ==> m == 0
    ensures ids != [] ==> m in ids
  {
    if ids == [] then 0
    else if |ids| == 1 then ids[0]
    else Max(ids[0], MaxId(ids[1..]))
  }

  /** The id allocated to a new record: one more than the largest existing id, 1 when there is none. */
  function NextId(ids: seq<int>): int
  {
    MaxId(ids) + 1
  }

  /** A freshly allocated id differs from, and exceeds, every existing id. */
  lemma NextIdFresh(ids: seq<int>)
    ensures forall i :: 0 <= i < |ids| ==> ids[i] < NextId(ids)
    ensures ids == [] ==> NextId(ids) == 1
    ensures NextId(ids) !in ids
  {
  }

  function EventIds(events: seq<Event>): seq<int>
  {
    seq(|events|, i requires 0 <= i < |events| => events[i].id)
  }

  function PollIds(polls: seq<Poll>): seq<int>
  {
    seq(|polls|, i requires 0 <= i < |polls| => polls[i].id)
  }

  function QuestionIds(questions: seq<Question>): seq<int>
  {
    seq(|questions|, i requires 0 <= i < |questions| => questions[i].id)
  }

  /** No id occurs twice. */
  predicate DistinctIds(ids: seq<int>)
  {
    forall i, j :: 0 <= i < j < |ids| ==> ids[i] != ids[j]
  }

  /** Appending the freshly allocated id keeps ids distinct. */
  lemma DistinctAfterAllocation(ids: seq<int>)
    requires DistinctIds(ids)
    ensures DistinctIds(ids + [NextId(ids)])
  {
    NextIdFresh(ids);
  }

  /** With distinct ids, the first position holding an id is the only one. */
  lemma DistinctIdsUnique(ids: seq<int>, id: int)
    requires DistinctIds(ids) && id in ids
    ensures IndexOf(ids, id) < |ids| && ids[IndexOf(ids, id)] == id
    ensures forall j :: 0 <= j < |ids| && j != IndexOf(ids, id) ==> ids[j] != id
  {
  }

  /** Dropping polls keeps their ids distinct. */
  lemma PollIdsDistinctSubsequence(a: seq<Poll>, b: seq<Poll>)
    requires IsSubsequence(a, b) && DistinctIds(PollIds(b))
    ensures DistinctIds(PollIds(a))
  {
    var key := (p: Poll) => p.id;
    assert forall i, j :: 0 <= i < j < |b| ==> key(b[i]) != key(b[j]) by {
      forall i, j | 0 <= i < j < |b| ensures key(b[i]) != key(b[j]) {
        assert PollIds(b)[i] == b[i].id && PollIds(b)[j] == b[j].id;
      }
    }
    SubsequenceKeysDistinct(a, b, key);
    assert forall i :: 0 <= i < |a| ==> PollIds(a)[i] == key(a[i]);
  }

  /** Dropping questions keeps their ids distinct. */
  lemma QuestionIdsDistinctSubsequence(a: seq<Question>, b: seq<Question>)
    requires IsSubsequence(a, b) && DistinctIds(QuestionIds(b))
    ensures DistinctIds(QuestionIds(a))
  {
    var key := (q: Question) => q.id;
    assert forall i, j :: 0 <= i < j < |b| ==> key(b[i]) != key(b[j]) by {
      forall i, j | 0 <= i < j < |b| ensures key(b[i]) != key(b[j]) {
        assert QuestionIds(b)[i] == b[i].id && QuestionIds(b)[j] == b[j].id;
      }
    }
    SubsequenceKeysDistinct(a, b, key);
    assert forall i :: 0 <= i < |a| ==> QuestionIds(a)[i] == key(a[i]);
  }

  /** Python's `sum(poll.get('responses', 0) for poll in polls)`. */
  function TotalResponses(polls: seq<Poll>): (n: int)
    ensures (forall i :: 0 <= i < |polls| ==> polls[i].responses >= 0) ==> n >= 0
  {
    if polls == [] then 0 else polls[0].responses + TotalResponses(polls[1..])
  }

  /** Python's `sum(1 for qa in questions if qa.get('answered', False))`. */
  function AnsweredCount(questions: seq<Question>): (n: nat)
    ensures n <= |questions|
  {
    if questions == [] then 0
    else (if questions[0].answered then 1 else 0) + AnsweredCount(questions[1..])
  }
}
