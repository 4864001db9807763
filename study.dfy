/**
  The study schedule (`generate_study_schedule`): the topics are cut into
  consecutive chunks of `max(1, len(topics) // max(1, days_available))`
  topics, one chunk per day, numbered from 1. Each day reviews its topics in
  the morning, practises its first topic in the afternoon and ends with a
  mock interview. Calendar dates are not modelled.
*/
module Study {
  import opened Text

  datatype Task = Review(topic: string) | Practice(topic: string) | MockInterview

  datatype StudyDay = StudyDay(
    day: nat,
    topics: seq<string>,
    morning: seq<Task>,
    afternoon: seq<Task>,
    evening: seq<Task>)

  /** `max(1, len(topics) // max(1, days_available))`: the day size as written. */
  function TopicsPerDay(n: nat, daysAvailable: int): (t: nat)
    ensures 1 <= t <= Max(1, n)
  {
    DivAtMost(n, Max(1, daysAvailable));
    Max(1, n / Max(1, daysAvailable))
  }

  lemma DivAtMost(n: nat, d: int)
    requires d >= 1
    ensures n / d <= n
  {
    var q := n / d;
    assert n == d * q + n % d;
    MulAtLeast(d, q);
  }

  /** The day size is the floor of topics over days, so those days alone hold at most all topics. */
  lemma TopicsPerDayIsFloor(n: nat, daysAvailable: int)
    requires 1 <= daysAvailable <= n
    ensures TopicsPerDay(n, daysAvailable) * daysAvailable <= n < (TopicsPerDay(n, daysAvailable) + 1) * daysAvailable
  {
    var t := n / daysAvailable;
    assert n == t * daysAvailable + n % daysAvailable;
  }

  /** `topics[i:i+t]` for `i` in `range(0, len(topics), t)`: consecutive chunks of `t`, the last one shorter. */
  function Chunks(topics: seq<string>, t: nat): (cs: seq<seq<string>>)
    requires t >= 1
    ensures forall k :: 0 <= k < |cs| ==> 1 <= |cs[k]| <= t
    ensures forall k :: 0 <= k < |cs| - 1 ==> |cs[k]| == t
    decreases |topics|
  {
    if topics == [] then []
    else if |topics| <= t then [topics]
    else [topics[..t]] + Chunks(topics[t..], t)
  }

  /** The topics of all chunks, in order. */
  function Flatten(cs: seq<seq<string>>): seq<string>
  {
    if cs == [] then [] else cs[0] + Flatten(cs[1..])
  }

  /** The day numbered `day` studying `topics`. */
  function MakeDay(day: nat, topics: seq<string>): StudyDay
    requires topics != []
  {
    StudyDay(day, topics, seq(|topics|, j requires 0 <= j < |topics| => Review(topics[j])), [Practice(topics[0])], [MockInterview])
  }

  predicate NonEmpty(cs: seq<seq<string>>)
  {
    forall k :: 0 <= k < |cs| ==> cs[k] != []
  }

  /** One day per chunk, numbered from 1. */
  function Days(cs: seq<seq<string>>): seq<StudyDay>
    requires NonEmpty(cs)
  {
    seq(|cs|, k requires 0 <= k < |cs| => MakeDay(k + 1, cs[k]))
  }

  /** The schedule for chunk size `t`. */
  function Schedule(topics: seq<string>, t: nat): seq<StudyDay>
    requires t >= 1
  {
    Days(Chunks(topics, t))
  }

  lemma DaysAppend(cs: seq<seq<string>>, c: seq<string>)
    requires NonEmpty(cs) && c != []
    ensures NonEmpty(cs + [c])
    ensures Days(cs + [c]) == Days(cs) + [MakeDay(|cs| + 1, c)]
  {
  }

  lemma MulAtLeast(x: int, t: nat)
    requires x >= 1
    ensures x * t >= t
  {
    assert x * t == t + (x - 1) * t;
    assert (x - 1) * t >= 0;
  }

  /** Dividing a multiple of `t` by `t` gives back the factor. */
  lemma MulDiv(k: nat, t: nat)
    requires t >= 1
    ensures (k * t) / t == k
  {
    var q := (k * t) / t;
    var r := (k * t) % t;
    assert k * t == q * t + r;
    assert (k - q) * t == r;
    if k > q {
      MulAtLeast(k - q, t);
    } else if q > k {
      MulAtLeast(q - k, t);
    }
  }

  /** The loop of `generate_study_schedule` for a chunk size `t`. */
  method ChunkTopics(topics: seq<string>, t: nat) returns (schedule: seq<StudyDay>)
    requires t >= 1
    ensures schedule == Schedule(topics, t)
  {
    schedule := [];
    ghost var done: seq<seq<string>> := [];
    var i := 0;
    while i < |topics|
      invariant i == |done| * t
      invariant NonEmpty(done) && schedule == Days(done)
      invariant Chunks(topics, t) == done + Chunks(topics[Min(i, |topics|)..], t)
      decreases |topics| - i
    {
      var dayTopics := topics[i..Min(i + t, |topics|)];
      var dayNum := i / t + 1;
      NextMultiple(|done|, t);
      ChunksAdvance(topics, t, done, i);
      DaysAppend(done, dayTopics);
      schedule := schedule + [MakeDay(dayNum, dayTopics)];
      done := done + [dayTopics];
      i := i + t;
    }
  }

  /** One turn of the loop: the chunk at `i` is the next one after `done`. */
  lemma ChunksAdvance(topics: seq<string>, t: nat, done: seq<seq<string>>, i: nat)
    requires t >= 1 && i < |topics|
    requires Chunks(topics, t) == done + Chunks(topics[i..], t)
    ensures Chunks(topics, t) == (done + [topics[i..Min(i + t, |topics|)]]) + Chunks(topics[Min(i + t, |topics|)..], t)
  {
    var c := topics[i..Min(i + t, |topics|)];
    var rest := Chunks(topics[Min(i + t, |topics|)..], t);
    ChunksStep(topics, t, i);
    assert done + ([c] + rest) == (done + [c]) + rest;
  }

  lemma NextMultiple(k: nat, t: nat)
    requires t >= 1
    ensures (k * t) / t == k
    ensures (k + 1) * t == k * t + t
  {
    MulDiv(k, t);
  }

  /** The chunks from index `i` on: the chunk starting at `i`, then the chunks from `i + t` on. */
  lemma ChunksStep(topics: seq<string>, t: nat, i: nat)
    requires t >= 1 && i < |topics|
    ensures Chunks(topics[i..], t) == [topics[i..Min(i + t, |topics|)]] + Chunks(topics[Min(i + t, |topics|)..], t)
  {
    if |topics[i..]| > t {
      assert topics[i..][..t] == topics[i..i + t];
      assert topics[i..][t..] == topics[i + t..];
    } else {
      assert topics[i..Min(i + t, |topics|)] == topics[i..];
    }
  }

  /** `generate_study_schedule` as written, without the dates. */
  method GenerateStudySchedule(topics: seq<string>, daysAvailable: int) returns (schedule: seq<StudyDay>)
    ensures schedule == Schedule(topics, TopicsPerDay(|topics|, daysAvailable))
  {
    var t := Max(1, |topics| / Max(1, daysAvailable));
    schedule := ChunkTopics(topics, t);
  }

  /** Reading the days' topics in order gives back the topic list. */
  lemma {:induction false} ChunksFlatten(topics: seq<string>, t: nat)
    requires t >= 1
    ensures Flatten(Chunks(topics, t)) == topics
    decreases |topics|
  {
    if topics != [] && |topics| > t {
      ChunksFlatten(topics[t..], t);
      var cs := Chunks(topics, t);
      assert cs[1..] == Chunks(topics[t..], t);
    }
  }

  /** Every topic is studied on exactly one day, in the given order, and days are numbered 1, 2, and so on. */
  lemma ScheduleCoversTopics(topics: seq<string>, t: nat)
    requires t >= 1
    ensures var s := Schedule(topics, t);
      && Flatten(seq(|s|, k requires 0 <= k < |s| => s[k].topics)) == topics
      && forall k :: 0 <= k < |s| ==> s[k].day == k + 1 && 1 <= |s[k].topics| <= t
  {
    var s := Schedule(topics, t);
    assert seq(|s|, k requires 0 <= k < |s| => s[k].topics) == Chunks(topics, t);
    ChunksFlatten(topics, t);
  }

  /** Each day reviews each of its topics once in the morning, practises its first topic, and ends with a mock interview. */
  lemma ScheduleDayPlan(topics: seq<string>, t: nat, k: nat)
    requires t >= 1 && k < |Schedule(topics, t)|
    ensures var d := Schedule(topics, t)[k];
      && |d.morning| == |d.topics|
      && (forall j :: 0 <= j < |d.topics| ==> d.morning[j] == Review(d.topics[j]))
      && d.afternoon == [Practice(d.topics[0])]
      && d.evening == [MockInterview]
  {
  }

  /** No topics, no study days. */
  lemma NoTopicsNoDays(daysAvailable: int)
    ensures Schedule([], TopicsPerDay(0, daysAvailable)) == []
  {
  }

  /** The number of days is `len(topics)` divided by the day size, rounded up. */
  lemma {:induction false} ChunksCount(topics: seq<string>, t: nat)
    requires t >= 1
    ensures var c := |Chunks(topics, t)|;
      (c - 1) * t < |topics| <= c * t
    decreases |topics|
  {
    if topics != [] && |topics| > t {
      ChunksCount(topics[t..], t);
      var c := |Chunks(topics[t..], t)|;
      assert (c + 1) * t == c * t + t;
      assert c * t == (c - 1) * t + t;
    }
  }

  // -------------------------------------------------- days beyond the deadline

  /**
    As written, the floor in the day size lets the schedule run past the
    days available: three topics over two days give one topic a day, three
    days in all.
  */
  lemma ScheduleOverrunsDays()
    ensures |Schedule(["arrays", "graphs", "dynamic programming"], TopicsPerDay(3, 2))| == 3
  {
    var topics := ["arrays", "graphs", "dynamic programming"];
    assert TopicsPerDay(3, 2) == 1;
    assert Chunks(topics[2..], 1) == [topics[2..]];
    assert Chunks(topics[1..], 1) == [topics[1..][..1]] + Chunks(topics[2..], 1);
  }

  /** The day size rounded up: `max(1, ceil(len(topics) / max(1, days_available)))`. */
  function FittedTopicsPerDay(n: nat, daysAvailable: int): (t: nat)
    ensures 1 <= t
    ensures t * Max(1, daysAvailable) >= n
  {
    var d := Max(1, daysAvailable);
    var t := Max(1, (n + d - 1) / d);
    assert (n + d - 1) == d * ((n + d - 1) / d) + (n + d - 1) % d;
    t
  }

  lemma LessByFactor(a: int, b: int, t: nat)
    requires t >= 1 && a * t < b * t
    ensures a < b
  {
    if a > b {
      assert a * t == b * t + (a - b) * t;
      MulAtLeast(a - b, t);
    }
  }

  /** With the rounded-up day size the schedule never needs more days than are available. */
  lemma FittedScheduleWithinDays(topics: seq<string>, daysAvailable: int)
    ensures |Schedule(topics, FittedTopicsPerDay(|topics|, daysAvailable))| <= Max(1, daysAvailable)
  {
    var t := FittedTopicsPerDay(|topics|, daysAvailable);
    var d := Max(1, daysAvailable);
    ChunksCount(topics, t);
    var c := |Chunks(topics, t)|;
    assert (c - 1) * t < d * t;
    LessByFactor(c - 1, d, t);
  }

  /** `generate_study_schedule` with the rounded-up day size. */
  method FittedStudySchedule(topics: seq<string>, daysAvailable: int) returns (schedule: seq<StudyDay>)
    ensures schedule == Schedule(topics, FittedTopicsPerDay(|topics|, daysAvailable))
    ensures |schedule| <= Max(1, daysAvailable)
  {
    schedule := ChunkTopics(topics, FittedTopicsPerDay(|topics|, daysAvailable));
    FittedScheduleWithinDays(topics, daysAvailable);
  }
}
