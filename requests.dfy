/** The older request scheduler (src/requests.rs), kept beside the post scheduler so
    that the two can be compared. It resolves its interval by the same rule, but it
    has no indefinite mode, always spawns its workers (even a single one), and its
    worker sleeps after every iteration, the last included. The request itself is
    commented out in this version: an iteration reports the elapsed time, and its
    work event carries the payload the worker was given. */
module Requests {
  import opened Common
  import opened Schedule
  import opened Trace
  import SensorPosts

  const DefaultRequestAmount: u32 := 1
  const DefaultTimePerRequest: nat := 10 * NanosPerSec
  const DefaultNumThreads: u32 := 1

  /** The resolved schedule, copied into every worker. */
  datatype RequestScheduler = RequestScheduler(requestAmount: u32, timePerRequest: nat, numThreads: u32)

  /** `RequestSchedulerBuilder`: its setters update it in place and hand it back. */
  class RequestSchedulerBuilder {
    var requestAmount: Option<u32>
    var timePerRequest: Option<nat>
    var totalTime: Option<nat>
    var numThreads: Option<u32>

    /** `RequestSchedulerBuilder::default`: nothing set. */
    constructor Default()
      ensures requestAmount.None? && timePerRequest.None? && totalTime.None? && numThreads.None?
    {
      requestAmount, timePerRequest, totalTime, numThreads := None, None, None, None;
    }

    /** `with_request_amount`. */
    method WithRequestAmount(amount: u32) returns (same: RequestSchedulerBuilder)
      modifies this
      ensures same == this
      ensures requestAmount == Some(amount)
      ensures timePerRequest == old(timePerRequest) && totalTime == old(totalTime) && numThreads == old(numThreads)
    {
      requestAmount := Some(amount);
      same := this;
    }

    /** `with_time_per_request`. */
    method WithTimePerRequest(interval: nat) returns (same: RequestSchedulerBuilder)
      modifies this
      ensures same == this
      ensures timePerRequest == Some(interval)
      ensures requestAmount == old(requestAmount) && totalTime == old(totalTime) && numThreads == old(numThreads)
    {
      timePerRequest := Some(interval);
      same := this;
    }

    /** `with_total_time`. */
    method WithTotalTime(total: nat) returns (same: RequestSchedulerBuilder)
      modifies this
      ensures same == this
      ensures totalTime == Some(total)
      ensures requestAmount == old(requestAmount) && timePerRequest == old(timePerRequest) && numThreads == old(numThreads)
    {
      totalTime := Some(total);
      same := this;
    }

    /** `with_num_threads`. */
    method WithNumThreads(threads: u32) returns (same: RequestSchedulerBuilder)
      modifies this
      ensures same == this
      ensures numThreads == Some(threads)
      ensures requestAmount == old(requestAmount) && timePerRequest == old(timePerRequest) && totalTime == old(totalTime)
    {
      numThreads := Some(threads);
      same := this;
    }

    /** `build`: counts default to one, the thread count has no upper bound, and the
        interval follows the shared rule, panicking when a total time must be divided
        by a request amount of zero. */
    function Build(): (r: Panicking<RequestScheduler>)
      reads this
      ensures r.Panics? <==> requestAmount == Some(0) && timePerRequest.None? && totalTime.Some?
      ensures r.Returns? ==>
        && r.value.requestAmount == requestAmount.UnwrapOr(DefaultRequestAmount)
        && r.value.numThreads == numThreads.UnwrapOr(DefaultNumThreads)
        && Returns(r.value.timePerRequest) == ResolveInterval(timePerRequest, totalTime, r.value.requestAmount, DefaultTimePerRequest)
    {
      var amount := requestAmount.UnwrapOr(DefaultRequestAmount);
      match ResolveInterval(timePerRequest, totalTime, amount, DefaultTimePerRequest)
      case Panics(m) => Panics(m)
      case Returns(interval) => Returns(RequestScheduler(amount, interval, numThreads.UnwrapOr(DefaultNumThreads)))
    }
  }

  /** Given the same four settings, the two builders agree on when they panic and on
      the count, the interval and the thread count; they differ only in that the post
      scheduler loops indefinitely when an interval is set without a count. */
  lemma SameResolutionAsPostScheduler(b: RequestSchedulerBuilder)
    ensures var p := SensorPosts.Build(SensorPosts.PostSchedulerBuilder(b.requestAmount, b.timePerRequest, b.totalTime, b.numThreads));
      && (b.Build().Panics? <==> p.Panics?)
      && (b.Build().Returns? ==>
            && p.Returns? && p.value.Ok?
            && p.value.value.postAmount == b.Build().value.requestAmount
            && p.value.value.timePerPost == b.Build().value.timePerRequest
            && p.value.value.numThreads == b.Build().value.numThreads
            && (p.value.value.loopIndefinitely <==> b.requestAmount.None? && b.timePerRequest.Some?))
  {
  }

  /** Every iteration of a worker carries the worker's own copy of the payload. */
  function Payload(json: string): nat -> string {
    (_: nat) => json
  }

  /** What one worker does: `request_amount` iterations, each followed by a sleep. */
  function RequestTrace(s: RequestScheduler, json: string): seq<Event<string>> {
    Alternation(2 * s.requestAmount, Payload(json), s.timePerRequest)
  }

  /** `send_data_internal`. */
  method SendDataInternal(s: RequestScheduler, json: string) returns (trace: seq<Event<string>>)
    ensures trace == RequestTrace(s, json)
  {
    trace := [];
    var i: u32 := 0;
    while i < s.requestAmount
      invariant i <= s.requestAmount
      invariant trace == Alternation(2 * i, Payload(json), s.timePerRequest)
    {
      AlternationIteration(i, Payload(json), s.timePerRequest);
      trace := trace + [Work(json)];
      trace := trace + [Sleep(s.timePerRequest)];
      i := i + 1;
    }
  }

  /** `send_data`: spawns exactly `num_threads` workers, one included, each with its
      own clone of the payload and a copy of the schedule, and joins them all,
      ignoring what the joins return. `spawned` is the number of threads started. */
  method SendData(s: RequestScheduler, json: string) returns (runs: seq<seq<Event<string>>>, spawned: nat)
    ensures |runs| == s.numThreads && spawned == s.numThreads
    ensures forall id :: 0 <= id < |runs| ==> runs[id] == RequestTrace(s, json)
  {
    runs := [];
    var id: u32 := 0;
    while id < s.numThreads
      invariant id <= s.numThreads
      invariant |runs| == id
      invariant forall j :: 0 <= j < id ==> runs[j] == RequestTrace(s, json)
    {
      var jsonClone := json;
      var trace := SendDataInternal(s, jsonClone);
      runs := runs + [trace];
      id := id + 1;
    }
    spawned := s.numThreads;
  }

  /** A worker makes `request_amount` iterations and sleeps as many times, the last
      event being a sleep; every iteration carries the payload unchanged. */
  lemma RequestWorkerCounts(s: RequestScheduler, json: string)
    ensures var t := RequestTrace(s, json);
      && Works(t) == s.requestAmount
      && Sleeps(t) == s.requestAmount
      && Alternates(t)
      && (0 < s.requestAmount ==> t[|t| - 1] == Sleep(s.timePerRequest))
      && (forall j :: 0 <= j < |t| && t[j].Work? ==> t[j].payload == json)
  {
    AlternationCounts(s.requestAmount, Payload(json), s.timePerRequest);
    AlternationShape(2 * s.requestAmount, Payload(json), s.timePerRequest);
    if 0 < s.requestAmount {
      SlotsOfIteration(s.requestAmount - 1, Payload(json), s.timePerRequest);
    }
  }

  /** Against the post scheduler's bounded worker with the same count and interval,
      the older worker does the same number of iterations and sleeps once more: the
      trailing sleep that the newer worker suppresses. */
  lemma OneMoreSleepThanPostWorker(r: RequestScheduler, p: SensorPosts.PostScheduler, threadId: nat, draws: nat -> SensorPosts.Draw, json: string)
    requires 0 < r.requestAmount && r.requestAmount == p.postAmount && r.timePerRequest == p.timePerPost
    ensures var older, newer := RequestTrace(r, json), SensorPosts.BoundedTrace(p, threadId, draws);
      && Works(older) == Works(newer)
      && Sleeps(older) == Sleeps(newer) + 1
      && |older| == |newer| + 1
  {
    RequestWorkerCounts(r, json);
    SensorPosts.BoundedWorkerCounts(p, threadId, draws);
  }

  /** The manual test: two threads of five requests one second apart; both workers
      run to completion, five iterations and five sleeps each. */
  method SendDataTest() returns (runs: seq<seq<Event<string>>>)
    ensures |runs| == 2
    ensures forall id :: 0 <= id < |runs| ==> runs[id] == RequestTrace(RequestScheduler(5, NanosPerSec, 2), "{}")
    ensures forall id :: 0 <= id < |runs| ==> Works(runs[id]) == 5 && Sleeps(runs[id]) == 5
  {
    var b := new RequestSchedulerBuilder.Default();
    b := b.WithNumThreads(2);
    b := b.WithRequestAmount(5);
    b := b.WithTimePerRequest(NanosPerSec);
    var built := b.Build();
    assert built == Returns(RequestScheduler(5, NanosPerSec, 2));
    var spawned;
    runs, spawned := SendData(built.value, "{}");
    RequestWorkerCounts(built.value, "{}");
  }
}
