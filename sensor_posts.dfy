/** The post scheduler (src/sensor_posts.rs): a builder that resolves four optional
    settings into a `PostScheduler`, a dispatcher that runs one worker inline or fans
    out to `num_threads` workers, and the worker loop that posts a reading, logs the
    outcome, and sleeps between posts.

    The HTTP exchange and the random generators are outside the model: each worker
    is handed a function `draws` from its iteration index to what its random source
    and its HTTP client yield in that iteration. Sleeping is an event in the worker's
    trace, not elapsed time. */
module SensorPosts {
  import opened Common
  import opened Schedule
  import opened Data
  import opened Trace
  import Errors

  const DefaultPostAmount: u32 := 1
  const DefaultTimePerPost: nat := 10 * NanosPerSec
  const DefaultNumThreads: u32 := 1
  const MaxNumThreads: u32 := 10

  // ---------------------------------------------------------------------------
  // Builder and schedule resolution

  /** `PostSchedulerBuilder`: four optional settings, durations in nanoseconds. */
  datatype PostSchedulerBuilder = PostSchedulerBuilder(
    postAmount: Option<u32>,
    timePerPost: Option<nat>,
    totalTime: Option<nat>,
    numThreads: Option<u32>)

  /** The resolved, immutable schedule every worker receives a copy of. */
  datatype PostScheduler = PostScheduler(
    postAmount: u32,
    timePerPost: nat,
    numThreads: u32,
    loopIndefinitely: bool)

  /** `PostSchedulerBuilder::default`: nothing set. */
  function DefaultBuilder(): (b: PostSchedulerBuilder)
    ensures b.postAmount.None? && b.timePerPost.None? && b.totalTime.None? && b.numThreads.None?
  {
    PostSchedulerBuilder(None, None, None, None)
  }

  /** `with_some_post_amount`: replaces the post amount, `None` included. */
  function WithSomePostAmount(b: PostSchedulerBuilder, postAmount: Option<u32>): (r: PostSchedulerBuilder)
    ensures r.postAmount == postAmount
    ensures r.timePerPost == b.timePerPost && r.totalTime == b.totalTime && r.numThreads == b.numThreads
  {
    b.(postAmount := postAmount)
  }

  /** `with_some_time_per_post`: replaces the time per post, `None` included. */
  function WithSomeTimePerPost(b: PostSchedulerBuilder, timePerPost: Option<nat>): (r: PostSchedulerBuilder)
    ensures r.timePerPost == timePerPost
    ensures r.postAmount == b.postAmount && r.totalTime == b.totalTime && r.numThreads == b.numThreads
  {
    b.(timePerPost := timePerPost)
  }

  /** `with_some_total_time`: replaces the total time, `None` included. */
  function WithSomeTotalTime(b: PostSchedulerBuilder, totalTime: Option<nat>): (r: PostSchedulerBuilder)
    ensures r.totalTime == totalTime
    ensures r.postAmount == b.postAmount && r.timePerPost == b.timePerPost && r.numThreads == b.numThreads
  {
    b.(totalTime := totalTime)
  }

  /** `with_some_num_threads`: replaces the thread count, `None` included. */
  function WithSomeNumThreads(b: PostSchedulerBuilder, numThreads: Option<u32>): (r: PostSchedulerBuilder)
    ensures r.numThreads == numThreads
    ensures r.postAmount == b.postAmount && r.timePerPost == b.timePerPost && r.totalTime == b.totalTime
  {
    b.(numThreads := numThreads)
  }

  /** Whatever order the settings are given in, the builder holds the same values. */
  lemma SettersCommute(b: PostSchedulerBuilder, a: Option<u32>, t: Option<nat>, total: Option<nat>, n: Option<u32>)
    ensures WithSomeNumThreads(WithSomeTotalTime(WithSomeTimePerPost(WithSomePostAmount(b, a), t), total), n)
         == WithSomePostAmount(WithSomeTimePerPost(WithSomeTotalTime(WithSomeNumThreads(b, n), total), t), a)
    ensures WithSomeNumThreads(WithSomeTotalTime(WithSomeTimePerPost(WithSomePostAmount(b, a), t), total), n)
         == PostSchedulerBuilder(a, t, total, n)
  {
  }

  /** `build`. It never returns an error; it panics when the total time must be
      divided by an explicit post amount of zero. The thread count is passed through
      unchecked: the source's comment defers validation to
      `lib::is_valid_num_of_threads`. */
  function Build(b: PostSchedulerBuilder): (r: Panicking<Result<PostScheduler, Errors.PostSchedulerError>>)
    ensures r.Panics? <==> b.postAmount == Some(0) && b.timePerPost.None? && b.totalTime.Some?
    ensures r.Returns? ==> r.value.Ok?
    ensures r.Returns? ==>
      var s := r.value.value;
      && (s.loopIndefinitely <==> b.postAmount.None? && b.timePerPost.Some?)
      && s.postAmount == b.postAmount.UnwrapOr(DefaultPostAmount)
      && s.numThreads == b.numThreads.UnwrapOr(DefaultNumThreads)
      && Returns(s.timePerPost) == ResolveInterval(b.timePerPost, b.totalTime, s.postAmount, DefaultTimePerPost)
  {
    var loopIndefinitely := b.postAmount.None? && b.timePerPost.Some?;
    var postAmount := b.postAmount.UnwrapOr(DefaultPostAmount);
    match ResolveInterval(b.timePerPost, b.totalTime, postAmount, DefaultTimePerPost)
    case Panics(m) => Panics(m)
    case Returns(timePerPost) =>
      var numThreads := b.numThreads.UnwrapOr(DefaultNumThreads);
      Returns(Ok(PostScheduler(postAmount, timePerPost, numThreads, loopIndefinitely)))
  }

  /** With nothing set: one bounded post, the default ten-second interval, one thread. */
  lemma BuildDefault()
    ensures Build(DefaultBuilder()) == Returns(Ok(PostScheduler(1, 10 * NanosPerSec, 1, false)))
  {
  }

  /** How the interval is resolved: a time per post wins over a total time, which
      is otherwise spread evenly over the posts (rounded down), and the default
      applies when neither is set. */
  lemma BuildInterval(b: PostSchedulerBuilder)
    requires Build(b).Returns?
    ensures var s := Build(b).value.value;
      && (b.timePerPost.Some? ==> s.timePerPost == b.timePerPost.value)
      && (b.timePerPost.None? && b.totalTime.None? ==> s.timePerPost == DefaultTimePerPost)
      && (b.timePerPost.None? && b.totalTime.Some? ==>
            s.timePerPost * s.postAmount <= b.totalTime.value < (s.timePerPost + 1) * s.postAmount)
  {
    var s := Build(b).value.value;
    if b.timePerPost.None? && b.totalTime.Some? {
      assert s.timePerPost * s.postAmount + s.postAmount == (s.timePerPost + 1) * s.postAmount;
    }
  }

  /** A thread count validated to [1, `MaxNumThreads`] (or left unset) gives a
      schedule whose thread count is in that range. */
  lemma BuildKeepsValidatedThreads(b: PostSchedulerBuilder)
    requires b.numThreads.Some? ==> 1 <= b.numThreads.value <= MaxNumThreads
    requires Build(b).Returns?
    ensures 1 <= Build(b).value.value.numThreads <= MaxNumThreads
  {
  }

  // ---------------------------------------------------------------------------
  // One post: the reading, the request outcome, the log line

  /** What the four random generators yield for one reading. */
  datatype Sample = Sample(temperature: real, humidity: real, pressure: Pressure, dustConcentration: real)

  /** An HTTP status code as `reqwest` accepts it: three digits. */
  type StatusCode = s: int | 100 <= s <= 999 witness 200

  /** The two questions the worker asks of a failed request. */
  datatype RequestFailure = RequestFailure(isRequest: bool, isTimeout: bool)

  /** What sending the post yields: a response with its status, or an error. */
  datatype SendOutcome = Response(status: StatusCode) | Failed(failure: RequestFailure)

  /** What the worker's random source and HTTP client yield in one iteration. */
  datatype Draw = Draw(sample: Sample, outcome: SendOutcome)

  datatype Level = Info | Error
  datatype LogLine = LogLine(level: Level, message: string)

  /** One iteration of the worker: the reading it sent and how it logged the outcome. */
  datatype Post = Post(reading: Reading, log: LogLine)

  /** `generate_random_reading`: a reading labelled with the display string of its
      dust concentration's band. */
  function GenerateReading(sample: Sample): (r: Reading)
    ensures r.temperature == sample.temperature && r.humidity == sample.humidity
    ensures r.pressure == sample.pressure && r.dustConcentration == sample.dustConcentration
    ensures 900 <= r.pressure <= 1100
    ensures ParseDisplay(r.airPurity) == Some(FromValue(r.dustConcentration))
  {
    var airPurity := Display(FromValue(sample.dustConcentration));
    NewReading(sample.temperature, sample.humidity, sample.pressure, sample.dustConcentration, airPurity)
  }

  /** `StatusCode::is_success`. */
  predicate IsSuccess(status: StatusCode) {
    200 <= status <= 299
  }

  /** The prefix every log line of a worker carries. */
  function ThreadTag(threadId: nat): string {
    "[Thread " + Decimal(threadId) + "]: "
  }

  const ResponsePrefix: string := "Response from Ambi backend: "
  const ErrorPrefix: string := "Response error from Ambi backend: "

  /** The closed taxonomy of request errors the worker reports. */
  datatype Cause = RequestError | TimedOut | Unknown

  /** `is_request` is asked before `is_timeout`. */
  function CauseOf(f: RequestFailure): Cause {
    if f.isRequest then RequestError else if f.isTimeout then TimedOut else Unknown
  }

  function CauseText(c: Cause): string {
    match c
    case RequestError => "request error"
    case TimedOut => "request timed out"
    case Unknown => "specific error type unknown"
  }

  /** What the line about an outcome says after the thread tag. */
  function Report(outcome: SendOutcome): string {
    match outcome
    case Response(status) => ResponsePrefix + Decimal(status)
    case Failed(f) => ErrorPrefix + CauseText(CauseOf(f))
  }

  /** The line `make_post` logs about the outcome: a success status at info level,
      any other status and every error at error level, each prefixed with the
      thread tag. */
  function Classify(threadId: nat, outcome: SendOutcome): (line: LogLine)
    ensures line.level == Info <==> outcome.Response? && IsSuccess(outcome.status)
    ensures |ThreadTag(threadId)| < |line.message|
    ensures line.message[..|ThreadTag(threadId)|] == ThreadTag(threadId)
    ensures outcome.Response? ==>
      line.message == ThreadTag(threadId) + "Response from Ambi backend: " + Decimal(outcome.status)
    ensures outcome.Failed? ==>
      line.message == ThreadTag(threadId) + "Response error from Ambi backend: "
        + (if outcome.failure.isRequest then "request error"
           else if outcome.failure.isTimeout then "request timed out"
           else "specific error type unknown")
  {
    var level := if outcome.Response? && IsSuccess(outcome.status) then Info else Error;
    LogLine(level, ThreadTag(threadId) + Report(outcome))
  }

  /** What a log line reports, once the thread tag is taken away. */
  datatype Verdict = Status(code: nat) | Failure(cause: Cause)

  function VerdictOf(outcome: SendOutcome): Verdict {
    match outcome
    case Response(status) => Status(status)
    case Failed(f) => Failure(CauseOf(f))
  }

  /** The thread id a log line names, read back from its tag. */
  function ThreadOf(message: string): Option<nat> {
    if |message| < 8 || message[..8] != "[Thread " then None
    else
      var digits := LeadingDigits(message[8..]);
      if digits == [] then None else Some(ParseDecimal(digits))
  }

  /** Every log line of a worker names that worker. */
  lemma ClassifyNamesThread(threadId: nat, outcome: SendOutcome)
    ensures ThreadOf(Classify(threadId, outcome).message) == Some(threadId)
  {
    TaggedLineNamesThread(threadId, Report(outcome));
  }

  lemma TaggedLineNamesThread(threadId: nat, rest: string)
    ensures ThreadOf(ThreadTag(threadId) + rest) == Some(threadId)
  {
    var d, after := Decimal(threadId), "]: " + rest;
    TagLayout(threadId, rest);
    LeadingDigitsOfDigits(d, after);
    ParseDecimalInverts(threadId);
  }

  lemma TagLayout(threadId: nat, rest: string)
    ensures var m := ThreadTag(threadId) + rest;
      8 <= |m| && m[..8] == "[Thread " && m[8..] == Decimal(threadId) + ("]: " + rest)
  {
    var m := ThreadTag(threadId) + rest;
    assert m == "[Thread " + (Decimal(threadId) + ("]: " + rest));
  }

  /** Two outcomes logged alike by one worker report the same status, or the same
      cause of error: the log line loses nothing the classification keeps. */
  lemma ClassifyInjective(threadId: nat, o1: SendOutcome, o2: SendOutcome)
    requires Classify(threadId, o1) == Classify(threadId, o2)
    ensures VerdictOf(o1) == VerdictOf(o2)
  {
    var n := |ThreadTag(threadId)|;
    assert Report(o1) == Classify(threadId, o1).message[n..];
    assert Report(o2) == Classify(threadId, o2).message[n..];
    ReportInjective(o1, o2);
  }

  lemma ReportInjective(o1: SendOutcome, o2: SendOutcome)
    requires Report(o1) == Report(o2)
    ensures VerdictOf(o1) == VerdictOf(o2)
  {
    match (o1, o2)
    case (Response(s1), Response(s2)) =>
      assert Report(o1)[|ResponsePrefix|..] == Decimal(s1);
      assert Report(o2)[|ResponsePrefix|..] == Decimal(s2);
      DecimalInjective(s1, s2);
    case (Response(_), Failed(_)) =>
      ResponseAndErrorReportsDiffer(o1, o2);
    case (Failed(_), Response(_)) =>
      ResponseAndErrorReportsDiffer(o2, o1);
    case (Failed(f1), Failed(f2)) =>
      assert Report(o1)[|ErrorPrefix|..] == CauseText(CauseOf(f1));
      assert Report(o2)[|ErrorPrefix|..] == CauseText(CauseOf(f2));
  }

  lemma ResponseAndErrorReportsDiffer(response: SendOutcome, failed: SendOutcome)
    requires response.Response? && failed.Failed?
    ensures Report(response) != Report(failed)
  {
    assert Report(response)[9] == 'f';
    assert Report(failed)[9] == 'e';
  }

  /** A request error is reported as such whatever the timeout flag says. */
  lemma RequestErrorWins(threadId: nat, timedOut: bool)
    ensures Classify(threadId, Failed(RequestFailure(true, timedOut))).message
         == ThreadTag(threadId) + ErrorPrefix + "request error"
  {
    assert Report(Failed(RequestFailure(true, timedOut))) == ErrorPrefix + "request error";
  }

  /** `make_post`: generate a reading, send it, log the outcome. */
  function MakePost(threadId: nat, draw: Draw): (p: Post)
    ensures p.reading.dustConcentration == draw.sample.dustConcentration
    ensures ParseDisplay(p.reading.airPurity) == Some(FromValue(draw.sample.dustConcentration))
    ensures p.log.level == Info <==> draw.outcome.Response? && IsSuccess(draw.outcome.status)
    ensures p.reading == GenerateReading(draw.sample) && p.log == Classify(threadId, draw.outcome)
    ensures ThreadOf(p.log.message) == Some(threadId)
  {
    ClassifyNamesThread(threadId, draw.outcome);
    Post(GenerateReading(draw.sample), Classify(threadId, draw.outcome))
  }

  // ---------------------------------------------------------------------------
  // The worker loop

  /** The posts a worker makes, by iteration. */
  function PostsOf(threadId: nat, draws: nat -> Draw): nat -> Post {
    (k: nat) => MakePost(threadId, draws(k))
  }

  /** Bounded mode: `post_amount` posts, with a sleep between consecutive posts and
      none after the last. */
  function BoundedTrace(s: PostScheduler, threadId: nat, draws: nat -> Draw): seq<Event<Post>> {
    if s.postAmount == 0 then [] else Alternation(2 * s.postAmount - 1, PostsOf(threadId, draws), s.timePerPost)
  }

  /** Indefinite mode, observed for its first `fuel` iterations: post, then sleep,
      each time. */
  function IndefiniteTrace(s: PostScheduler, threadId: nat, draws: nat -> Draw, fuel: nat): seq<Event<Post>> {
    Alternation(2 * fuel, PostsOf(threadId, draws), s.timePerPost)
  }

  /** A worker's events, and whether it returned. */
  datatype WorkerRun = WorkerRun(threadId: nat, trace: seq<Event<Post>>, finished: bool)

  /** What `send_data_internal` does: an indefinite worker never returns, a bounded
      one returns after its posts. */
  function WorkerSpec(s: PostScheduler, threadId: nat, draws: nat -> Draw, fuel: nat): WorkerRun {
    if s.loopIndefinitely then WorkerRun(threadId, IndefiniteTrace(s, threadId, draws, fuel), false)
    else WorkerRun(threadId, BoundedTrace(s, threadId, draws), true)
  }

  /** `send_data_internal`. The indefinite loop is run for `fuel` iterations, which
      stands for however long the process is left running. */
  method SendDataInternal(s: PostScheduler, threadId: u32, draws: nat -> Draw, fuel: nat) returns (run: WorkerRun)
    ensures run == WorkerSpec(s, threadId, draws, fuel)
  {
    // `posts(k)` is `make_post` on iteration k's draw.
    var posts := PostsOf(threadId, draws);
    var trace: seq<Event<Post>> := [];
    if s.loopIndefinitely {
      var k := 0;
      while k < fuel
        invariant k <= fuel
        invariant trace == Alternation(2 * k, posts, s.timePerPost)
      {
        AlternationIteration(k, posts, s.timePerPost);
        trace := trace + [Work(posts(k))];
        trace := trace + [Sleep(s.timePerPost)];
        k := k + 1;
      }
      return WorkerRun(threadId, trace, false);
    }
    var i: u32 := 0;
    while i < s.postAmount
      invariant i <= s.postAmount
      invariant i < s.postAmount ==> trace == Alternation(2 * i, posts, s.timePerPost)
      invariant i == s.postAmount ==> trace == BoundedTrace(s, threadId, draws)
    {
      AlternationIteration(i, posts, s.timePerPost);
      trace := trace + [Work(posts(i))];
      // Only sleep if this is not the last post.
      if i != s.postAmount - 1 {
        trace := trace + [Sleep(s.timePerPost)];
      }
      i := i + 1;
    }
    run := WorkerRun(threadId, trace, true);
  }

  /** Bounded mode: exactly `post_amount` posts and `post_amount - 1` sleeps (none
      for zero or one post), whatever the requests yield. */
  lemma BoundedWorkerCounts(s: PostScheduler, threadId: nat, draws: nat -> Draw)
    ensures Works(BoundedTrace(s, threadId, draws)) == s.postAmount
    ensures Sleeps(BoundedTrace(s, threadId, draws)) == if s.postAmount == 0 then 0 else s.postAmount - 1
  {
    if s.postAmount > 0 {
      TruncatedCounts(s.postAmount, PostsOf(threadId, draws), s.timePerPost);
    }
  }

  /** Bounded mode: posts and sleeps alternate, the first and the last event are
      posts, and the posts come in iteration order. */
  lemma BoundedWorkerShape(s: PostScheduler, threadId: nat, draws: nat -> Draw)
    ensures var t := BoundedTrace(s, threadId, draws);
      && Alternates(t)
      && (0 < s.postAmount ==> t[0].Work? && t[|t| - 1].Work?)
      && (forall k :: 0 <= k < s.postAmount ==> t[2 * k] == Work(MakePost(threadId, draws(k))))
  {
    if s.postAmount > 0 {
      TruncatedShape(s.postAmount, PostsOf(threadId, draws), s.timePerPost);
    }
  }

  /** Whatever the mode, every post a worker makes is logged under its own id. */
  lemma WorkerPostsNameWorker(s: PostScheduler, threadId: nat, draws: nat -> Draw, fuel: nat)
    ensures var t := WorkerSpec(s, threadId, draws, fuel).trace;
      forall j :: 0 <= j < |t| && t[j].Work? ==> ThreadOf(t[j].payload.log.message) == Some(threadId)
  {
    var posts := PostsOf(threadId, draws);
    var len := if s.loopIndefinitely then 2 * fuel else if s.postAmount == 0 then 0 else 2 * s.postAmount - 1;
    assert WorkerSpec(s, threadId, draws, fuel).trace == Alternation(len, posts, s.timePerPost);
    AlternationWorkPayloads(len, posts, s.timePerPost);
    forall j | 0 <= j < len && Alternation(len, posts, s.timePerPost)[j].Work?
      ensures ThreadOf(Alternation(len, posts, s.timePerPost)[j].payload.log.message) == Some(threadId)
    {
      assert posts(j / 2) == MakePost(threadId, draws(j / 2));
    }
  }

  /** Indefinite mode: every post is followed by a sleep, so at every point of the
      run the worker has slept as often as it has posted, or once fewer. */
  lemma IndefiniteWorkerBalance(s: PostScheduler, threadId: nat, draws: nat -> Draw, fuel: nat, m: nat)
    requires m <= 2 * fuel
    ensures var p := IndefiniteTrace(s, threadId, draws, fuel)[..m];
      Sleeps(p) == Works(p) || Sleeps(p) + 1 == Works(p)
  {
    PrefixBalance(2 * fuel, m, PostsOf(threadId, draws), s.timePerPost);
  }

  /** Indefinite mode never winds down: observing one more iteration extends the
      trace by a post and a sleep, and the trace observed so far ends with a sleep. */
  lemma IndefiniteWorkerContinues(s: PostScheduler, threadId: nat, draws: nat -> Draw, fuel: nat)
    ensures IndefiniteTrace(s, threadId, draws, fuel + 1)
         == IndefiniteTrace(s, threadId, draws, fuel) + [Work(MakePost(threadId, draws(fuel))), Sleep(s.timePerPost)]
    ensures 0 < fuel ==> IndefiniteTrace(s, threadId, draws, fuel)[2 * fuel - 1] == Sleep(s.timePerPost)
  {
    WholeIteration(fuel, PostsOf(threadId, draws), s.timePerPost);
  }

  /** An indefinite worker does not consult the post amount. */
  lemma IndefiniteIgnoresPostAmount(s: PostScheduler, amount: u32, threadId: nat, draws: nat -> Draw, fuel: nat)
    requires s.loopIndefinitely
    ensures WorkerSpec(s.(postAmount := amount), threadId, draws, fuel) == WorkerSpec(s, threadId, draws, fuel)
  {
  }

  /** The two modes differ only in the trailing sleep: a bounded run is an
      indefinite run of as many iterations, cut before its last sleep. */
  lemma BoundedIsIndefiniteWithoutLastSleep(s: PostScheduler, threadId: nat, draws: nat -> Draw)
    requires 0 < s.postAmount
    ensures IndefiniteTrace(s, threadId, draws, s.postAmount)
         == BoundedTrace(s, threadId, draws) + [Sleep(s.timePerPost)]
  {
    var posts, d := PostsOf(threadId, draws), s.timePerPost;
    AlternationIteration(s.postAmount - 1, posts, d);
  }

  // ---------------------------------------------------------------------------
  // The dispatcher

  /** `send_data`. One thread runs the worker inline as thread 0; any other count
      spawns that many workers with ids 0, 1, ..., each with a copy of the schedule
      and its own client and random source (`env(id)`), and joins them all,
      discarding what the joins return. `spawned` is the number of threads started. */
  method SendData(s: PostScheduler, env: nat -> (nat -> Draw), fuel: nat) returns (runs: seq<WorkerRun>, spawned: nat)
    ensures |runs| == s.numThreads
    ensures forall id :: 0 <= id < |runs| ==> runs[id] == WorkerSpec(s, id, env(id), fuel)
    ensures spawned == if s.numThreads == 1 then 0 else s.numThreads
  {
    if s.numThreads == 1 {
      var run := SendDataInternal(s, 0, env(0), fuel);
      return [run], 0;
    }
    runs := [];
    var id: u32 := 0;
    while id < s.numThreads
      invariant id <= s.numThreads
      invariant |runs| == id
      invariant forall j :: 0 <= j < id ==> runs[j] == WorkerSpec(s, j, env(j), fuel)
    {
      var run := SendDataInternal(s, id, env(id), fuel);
      runs := runs + [run];
      id := id + 1;
    }
    spawned := s.numThreads;
  }

  /** Posts made by all workers together. */
  function TotalPosts(runs: seq<WorkerRun>): nat {
    if runs == [] then 0 else TotalPosts(runs[..|runs| - 1]) + Works(runs[|runs| - 1].trace)
  }

  /** A bounded run of n workers makes n times `post_amount` posts, every worker
      returns, and each worker's id is its position. */
  lemma {:induction false} BoundedRunTotals(s: PostScheduler, env: nat -> (nat -> Draw), fuel: nat, runs: seq<WorkerRun>)
    requires !s.loopIndefinitely
    requires forall id :: 0 <= id < |runs| ==> runs[id] == WorkerSpec(s, id, env(id), fuel)
    ensures TotalPosts(runs) == |runs| * s.postAmount
    ensures forall id :: 0 <= id < |runs| ==> runs[id].finished && runs[id].threadId == id
  {
    if runs != [] {
      var n := |runs| - 1;
      var init := runs[..n];
      BoundedRunTotals(s, env, fuel, init);
      assert runs[n] == WorkerSpec(s, n, env(n), fuel);
      BoundedWorkerCounts(s, n, env(n));
      MulSucc(n, s.postAmount);
    }
  }

  lemma MulSucc(n: nat, p: nat)
    ensures (n + 1) * p == n * p + p
  {
  }

  /** Three bounded workers of two posts each make six posts. */
  lemma ThreeWorkersTwoPostsEach(s: PostScheduler, env: nat -> (nat -> Draw), fuel: nat, runs: seq<WorkerRun>)
    requires s.numThreads == 3 && s.postAmount == 2 && !s.loopIndefinitely
    requires |runs| == s.numThreads
    requires forall id :: 0 <= id < |runs| ==> runs[id] == WorkerSpec(s, id, env(id), fuel)
    ensures TotalPosts(runs) == 6
  {
    BoundedRunTotals(s, env, fuel, runs);
  }
}
