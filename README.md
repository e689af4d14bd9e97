# Ambi mock client: post scheduler

A Dafny model of the scheduling core of `ambi_mock_client`, a program that poses as
a fleet of environmental sensors: it makes up readings (temperature, humidity,
pressure, dust concentration and an air-purity label) and posts them to a
collector over HTTP, at a cadence and with a concurrency set by four optional
knobs.

What is modelled:

- **Schedule resolution** (`SensorPosts.Build`). The four optional settings are a
  post amount, a time per post, a total time and a thread count. They are resolved
  into a `PostScheduler`. The run is indefinite exactly when no post amount is given
  and a time per post is. Counts default to one. The interval is resolved by a 2x2
  rule shared with the older scheduler (`Schedule.ResolveInterval`):
  - neither time given: 10 s;
  - only a total time: the total divided by the post amount;
  - a time per post: that time, with the total ignored.
  Durations are whole nanoseconds. `Duration / u32` truncates and panics on a zero
  divisor, so `Build` returns `Panics` for an explicit post amount of 0 with only a
  total time set.
- **The worker** (`SensorPosts.SendDataInternal`). It is a method whose output is
  the trace of what it did: `Work(post)` and `Sleep(interval)` events.
  - In bounded mode the sleep after the last post is skipped.
  - In indefinite mode every post is followed by a sleep and the worker never
    returns. A `fuel` argument says how many iterations are observed.
  - Each post carries the generated reading and the log line that classifies the
    request's outcome.
- **The dispatcher** (`SensorPosts.SendData`). One thread runs the worker inline as
  thread 0. Any other count runs that many workers with ids `0..n-1`.
  - Workers share nothing. Worker `id` is given its own function `env(id)` from
    iteration number to what its random source and HTTP client yield, so its run
    depends on nothing else.
- **Outcome classification** (`SensorPosts.Classify`).
  - A response is logged at info level when its status is 2xx, and at error level
    otherwise.
  - An error is reported as "request error" when `is_request` holds. Otherwise it is
    "request timed out" when `is_timeout` holds, and otherwise "specific error type
    unknown".
  - Every line starts with `[Thread {id}]: `.
- **Readings** (`Data`). Air purity is banded over `real`, and the `Display` strings
  are kept exactly as the source writes them (`FreshAir` displays as "Dangerous
  Pollution"). The reading generator labels each reading with the display string of
  its dust concentration's band.
- **The error type** (`Errors`). `PostSchedulerError::InvalidArgument` and its
  rendered message.
- **The older `RequestScheduler`** (`Requests`). Its builder is a class whose setters
  update it in place. It has the same interval rule, and lemmas pin down where it
  diverges from the newer scheduler:
  - it has no indefinite mode;
  - it spawns threads even for one worker;
  - it sleeps after every iteration.

Two behaviours of the code that the model keeps as written:

- `build` does not check the thread count: it passes any count through. Its comment
  defers the check to `lib::is_valid_num_of_threads`, which this snapshot of lib.rs
  does not define. `SensorPosts.BuildKeepsValidatedThreads` states what `build` keeps
  of an already validated count.
- An explicit post amount of 0 with only a total time set reaches `Duration / u32`
  and panics.

## Model

| member | source | states |
|---|---|---|
| `Schedule.DivDuration` | src/sensor_posts.rs:67 | `Duration / u32` panics exactly when the divisor is 0; otherwise the quotient q satisfies q*k <= d < q*k + k (truncating division) |
| `Schedule.ResolveInterval` | src/sensor_posts.rs:65-70 | the 2x2 interval split: a time per item always wins and the total is ignored; with neither set, the default; with only a total, an even share of it rounded down, or a panic exactly when the count is 0 |
| `Errors.Render` | src/error.rs:5-10 | the rendered message is the template filled in, piece by piece: `Invalid value "`, then the value, then `" for argument `, then the argument name, then `. `, then the message, and nothing else (its length is the sum of the pieces) |
| `Errors.RenderSeparatesMessages` | src/error.rs:5 | for the same argument and value, two errors render alike if and only if their messages are equal |
| `Data.NewReading` | src/data.rs:16-30 | `Reading::new` stores its five arguments unchanged in the matching fields |
| `Data.FromValue` | src/data.rs:42-49 | every finite value is given a band whose half-open interval holds it; a value below `f64::MIN` falls through to Dangerous |
| `Data.FromValueIsBand` | src/data.rs:42-49 | for every finite value, `from_value` gives band p if and only if the value lies in p's half-open interval: (-inf,50] FreshAir, (50,100] Low, (100,150] High, (150,inf) Dangerous; so every value lands in exactly one band |
| `Data.FromValueMonotone` | src/data.rs:42-49 | from `f64::MIN` upwards, a larger value never gives a less severe band (FreshAir < Low < High < Dangerous); negative infinity is the exception, since it falls through to Dangerous |
| `Data.FromValueBoundaries` | src/data.rs:44-46 | 0 and 50 are FreshAir, 50.01 and 100 Low, 100.01 and 150 High, 150.01 Dangerous |
| `Data.FromValueTestRanges` | src/data.rs:94-106 | any value drawn from the unit test's ranges [0, 50], [51, 100], [101, 150], [151, f64::MAX) is classified FreshAir, Low, High, Dangerous respectively |
| `Data.Display` | src/data.rs:54-63 | each display string, exactly as written (Low "Fresh Air", High "Low Pollution", Dangerous "High Pollution", FreshAir "Dangerous Pollution"), reads back to its variant |
| `Data.DisplayInjective` | src/data.rs:54-63 | two variants display alike if and only if they are the same variant |
| `Data.RandomGenPressure` | src/data.rs:79-82 | the generated pressure lies in [900, 1100] |
| `SensorPosts.DefaultBuilder` | src/sensor_posts.rs:30-37 | the default builder has all four settings unset |
| `SensorPosts.WithSomePostAmount` | src/sensor_posts.rs:39-42 | replaces the post amount with the given option, `None` included, and keeps the other three settings |
| `SensorPosts.WithSomeTimePerPost` | src/sensor_posts.rs:44-47 | replaces the time per post with the given option and keeps the other three settings |
| `SensorPosts.WithSomeTotalTime` | src/sensor_posts.rs:49-52 | replaces the total time with the given option and keeps the other three settings |
| `SensorPosts.WithSomeNumThreads` | src/sensor_posts.rs:54-57 | replaces the thread count with the given option and keeps the other three settings |
| `SensorPosts.SettersCommute` | src/sensor_posts.rs:39-57 | the four setters applied in either order give the builder holding exactly the four given options |
| `SensorPosts.Build` | src/sensor_posts.rs:59-82 | never an error. It panics exactly for an explicit post amount of 0 with no time per post and a total time. It is indefinite exactly when the post amount is unset and a time per post is set. The post amount and thread count default to 1 and otherwise pass through unchanged. The interval follows the shared rule |
| `SensorPosts.BuildDefault` | src/sensor_posts.rs:16-18 | with nothing set: one bounded post, a 10 s interval, one thread |
| `SensorPosts.BuildInterval` | src/sensor_posts.rs:65-70 | after `build`: a time per post is kept as given; with neither time set the interval is 10 s; with only a total time T and post amount N, interval*N <= T < (interval+1)*N |
| `SensorPosts.BuildKeepsValidatedThreads` | src/sensor_posts.rs:72-74 | a thread count already in [1, 10], or unset, gives a schedule whose thread count is in [1, 10] |
| `SensorPosts.GenerateReading` | src/sensor_posts.rs:198-207 | the reading keeps the four drawn values, its pressure lies in [900, 1100] as `random_gen_pressure` draws it, and its air-purity label reads back to the band of its own dust concentration |
| `SensorPosts.Classify` | src/sensor_posts.rs:163-195 | the line is at info level if and only if the outcome is a response with a 2xx status. Every line starts with `[Thread {id}]: `. A response line then reads `Response from Ambi backend: ` and the status in decimal. An error line reads `Response error from Ambi backend: ` and then "request error" if `is_request`, otherwise "request timed out" if `is_timeout`, otherwise "specific error type unknown" |
| `SensorPosts.ClassifyNamesThread` | src/sensor_posts.rs:124-127 | the thread id can be read back from the tag of every line the worker logs |
| `SensorPosts.ClassifyInjective` | src/sensor_posts.rs:163-187 | two outcomes logged alike by one worker have the same status, or the same error cause (request error / timed out / unknown) |
| `SensorPosts.RequestErrorWins` | src/sensor_posts.rs:181-186 | an error with `is_request` is logged as "request error" whatever `is_timeout` says |
| `SensorPosts.MakePost` | src/sensor_posts.rs:152-196 | a post carries the reading `generate_random_reading` makes from the iteration's draw and the line `Classify` logs for this worker and this outcome: the reading has the drawn dust concentration and the label of its band, the line is at info level exactly for a 2xx response, and the line names this worker's id |
| `SensorPosts.SendDataInternal` | src/sensor_posts.rs:128-149 | the worker's trace and termination are `WorkerSpec`. Indefinite: post-then-sleep for every observed iteration, and it does not return. Bounded: `post_amount` posts with a sleep between consecutive ones, and it returns |
| `SensorPosts.WorkerPostsNameWorker` | src/sensor_posts.rs:124-127 | in either mode, every post of worker `id` is logged under a tag that reads back as `id` |
| `SensorPosts.BoundedWorkerCounts` | src/sensor_posts.rs:141-148 | a bounded worker makes exactly `post_amount` posts and `post_amount - 1` sleeps (0 for 0 or 1 posts), whatever the requests yield |
| `SensorPosts.BoundedWorkerShape` | src/sensor_posts.rs:141-148 | in bounded mode posts and sleeps alternate, the first and last events are posts, and the k-th post is iteration k's |
| `SensorPosts.IndefiniteWorkerBalance` | src/sensor_posts.rs:134-139 | at every point of an indefinite run the worker has slept as often as it has posted, or once fewer |
| `SensorPosts.IndefiniteWorkerContinues` | src/sensor_posts.rs:134-139 | each further iteration of an indefinite run appends a post then a sleep, and the run so far ends with a sleep |
| `SensorPosts.IndefiniteIgnoresPostAmount` | src/sensor_posts.rs:134-141 | an indefinite worker's run does not depend on the post amount: it never reaches the bounded loop |
| `SensorPosts.BoundedIsIndefiniteWithoutLastSleep` | src/sensor_posts.rs:134-148 | for N >= 1, the indefinite run of N iterations is the bounded run of N posts plus one trailing sleep (for N = 0 both runs are empty) |
| `SensorPosts.SendData` | src/sensor_posts.rs:93-122 | exactly `num_threads` runs (none for 0); run `id` is worker `id` on the same schedule and its own draws; no thread is spawned for a count of 1, and n are spawned otherwise |
| `SensorPosts.BoundedRunTotals` | src/sensor_posts.rs:104-119 | in bounded mode the workers together make n × `post_amount` posts, every worker returns, and each run carries its own id |
| `SensorPosts.ThreeWorkersTwoPostsEach` | src/sensor_posts.rs:104-119 | three bounded workers of two posts each make six posts |
| `Requests.RequestSchedulerBuilder.Default` | src/requests.rs:23-30 | the default builder has all four settings unset |
| `Requests.RequestSchedulerBuilder.WithRequestAmount` | src/requests.rs:32-35 | sets the request amount to `Some(v)`, leaves the other fields alone, and returns the same builder |
| `Requests.RequestSchedulerBuilder.WithTimePerRequest` | src/requests.rs:37-40 | sets the time per request to `Some(v)`, leaves the other fields alone, and returns the same builder |
| `Requests.RequestSchedulerBuilder.WithTotalTime` | src/requests.rs:42-45 | sets the total time to `Some(v)`, leaves the other fields alone, and returns the same builder |
| `Requests.RequestSchedulerBuilder.WithNumThreads` | src/requests.rs:47-50 | sets the thread count to `Some(v)`, leaves the other fields alone, and returns the same builder |
| `Requests.RequestSchedulerBuilder.Build` | src/requests.rs:52-70 | it panics exactly for an explicit request amount of 0 with only a total time. The request amount and thread count default to 1, with no upper bound on threads. The interval follows the shared rule |
| `Requests.SameResolutionAsPostScheduler` | src/requests.rs:52-70 | on the same four settings both builders agree on panicking, the count, the interval and the thread count; the newer one is additionally indefinite exactly when the count is unset and an interval is set |
| `Requests.SendDataInternal` | src/requests.rs:94-110 | the worker's trace is `request_amount` iterations, each carrying the payload and each followed by a sleep |
| `Requests.SendData` | src/requests.rs:81-92 | spawns exactly `num_threads` workers, 1 included and none for 0; every worker's run is the same trace over its own copy of the payload |
| `Requests.RequestWorkerCounts` | src/requests.rs:99-109 | N iterations and N sleeps, alternating, the last event a sleep, every iteration carrying the payload unchanged |
| `Requests.OneMoreSleepThanPostWorker` | src/requests.rs:99-109 | for a count of at least 1, against the newer bounded worker with the same count and interval: same number of iterations, exactly one more sleep (for a count of 0 neither worker does anything) |
| `Requests.SendDataTest` | src/requests.rs:121-130 | 2 threads × 5 requests at 1 s: two workers, each completing 5 iterations and 5 sleeps |

## Left out

- HTTP transport (`reqwest` client, building and sending the request). A send is an abstract outcome: a three-digit status, or an error with its `is_request` and `is_timeout` flags. "Success" means a status in 200..=299.
- JSON encoding of a reading (`serde_json`): a foreign library. A post carries the `Reading` value itself.
- Log lines other than the outcome line. This covers the info line naming the URL: `crate::URL` is not defined in this snapshot of the crate, since lib.rs declares it inside `run`. It also covers the debug lines and the `debug!` messages of the dispatcher. Logger setup and log levels other than info and error are left out too.
- Real threads, joins and sleeping. Workers are independent sequential runs collected in id order. A sleep is an event, not elapsed time. The older worker's `SystemTime` elapsed-time printing is I/O; its iteration is a work event carrying the payload.
- Failed joins. A worker in this model cannot panic, so there is no join failure to discard. The dispatcher returns nothing to its caller in either scheduler.
- `SensorPosts.SendDataInternal`: an indefinite worker is observed for `fuel` iterations and reported as not finished. Its non-termination is captured by `IndefiniteWorkerContinues`, not by a loop that does not end.
- The random generators for temperature, humidity and dust concentration (floating point with `trunc`). Their values come in as the drawn `Sample`, whose pressure has the type `Data.Pressure` of the values `random_gen_pressure` can return. Where the random source advances is abstracted as one draw per iteration.
- `Data.FromValue` works over `real`. NaN is not modelled; in the source it falls through to `Dangerous`. The guard's `f64::MIN` lower bound is kept, and any value below it stands for negative infinity, which gives `Dangerous` as in the source.
- The upper bound of `Duration` (2^64 seconds): durations are unbounded naturals.
- `lib::is_valid_num_of_threads`: it is not part of this model, and this snapshot of lib.rs does not define it. Its range is stated as a hypothesis of `SensorPosts.BuildKeepsValidatedThreads`.
- `src/lib.rs` `run` and `src/main.rs`: the entry point and command-line parsing. Its error triage follows the same request, then timeout, then unknown order as `Classify`.
