# go-deferred: the hit-loop runner and the daemon scheduler, in Dafny

go-deferred drains "deferred job" HTTP endpoints. A target processes one batch of
background work per request and says whether more remains. The project models two
pieces of that system.

- **The hit-loop runner** (`pkg/runner`). `Loop` hits one target until it reports no
  more work. It retries up to `errorsBeforeQuitting` failures in a row; a success
  resets the count. It stops at the `maxHitsPerLoop` ceiling when that is positive.
  It returns every hit it made and the last hit's error.
  - `init` reads the configuration from the environment.
  - `Hit` turns the `X-Go-Deferred-Enqueue` response header into a reschedule hint.
  - The scripted runner of `mock.go` supplies the outcomes of the hits.
- **The daemon scheduler** (`pkg/daemon`). It is a class that holds:
  - the registry of due times per target URL;
  - per-target statistics;
  - the timer and wake-up counters.
- **The daemon's steps.**
  - `Step1Enqueue` clamps the delay and lets the earliest due time win.
  - `Step2Schedule` expires old entries and arms at most one timer.
  - `TimerFire` is the body of the timer goroutine.
  - `Step3WakeUp` drains every due entry.
  - `Step4Hit` skips an entry that an earlier drain already covered, or runs `Loop`
    and records the result.
  - The front door's status decisions are modelled as pure functions.

How the model is built:

- **Clock.** Every daemon step takes the clock reading `now` (Unix seconds) as a
  parameter. One reading serves the whole call.
- **Pause before rescheduling.** A wake-up round sleeps `coolDown` before it
  reschedules. So that reschedule is given `now + CoolDown`. The time the drains
  take is not added (see "Left out").
- **Sequential drains.** Drains run one after another, in any order.
- **Go's strconv.** `Strconv` models `strconv.ParseUint(s, 10, 64)` and
  `strconv.ParseInt(s, 10, 64)`. It keeps both the error kind and the value Go returns
  with the error. Lemmas give each parser's result on every signed or unsigned digit
  string through its decimal value, and tie the parsers to a decimal formatter.
- **Tests.** `runner_tests.dfy` replays the six cases of `pkg/runner/runner_test.go`
  against `Loop`. `daemon_tests.dfy` replays the statistics that `TestOne`, `TestLoop`
  and `TestEnqueueAfterHit` of `pkg/daemon/daemon_test.go` expect. It also walks
  through the scheduler's timer decisions.

Where the code disagrees with its own tests or with the system's documentation, the model follows the code:

- `step4Hit` unpacks three results from `runner.Loop`, which returns two. The number of
  loops recorded is `|hits.List|`.
- `step4Hit` reads `LastHit` and `CounterWakeUps`. `def.go` names these fields
  `LatestTimestamp` and `CounterOnTimers`; the model treats them as the same fields.
- The tests set `errorsBeforeQuitting` on the scripted runner, which `mock.go` does not
  declare. The model gives the scripted runner that field, with a default of 0.
- The daemon tests were written for an earlier scheduler: they read a `timer` field
  and call `NewMocked` with one argument. Their timer counts are not what this code
  does.
- **When a timer is armed.** `step2Schedule` arms a timer only in two cases:
  - no armed timer is still pending;
  - the earliest entry is already due.

  A new entry due sooner than a pending timer therefore waits for that timer.
  `DaemonTests.TestOutstandingTimerIsKept` shows this: a 300-second entry's timer
  holds back a 1-second entry.
- **Drained entries stay.** A drained entry stays in the registry until it is older
  than `DelayMax` seconds. Until then every wake-up re-arms a timer for it. Later
  rounds skip it because of the `lastHit` floor.
- **Things the code does not do.** It sends no reschedule hint back into the
  scheduler. It has no periodic sweep. It does not pause after a failed drain.

## Model

| member | source | states |
|---|---|---|
| `Strconv.ScanUint` | pkg/runner/runner.go:213 | the digit scan of ParseUint: its result is at most MaxUint64; success means the input was all digits; a syntax error carries 0 and a range error MaxUint64 |
| `Strconv.ScanDigits` | pkg/runner/runner.go:213 | on a digit string the scan succeeds with the accumulated decimal value exactly when it fits in a uint64, and is a range error carrying MaxUint64 otherwise |
| `Strconv.ParseUint` | pkg/runner/runner.go:222 | ParseUint(s, 10, 64): success only on a non-empty string of digits; errors carry 0 or MaxUint64 |
| `Strconv.ParseInt` | pkg/runner/runner.go:171 | ParseInt(s, 10, 64): the value is always within int64; a syntax error gives 0; a range error gives MinInt64 after a '-' and MaxInt64 otherwise; success means an optional sign followed by at least one digit and nothing else |
| `Strconv.ParseUintDecimal` | pkg/runner/runner.go:222 | every non-empty digit string, leading zeros included, parses to its decimal value when that is at most MaxUint64, and is a range error carrying MaxUint64 exactly when it is larger |
| `Strconv.ParseIntDecimal` | pkg/runner/runner.go:171 | an optional '+' or '-' followed by a non-empty digit string parses to its signed decimal value when that lies in the int64 range, and is a range error carrying the bound on the sign's side exactly when it does not |
| `Strconv.ParseFormatUint` | pkg/runner/runner.go:213 | every uint64 written in decimal parses back to itself with no error |
| `Strconv.ParseFormatInt` | pkg/runner/runner.go:171 | every int64 written in decimal, with '-' when negative, parses back to itself with no error |
| `Mock.MockedRunner.NewMocked` | pkg/runner/mock.go:29-34 | the runner holds the given script; GetMaxHitsPerLoop returns exactly the ceiling passed in; errorsBeforeQuitting starts at 0 |
| `Mock.Respond` | pkg/runner/mock.go:62-69 | a scripted entry with an error answers that error and a zero hit; otherwise no error and a hit carrying the entry's MoreDeferred, Enqueue and HasEnqueue, with More false |
| `Mock.OutcomeAt` | pkg/runner/mock.go:48-69 | the i-th Hit call fails exactly when the script has no i-th entry ("No hit") or that entry scripts an error, and a failed call yields a zero hit |
| `Mock.MockedRunner.GetMaxHitsPerLoop` | pkg/runner/mock.go:40-42 | reports the ceiling the runner holds |
| `Mock.MockedRunner.Hit` | pkg/runner/mock.go:44-70 | on an empty script, "No hit" with a zero hit and the script stays empty; otherwise exactly the first entry is removed and the rest keep their order; a scripted error gives that error and a zero hit; otherwise the hit copies MoreDeferred, Enqueue and HasEnqueue, More is false and there is no error |
| `Runner.Walk` | pkg/runner/runner.go:47-89 | the loop's hit count, as a function of the script: it always makes one more hit than those already done |
| `Runner.LoopLength` | pkg/runner/runner.go:34-104 | every loop makes at least one hit |
| `Runner.Loop` | pkg/runner/runner.go:34-104 | makes LoopLength hits, one Hit call each, appends every result in order (failed ones too), returns the last hit's error (nil after a success) and leaves exactly the unconsumed script |
| `Runner.WalkStopsAtFirstStop` | pkg/runner/runner.go:61-88 | from any state the loop can be in, it stops at the first hit after which it must stop and at no earlier one |
| `Runner.LoopStopsAtFirstStop` | pkg/runner/runner.go:61-88 | the loop ends exactly at the first hit that is the (k+1)-th failure in a row, a success with neither MoreDeferred nor More set (scripted hits always have More false, see "Left out"), or the hit ceiling |
| `Runner.LoopBounded` | pkg/runner/runner.go:63-88 | over a finite script the loop ends within script length + errorsBeforeQuitting + 1 hits, and never makes more than a positive maxHitsPerLoop |
| `Runner.QuitsAfterErrorBudget` | pkg/runner/runner.go:63-70 | k + 1 failures in a row from the first hit end the loop exactly at the (k+1)-th hit, unless a ceiling of at most k hits ends it sooner |
| `Runner.QuitsWithinAnyErrorRun` | pkg/runner/runner.go:63-70 | any k + 1 failures in a row, wherever they start, end the loop no later than the (k+1)-th of them |
| `Runner.ErrorNeedsFailureRun` | pkg/runner/runner.go:63-74 | a loop that ends on an error without reaching the ceiling ended on k + 1 failures in a row: a success resets the count |
| `Runner.EndsByFirstFinishedHit` | pkg/runner/runner.go:81-83 | the loop never goes past the first success whose MoreDeferred and More are both false (More is always false in scripted hits, see "Left out") |
| `Runner.ApplyEnqueueHeader` | pkg/runner/runner.go:169-176 | HasEnqueue becomes true, and Enqueue becomes the value, exactly when the enqueue header is non-empty and parses as an int64; otherwise the hit is unchanged |
| `Runner.EnqueueHintRoundTrip` | pkg/runner/runner.go:169-176 | a target that sends any int64 v as the hint yields a hit with HasEnqueue and Enqueue = v |
| `Runner.Wrap64` | pkg/runner/runner.go:197 | the seconds-to-Duration product wraps into the int64 range and agrees with the exact product modulo 2^64 |
| `Runner.ConfigDefaults` | pkg/runner/runner.go:193-226 | with nothing set, the cooldown is one minute, the dump flag false, errorsBeforeQuitting 3 and maxHitsPerLoop 5 |
| `Runner.UnparsableKeepsDefault` | pkg/runner/runner.go:210-226 | a value that does not parse as a uint64 leaves the default in place |
| `Runner.UintSettingRoundTrip` | pkg/runner/runner.go:210-226 | any uint64 written in decimal replaces the default with that number |
| `Runner.CooldownSettingRoundTrip` | pkg/runner/runner.go:193-200 | a cooldown of s seconds whose Duration fits in int64 becomes exactly s seconds |
| `Runner.DumpFlagExactly` | pkg/runner/runner.go:202-208 | the dump flag is true exactly for "true", "yes" or "1" |
| `Runner.HttpRunner.New` | pkg/runner/runner.go:27-31 | a new runner holds the configuration init derives from the environment, with the dump flag false unless set, and its getters report exactly that configuration |
| `Runner.HttpRunner.Init` | pkg/runner/runner.go:193-226 | each option is its default unless its variable is non-empty and parses; the dump flag changes only when its variable is non-empty |
| `Runner.HttpRunner.GetCooldownDuration` | pkg/runner/runner.go:106-108 | reports the cooldown the runner holds |
| `Runner.HttpRunner.GetDumpResponseOnParseError` | pkg/runner/runner.go:110-112 | reports the dump flag the runner holds |
| `Runner.HttpRunner.GetErrorsBeforeQuitting` | pkg/runner/runner.go:114-116 | reports the error budget the runner holds |
| `Runner.HttpRunner.GetMaxHitsPerLoop` | pkg/runner/runner.go:122-124 | reports the hit ceiling the runner holds |
| `Daemon.LoadStats` | pkg/daemon/daemon.go:117-127 | the stored statistics of the URL, or zero statistics when there are none; the map is not changed |
| `Daemon.Due` | pkg/daemon/daemon.go:335-337 | exactly the entries due at or before the round's clock reading |
| `Daemon.Clamp` | pkg/daemon/daemon.go:219-224 | the delay is clamped into [1, 300] and kept when already inside |
| `Daemon.Unexpired` | pkg/daemon/daemon.go:265-279 | exactly the entries due after the cut-off remain, with their due times |
| `Daemon.Earliest` | pkg/daemon/daemon.go:260-270 | the running minimum: at most MaxInt64, no later than any entry, and equal to some entry unless MaxInt64 |
| `Daemon.AfterDrain` | pkg/daemon/daemon.go:395-404 | after a drain, wake-ups go up by one, loops by the hit count, errors by one exactly when the loop failed, lastHit is now, and enqueues are unchanged |
| `Daemon.QueueReply` | pkg/daemon/daemon.go:162-180 | 400 exactly when target or hash is empty, 403 exactly when the hash is not GetMD5(target, secret), 202 otherwise, and only a 202 enqueues the target with ParseInt's value of delay |
| `Daemon.ServeReply` | pkg/daemon/daemon.go:135-146 | 404 exactly for paths other than /favicon.ico, /queue, /queued and /stats; /queue is decided by serveQueue; nothing else enqueues |
| `Daemon.RejectedRequestsEnqueueNothing` | pkg/daemon/daemon.go:162-180 | a request enqueues only when it is an accepted /queue request whose hash matches its target |
| `Daemon.Daemon.constructor` | pkg/daemon/daemon.go:85-115 | an empty registry and statistics, all counters 0, timerTimestampSet MaxInt64, and the invariant holds |
| `Daemon.Daemon.SetSecret` | pkg/daemon/daemon.go:81-83 | the secret is replaced |
| `Daemon.Daemon.Step1Enqueue` | pkg/daemon/daemon.go:218-257 | due at now + the clamped delay; an existing entry with now < existing <= due time wins and nothing changes; otherwise the entry is stored, only that URL's enqueue counter goes up by one, and the registry is rescheduled; the invariant is kept |
| `Daemon.Daemon.Step2Schedule` | pkg/daemon/daemon.go:259-320 | deletes exactly the entries due at or before now - 300; arms one timer for the earliest remaining entry iff one exists and no other timer is outstanding or it is already due, counting it and stamping now; otherwise leaves the timer state; keeps trigger + pending == set |
| `Daemon.Daemon.TimerFire` | pkg/daemon/daemon.go:308-318 | the fired timer leaves the pending ones, the trigger counter goes up by one, then a wake-up round runs with the effects stated for Step3WakeUp; trigger <= set is kept |
| `Daemon.Daemon.Step3WakeUp` | pkg/daemon/daemon.go:322-369 | each entry due at or before now is drained once, and only those; all other statistics are unchanged; wake-up start, finish and run counters go up by one; timerTimestampRun is now; when a single entry is due and not skipped, its statistics become AfterDrain of exactly one loop over the script and that loop's hits are popped from the script; when every due entry is skipped the script is untouched; then the registry is rescheduled one cooldown later |
| `Daemon.Daemon.HitDue` | pkg/daemon/daemon.go:336-355 | step4Hit runs for exactly the entries due at or before now; no other URL's statistics change; a single due entry gets exactly one loop's AfterDrain and the script loses exactly that loop's hits; when every due entry is skipped the script is untouched |
| `Daemon.Daemon.Step4Hit` | pkg/daemon/daemon.go:371-408 | when lastHit >= the due time nothing changes (no insertion, no hit); otherwise one loop runs and the URL's statistics become AfterDrain of its hit count and error; no other URL changes |
| `Daemon.Daemon.Serve` | pkg/daemon/daemon.go:129-180 | the status is ServeReply's; a request that is not an accepted /queue request changes no state; an accepted one has exactly step1Enqueue's effect for its target and ParseInt's delay |

## Left out

- HTTP server and responses: `ListenAndServe`, `serveFavicon`, and the JSON bodies of
  `serveQueued`/`serveStats` are I/O. They are represented only by their 200 status.
  Parsing the request URI is also left out: `Serve` receives the path and query
  already split, and a query parameter has one value.
- HTTP runner hits: the POST, the response read and the JSON decoding of `runner.Hit`
  are network and foreign code. Only the enqueue-header decision is modelled.
  `http.Header.Get` is taken to compare keys exactly, with no canonicalisation.
- Loop over the HTTP runner: Dafny's traits are not used, so `Loop` drives the scripted
  runner only, and the daemon holds a scripted runner. The daemon's default
  `runner.New(nil, logger)` is not part of this model.
- Concurrency: goroutines, the wake-up channel, the WaitGroup, the mutexes and the
  unlocked `loadStats` read are left out. Steps run one at a time, and a round's
  drains run one after another.
- Sleeps: the runner's retry cooldown and a scripted hit's `Duration` are not
  modelled. The daemon's post-round `coolDown` only shifts the clock passed to the
  reschedule.
- Logging: every logrus call is left out, and so is the warning that shows a
  response's `Message`.
- GetMD5 (`internal/crypt.go`) is a function parameter. MD5 and base64 are not part
  of this model.
- Integer widths: counters are unbounded naturals, so uint64 wrap-around is not
  modelled. Clock values and due times are unbounded integers, so overflow in
  `now + delay` and `LastHit - timestamp` is not modelled. The one wrap that is
  modelled is the cooldown's seconds-to-Duration multiplication.
- Type assertions: the branches of `step2Schedule` and `step4Hit` for registry values
  that are not int64 and keys that are not strings are left out. The registry only
  ever holds strings mapped to integers.
- Timing fields: `Hit.TimeStart`/`TimeElapsed` stay at their zero values, as the
  scripted runner leaves them. `Hits.TimeStart`/`TimeElapsed` are the clock
  readings passed to `Loop`.
- Runner.Loop: the scripted runner is the only source of hits, and `mock.go` never
  sets `More` on the hits it returns. So the `!data.more` half of the stop test is
  never reached with `More` true, and the XenForo 2 flag is not exercised by any
  loop of the model: `Finished` states the stop test on both flags, but only
  `MoreDeferred` varies.
- Daemon.Daemon.Step3WakeUp: when several entries are due, it states for each one
  what a drain does (one more wake-up, at least one more hit, at most one more
  error, lastHit = now), not the exact hit count. The order in which the drains
  consume the shared script is not fixed. When a single entry is due, the exact
  count is stated; `Step4Hit` states it for one drain.
- Daemon.Daemon.TimerFire: has the same per-entry drain statement as `Step3WakeUp`,
  for the same reason.
- Daemon.Daemon.HitDue: has the same per-entry drain statement as `Step3WakeUp`,
  for the same reason.
- The `lastHit` stamp: every drain in a round records the round's clock reading
  `now`. daemon.go reads the clock again after `Loop` returns, which can be
  minutes later because of retry cooldowns; that later reading is not modelled.
- The reschedule's clock: after a round, the model reschedules at `now + CoolDown`.
  daemon.go reads the clock after every drain of the round has finished, and then
  sleeps. The time the drains took is therefore not modelled. So after a long round,
  entries the code would expire stay in the model's registry, and the arming test
  `next <= now` uses an earlier clock.
