/**
 * The scheduler of pkg/daemon/daemon.go: a registry of due times per target
 * URL, per-target statistics, and the timer bookkeeping that keeps at most
 * one timer outstanding unless an entry is already due. Every step takes the
 * clock reading `now` (Unix seconds) as a parameter; wake-up rounds and the
 * drains inside them run one after another.
 */
module Daemon {
  import opened Wrappers
  import opened Strconv
  import opened RunnerDef
  import opened Mock
  import Runner

  /** The earliest delay: the next second, to avoid tight loops. */
  const DelayMin: int := 1
  /** The latest delay (five minutes); also the age after which an entry expires. */
  const DelayMax: int := 300
  /** The pause after a wake-up round, in seconds. */
  const CoolDown: int := 1

  /**
   * Per-target metrics (pkg/daemon/def.go). `counterWakeUps` and `lastHit`
   * are the fields def.go names CounterOnTimers and LatestTimestamp.
   */
  datatype Stats = Stats(counterEnqueues: nat, counterErrors: nat, counterLoops: nat, counterWakeUps: nat, lastHit: int)

  const ZeroStats: Stats := Stats(0, 0, 0, 0, 0)

  /** loadStats: the stored statistics, or fresh zero ones; the map itself is not touched. */
  function LoadStats(stats: map<string, Stats>, url: string): (s: Stats)
    ensures url in stats ==> s == stats[url]
    ensures url !in stats ==> s == ZeroStats
  {
    if url in stats then stats[url] else ZeroStats
  }

  /** The requested delay, clamped into [DelayMin, DelayMax]. */
  function Clamp(delay: int): (d: int)
    ensures DelayMin <= d <= DelayMax
    ensures DelayMin <= delay <= DelayMax ==> d == delay
    ensures delay < DelayMin ==> d == DelayMin
    ensures delay > DelayMax ==> d == DelayMax
  {
    var d := if delay < DelayMin then DelayMin else delay;
    if d > DelayMax then DelayMax else d
  }

  /** The entries of `queued` that are still live: due strictly after `cutOff`. */
  function Unexpired(queued: map<string, int>, cutOff: int): (live: map<string, int>)
    ensures forall url :: url in live <==> url in queued && queued[url] > cutOff
    ensures forall url :: url in live ==> live[url] == queued[url]
  {
    map url | url in queued && queued[url] > cutOff :: queued[url]
  }

  /** `next` is the earliest due time in `queued`, or MaxInt64 when there is none before it. */
  ghost predicate IsEarliest(queued: map<string, int>, next: int)
  {
    && next <= MaxInt64
    && (forall url :: url in queued ==> next <= queued[url])
    && (next == MaxInt64 || exists url :: url in queued && queued[url] == next)
  }

  /** The minimum of MaxInt64 and every due time in `queued`. */
  ghost function Earliest(queued: map<string, int>): (next: int)
    ensures IsEarliest(queued, next)
    decreases |queued|
  {
    if queued == map[] then MaxInt64
    else
      var url :| url in queued;
      var others := queued - {url};
      var rest := Earliest(others);
      assert forall other :: other in queued && other != url ==> other in others;
      assert rest != MaxInt64 ==> exists other :: other in others && others[other] == rest;
      if queued[url] < rest then queued[url] else rest
  }

  lemma EarliestUnique(queued: map<string, int>, a: int, b: int)
    requires IsEarliest(queued, a) && IsEarliest(queued, b)
    ensures a == b
  {
  }

  /**
   * The timer decision of step2Schedule over the already-expired registry
   * `queued`: a timer for the earliest entry is armed when there is one and
   * either no other timer is outstanding or the entry is already due;
   * otherwise the timer state stays as it was.
   */
  ghost predicate Rescheduled(queued: map<string, int>, now: int, trigger: nat,
                              set0: nat, timestamp0: int, timers0: seq<int>,
                              set1: nat, timestamp1: int, timers1: seq<int>)
  {
    var next := Earliest(queued);
    if next < MaxInt64 && (!(trigger < set0) || next <= now) then
      set1 == set0 + 1 && timestamp1 == now && timers1 == timers0 + [next]
    else
      set1 == set0 && timestamp1 == timestamp0 && timers1 == timers0
  }

  /** The statistics after one drain of `loops` hits that ended at `now`. */
  function AfterDrain(prev: Stats, loops: nat, failed: bool, now: int): (s: Stats)
    ensures s.counterEnqueues == prev.counterEnqueues
    ensures s.counterWakeUps == prev.counterWakeUps + 1
    ensures s.counterLoops == prev.counterLoops + loops
    ensures s.counterErrors == if failed then prev.counterErrors + 1 else prev.counterErrors
    ensures s.lastHit == now
  {
    prev.(counterWakeUps := prev.counterWakeUps + 1,
          counterLoops := prev.counterLoops + loops,
          lastHit := now,
          counterErrors := if failed then prev.counterErrors + 1 else prev.counterErrors)
  }

  /** The entries a wake-up round at `now` drains: those due at or before `now`. */
  function Due(queued: map<string, int>, now: int): (due: set<string>)
    ensures forall url :: url in due <==> url in queued && queued[url] <= now
  {
    set url | url in queued && queued[url] <= now
  }

  /** The statistics after `url` is drained by one Loop over `script`, ending at `now`. */
  ghost function OneDrain(stats: map<string, Stats>, url: string, script: seq<MockedHit>,
                          errorsBeforeQuitting: nat, maxHitsPerLoop: nat, now: int): map<string, Stats>
  {
    var n := Runner.LoopLength(script, errorsBeforeQuitting, maxHitsPerLoop);
    stats[url := AfterDrain(LoadStats(stats, url), n, OutcomeAt(script, n - 1).err.Some?, now)]
  }

  /** Every entry of `urls` in `queued` is covered by its lastHit in `stats`, so step4Hit skips it. */
  ghost predicate AllSkipped(urls: set<string>, queued: map<string, int>, stats: map<string, Stats>)
  {
    forall url :: url in urls && url in queued ==> LoadStats(stats, url).lastHit >= queued[url]
  }

  /** `url` and its statistics are the same in both maps. */
  ghost predicate SameStats(before: map<string, Stats>, after: map<string, Stats>, url: string)
  {
    (url in before <==> url in after) && (url in before ==> before[url] == after[url])
  }

  /**
   * What step4Hit does to the statistics of `url` for the entry due at
   * `timestamp`: nothing when an earlier drain already ran at or after that
   * time, else one more wake-up, at least one more hit, at most one more
   * error, and `lastHit` set to `now`.
   */
  ghost predicate Drained(before: map<string, Stats>, after: map<string, Stats>, url: string, timestamp: int, now: int)
  {
    var prev := LoadStats(before, url);
    if prev.lastHit >= timestamp then SameStats(before, after, url)
    else
      && url in after
      && after[url].counterEnqueues == prev.counterEnqueues
      && after[url].counterWakeUps == prev.counterWakeUps + 1
      && after[url].counterLoops > prev.counterLoops
      && prev.counterErrors <= after[url].counterErrors <= prev.counterErrors + 1
      && after[url].lastHit == now
  }

  /** A drain followed by changes that leave `url` alone is still that drain. */
  lemma DrainedThenSame(a: map<string, Stats>, b: map<string, Stats>, c: map<string, Stats>, url: string, timestamp: int, now: int)
    requires Drained(a, b, url, timestamp, now) && SameStats(b, c, url)
    ensures Drained(a, c, url, timestamp, now)
  {
  }

  /** Changes that leave `url` alone, followed by a drain, are that drain. */
  lemma SameThenDrained(a: map<string, Stats>, b: map<string, Stats>, c: map<string, Stats>, url: string, timestamp: int, now: int)
    requires SameStats(a, b, url) && Drained(b, c, url, timestamp, now)
    ensures Drained(a, c, url, timestamp, now)
  {
    assert LoadStats(a, url) == LoadStats(b, url);
  }

  /**
   * One step of a wake-up round: `done` were drained from `a` to `b` and
   * nothing else changed; `url` is then drained from `b` to `c` and nothing
   * else changes. So `done` and `url` are drained from `a` to `c`.
   */
  lemma DrainStep(a: map<string, Stats>, b: map<string, Stats>, c: map<string, Stats>,
                  done: set<string>, queued: map<string, int>, url: string, now: int)
    requires url in queued && url !in done
    requires forall other :: other in done ==> other in queued && Drained(a, b, other, queued[other], now)
    requires forall other :: other !in done ==> SameStats(a, b, other)
    requires forall other :: other != url ==> SameStats(b, c, other)
    requires Drained(b, c, url, queued[url], now)
    ensures forall other :: other in done + {url} ==> Drained(a, c, other, queued[other], now)
    ensures forall other :: other !in done + {url} ==> SameStats(a, c, other)
  {
    forall other | other in done
      ensures Drained(a, c, other, queued[other], now)
    {
      DrainedThenSame(a, b, c, other, queued[other], now);
    }
    SameThenDrained(a, b, c, url, queued[url], now);
    forall other | other !in done + {url}
      ensures SameStats(a, c, other)
    {
      assert SameStats(a, b, other) && SameStats(b, c, other);
    }
  }

  // ---------------------------------------------------------------------------
  // The front door's status decisions

  const StatusOK: int := 200
  const StatusAccepted: int := 202
  const StatusBadRequest: int := 400
  const StatusForbidden: int := 403
  const StatusNotFound: int := 404

  /** url.Values.Get: the empty string when the parameter is absent. */
  function QueryGet(query: map<string, string>, key: string): (value: string)
  {
    if key in query then query[key] else ""
  }

  /** A status code and, when the request is accepted, the enqueue it asks for (target, delay). */
  datatype Reply = Reply(code: int, enqueue: Option<(string, int)>)

  /**
   * serveQueue: 400 without a target or a hash, 403 when the hash is not the
   * keyed MD5 of the target, otherwise 202 and an enqueue of the target with
   * the `delay` parameter as ParseInt reads it (its error ignored).
   */
  function QueueReply(query: map<string, string>, secret: string, md5: (string, string) -> string): (r: Reply)
    ensures var target, hash := QueryGet(query, "target"), QueryGet(query, "hash");
      && (r.code == StatusBadRequest <==> target == "" || hash == "")
      && (r.code == StatusForbidden <==> target != "" && hash != "" && hash != md5(target, secret))
      && (r.code == StatusAccepted <==> target != "" && hash != "" && hash == md5(target, secret))
      && (r.enqueue.Some? <==> r.code == StatusAccepted)
      && (r.enqueue.Some? ==> r.enqueue.value == (target, ParseInt(QueryGet(query, "delay")).value))
  {
    var hash := QueryGet(query, "hash");
    var target := QueryGet(query, "target");
    var delayValue := QueryGet(query, "delay");
    if |target| == 0 || |hash| == 0 then Reply(StatusBadRequest, None)
    else if md5(target, secret) != hash then Reply(StatusForbidden, None)
    else Reply(StatusAccepted, Some((target, ParseInt(delayValue).value)))
  }

  /**
   * serve: /queue is decided by QueueReply; /favicon.ico, /queued and /stats
   * answer 200 with a body; every other path is 404.
   */
  function ServeReply(path: string, query: map<string, string>, secret: string, md5: (string, string) -> string): (r: Reply)
    ensures r.code == StatusNotFound <==> path !in {"/favicon.ico", "/queue", "/queued", "/stats"}
    ensures path == "/queue" ==> r == QueueReply(query, secret, md5)
    ensures path != "/queue" ==> r.enqueue.None?
  {
    match path
    case "/favicon.ico" => Reply(StatusOK, None)
    case "/queue" => QueueReply(query, secret, md5)
    case "/queued" => Reply(StatusOK, None)
    case "/stats" => Reply(StatusOK, None)
    case _ => Reply(StatusNotFound, None)
  }

  /** A status decision never both rejects a request and enqueues it. */
  lemma RejectedRequestsEnqueueNothing(path: string, query: map<string, string>, secret: string, md5: (string, string) -> string)
    ensures var r := ServeReply(path, query, secret, md5);
      r.enqueue.Some? ==> r.code == StatusAccepted && path == "/queue" && QueryGet(query, "hash") == md5(r.enqueue.value.0, secret)
  {
  }

  // ---------------------------------------------------------------------------
  // The daemon

  class Daemon {
    const runner: MockedRunner
    var secret: string

    /** url -> due Unix second. */
    var queued: map<string, int>
    var stats: map<string, Stats>

    var timerCounterSet: nat
    var timerCounterTrigger: nat
    var timerCounterRun: nat
    var timerTimestampSet: int
    var timerTimestampRun: int

    var wakeUpCounterStart: nat
    var wakeUpCounterFinish: nat

    /** The `next` of every armed timer whose goroutine has not fired yet. */
    var timers: seq<int>

    /** Every armed timer is either fired or pending, and every wake-up round ran to its end. */
    ghost predicate Valid()
      reads this
    {
      && timerCounterTrigger + |timers| == timerCounterSet
      && wakeUpCounterStart == wakeUpCounterFinish == timerCounterRun
    }

    /** init: no entries, no statistics, no timer; timerTimestampSet starts at MaxInt64. */
    constructor (runner: MockedRunner)
      ensures Valid()
      ensures this.runner == runner && secret == ""
      ensures queued == map[] && stats == map[] && timers == []
      ensures timerCounterSet == 0 && timerCounterTrigger == 0 && timerCounterRun == 0
      ensures timerTimestampSet == MaxInt64 && timerTimestampRun == 0
      ensures wakeUpCounterStart == 0 && wakeUpCounterFinish == 0
    {
      this.runner := runner;
      secret := "";
      queued, stats, timers := map[], map[], [];
      timerCounterSet, timerCounterTrigger, timerCounterRun := 0, 0, 0;
      timerTimestampSet, timerTimestampRun := MaxInt64, 0;
      wakeUpCounterStart, wakeUpCounterFinish := 0, 0;
    }

    method SetSecret(secret: string)
      modifies this`secret
      ensures this.secret == secret
    {
      this.secret := secret;
    }

    /**
     * step1Enqueue: due at now + the clamped delay. An existing entry that is
     * still in the future and no later than that wins, and nothing changes.
     * Otherwise the entry is stored (replacing any other), the target's
     * enqueue counter goes up by one, and the timers are rescheduled.
     */
    method Step1Enqueue(url: string, delay: int, now: int)
      requires Valid()
      modifies this`queued, this`stats, this`timers, this`timerCounterSet, this`timerTimestampSet
      ensures Valid()
      ensures var timestamp := now + Clamp(delay);
        var existing := if url in old(queued) then old(queued)[url] else 0;
        if now < existing <= timestamp then
          && queued == old(queued) && stats == old(stats) && timers == old(timers)
          && timerCounterSet == old(timerCounterSet) && timerTimestampSet == old(timerTimestampSet)
        else
          && queued == Unexpired(old(queued)[url := timestamp], now - DelayMax)
          && stats == old(stats)[url := LoadStats(old(stats), url).(counterEnqueues := LoadStats(old(stats), url).counterEnqueues + 1)]
          && Rescheduled(queued, now, timerCounterTrigger,
                         old(timerCounterSet), old(timerTimestampSet), old(timers),
                         timerCounterSet, timerTimestampSet, timers)
    {
      var d := delay;
      if d < DelayMin {
        d := DelayMin;
      }
      if d > DelayMax {
        d := DelayMax;
      }
      var timestamp := now + d;

      var existing := 0;
      if url in queued {
        existing := queued[url];
      }

      if now < existing && existing <= timestamp {
        return;
      }

      queued := queued[url := timestamp];

      var s := LoadStats(stats, url);
      s := s.(counterEnqueues := s.counterEnqueues + 1);
      stats := stats[url := s];

      Step2Schedule(now);
    }

    /**
     * step2Schedule: deletes every entry due at or before now - DelayMax,
     * keeps the others, and arms a timer for the earliest remaining one
     * when no other timer is outstanding or that entry is already due.
     */
    method Step2Schedule(now: int)
      requires Valid()
      modifies this`queued, this`timers, this`timerCounterSet, this`timerTimestampSet
      ensures Valid()
      ensures queued == Unexpired(old(queued), now - DelayMax)
      ensures Rescheduled(queued, now, timerCounterTrigger,
                          old(timerCounterSet), old(timerTimestampSet), old(timers),
                          timerCounterSet, timerTimestampSet, timers)
    {
      var initialNext := MaxInt64;
      var next := initialNext;
      var cutOff := now - DelayMax;

      var keys := queued.Keys;
      ghost var seen: set<string> := {};
      while keys != {}
        invariant keys !! seen && keys + seen == old(queued).Keys
        invariant forall url :: url in queued <==> url in old(queued) && (url in keys || old(queued)[url] > cutOff)
        invariant forall url :: url in queued ==> queued[url] == old(queued)[url]
        invariant timers == old(timers)
        invariant timerCounterSet == old(timerCounterSet) && timerTimestampSet == old(timerTimestampSet)
        invariant next <= MaxInt64
        invariant forall url :: url in seen && url in queued ==> next <= queued[url]
        invariant next == MaxInt64 || exists url :: url in seen && url in queued && queued[url] == next
        decreases keys
      {
        var url :| url in keys;
        var timestamp := queued[url];
        if timestamp > cutOff {
          if timestamp < next {
            next := timestamp;
          }
        } else {
          queued := queued - {url};
        }
        keys := keys - {url};
        seen := seen + {url};
      }
      assert queued == Unexpired(old(queued), cutOff);
      EarliestUnique(queued, next, Earliest(queued));

      if next < initialNext {
        var timerOthersRunning := timerCounterTrigger < timerCounterSet;
        if !timerOthersRunning || next <= now {
          timerCounterSet := timerCounterSet + 1;
          timerTimestampSet := now;
          // the goroutine that waits until `next`, then fires (see TimerFire)
          timers := timers + [next];
        }
      }
    }

    /**
     * The timer goroutine's body once its wait is over: the trigger counter
     * goes up and the wake-up round runs. `i` picks the pending timer that
     * fires; it has waited until its `next`.
     */
    method TimerFire(i: nat, now: int)
      requires Valid()
      requires i < |timers| && timers[i] <= now
      modifies this, runner`hits
      ensures Valid()
      ensures timerCounterTrigger == old(timerCounterTrigger) + 1
      ensures secret == old(secret)
      ensures wakeUpCounterStart == old(wakeUpCounterStart) + 1 && wakeUpCounterFinish == old(wakeUpCounterFinish) + 1
      ensures timerCounterRun == old(timerCounterRun) + 1 && timerTimestampRun == now
      ensures forall url :: url in old(queued) && old(queued)[url] <= now ==>
        Drained(old(stats), stats, url, old(queued)[url], now)
      ensures forall url :: !(url in old(queued) && old(queued)[url] <= now) ==> SameStats(old(stats), stats, url)
      // a round with a single due entry drains it with exactly one loop over the script
      ensures forall url :: Due(old(queued), now) == {url} && LoadStats(old(stats), url).lastHit < old(queued)[url] ==>
        stats == OneDrain(old(stats), url, old(runner.hits), runner.errorsBeforeQuitting, runner.maxHitsPerLoop, now)
      // the script: untouched when every due entry is skipped, one loop's worth consumed for a single drain
      ensures AllSkipped(Due(old(queued), now), old(queued), old(stats)) ==> runner.hits == old(runner.hits)
      ensures forall url :: Due(old(queued), now) == {url} && LoadStats(old(stats), url).lastHit < old(queued)[url] ==>
        runner.hits == Remaining(old(runner.hits), Runner.LoopLength(old(runner.hits), runner.errorsBeforeQuitting, runner.maxHitsPerLoop))
      ensures queued == Unexpired(old(queued), now + CoolDown - DelayMax)
      ensures Rescheduled(queued, now + CoolDown, timerCounterTrigger,
                          old(timerCounterSet), old(timerTimestampSet), old(timers)[..i] + old(timers)[i + 1..],
                          timerCounterSet, timerTimestampSet, timers)
    {
      timers := timers[..i] + timers[i + 1..];
      timerCounterTrigger := timerCounterTrigger + 1;
      Step3WakeUp(now);
    }

    /**
     * step3WakeUp: drains every entry due at or before now (the entries stay
     * in the registry), counts the round, pauses for CoolDown and
     * reschedules.
     */
    method Step3WakeUp(now: int)
      requires Valid()
      modifies this`queued, this`stats, this`timers, this`timerCounterSet, this`timerTimestampSet
      modifies this`timerCounterRun, this`timerTimestampRun, this`wakeUpCounterStart, this`wakeUpCounterFinish
      modifies runner`hits
      ensures Valid()
      ensures wakeUpCounterStart == old(wakeUpCounterStart) + 1 && wakeUpCounterFinish == old(wakeUpCounterFinish) + 1
      ensures timerCounterRun == old(timerCounterRun) + 1 && timerTimestampRun == now
      ensures forall url :: url in old(queued) && old(queued)[url] <= now ==>
        Drained(old(stats), stats, url, old(queued)[url], now)
      ensures forall url :: !(url in old(queued) && old(queued)[url] <= now) ==> SameStats(old(stats), stats, url)
      // a round with a single due entry drains it with exactly one loop over the script
      ensures forall url :: Due(old(queued), now) == {url} && LoadStats(old(stats), url).lastHit < old(queued)[url] ==>
        stats == OneDrain(old(stats), url, old(runner.hits), runner.errorsBeforeQuitting, runner.maxHitsPerLoop, now)
      // the script: untouched when every due entry is skipped, one loop's worth consumed for a single drain
      ensures AllSkipped(Due(old(queued), now), old(queued), old(stats)) ==> runner.hits == old(runner.hits)
      ensures forall url :: Due(old(queued), now) == {url} && LoadStats(old(stats), url).lastHit < old(queued)[url] ==>
        runner.hits == Remaining(old(runner.hits), Runner.LoopLength(old(runner.hits), runner.errorsBeforeQuitting, runner.maxHitsPerLoop))
      ensures queued == Unexpired(old(queued), now + CoolDown - DelayMax)
      ensures Rescheduled(queued, now + CoolDown, timerCounterTrigger,
                          old(timerCounterSet), old(timerTimestampSet), old(timers),
                          timerCounterSet, timerTimestampSet, timers)
    {
      wakeUpCounterStart := wakeUpCounterStart + 1;

      HitDue(now);

      timerCounterRun := timerCounterRun + 1;
      timerTimestampRun := now;
      wakeUpCounterFinish := wakeUpCounterFinish + 1;

      // time.Sleep(coolDown): the schedule reads the clock after the pause
      Step2Schedule(now + CoolDown);
    }

    /**
     * The body of step3WakeUp's range over the registry: one step4Hit for
     * every entry due at or before now (the source runs them concurrently
     * and waits for all of them; here they run one after another).
     */
    method HitDue(now: int)
      modifies this`stats, runner`hits
      ensures forall url :: url in queued && queued[url] <= now ==> Drained(old(stats), stats, url, queued[url], now)
      ensures forall url :: !(url in queued && queued[url] <= now) ==> SameStats(old(stats), stats, url)
      ensures forall url :: Due(queued, now) == {url} && LoadStats(old(stats), url).lastHit < queued[url] ==>
        stats == OneDrain(old(stats), url, old(runner.hits), runner.errorsBeforeQuitting, runner.maxHitsPerLoop, now)
      // the script: untouched when every due entry is skipped, one loop's worth consumed for a single drain
      ensures AllSkipped(Due(queued, now), queued, old(stats)) ==> runner.hits == old(runner.hits)
      ensures forall url :: Due(queued, now) == {url} && LoadStats(old(stats), url).lastHit < queued[url] ==>
        runner.hits == Remaining(old(runner.hits), Runner.LoopLength(old(runner.hits), runner.errorsBeforeQuitting, runner.maxHitsPerLoop))
    {
      var due := Due(queued, now);
      var pending := due;
      ghost var last: string := "";
      while pending != {}
        invariant pending <= due
        invariant forall url :: url in due - pending ==> Drained(old(stats), stats, url, queued[url], now)
        invariant forall url :: url !in due - pending ==> SameStats(old(stats), stats, url)
        invariant pending == due ==> stats == old(stats) && runner.hits == old(runner.hits)
        invariant AllSkipped(due - pending, queued, old(stats)) ==> runner.hits == old(runner.hits)
        // `last` is the entry drained most recently: the only one when a single entry is due
        invariant pending != due ==> last in due
        invariant due == {last} && pending == {} && LoadStats(old(stats), last).lastHit < queued[last] ==>
          && stats == OneDrain(old(stats), last, old(runner.hits), runner.errorsBeforeQuitting, runner.maxHitsPerLoop, now)
          && runner.hits == Remaining(old(runner.hits), Runner.LoopLength(old(runner.hits), runner.errorsBeforeQuitting, runner.maxHitsPerLoop))
        decreases pending
      {
        var url :| url in pending;
        ghost var before := stats;
        assert SameStats(old(stats), before, url);
        assert LoadStats(before, url) == LoadStats(old(stats), url);
        if due == {url} {
          assert pending == due;
        }
        Step4Hit(url, queued[url], now);
        DrainStep(old(stats), before, stats, due - pending, queued, url, now);
        assert due - (pending - {url}) == (due - pending) + {url};
        last := url;
        pending := pending - {url};
      }
    }

    /**
     * step4Hit: skipped when the target's lastHit is at or after the entry's
     * due time; otherwise one Loop over the runner, whose hit count, error
     * and end time are recorded. Only `url`'s statistics change.
     */
    method Step4Hit(url: string, timestamp: int, now: int)
      modifies this`stats, runner`hits
      ensures var prev := LoadStats(old(stats), url);
        var script := old(runner.hits);
        var n := Runner.LoopLength(script, runner.errorsBeforeQuitting, runner.maxHitsPerLoop);
        if prev.lastHit >= timestamp then stats == old(stats) && runner.hits == script
        else
          && stats == old(stats)[url := AfterDrain(prev, n, OutcomeAt(script, n - 1).err.Some?, now)]
          && runner.hits == Remaining(script, n)
      ensures Drained(old(stats), stats, url, timestamp, now)
      ensures forall other :: other != url ==> SameStats(old(stats), stats, other)
    {
      var prevStats := LoadStats(stats, url);
      var prev := prevStats.lastHit - timestamp;
      if prev >= 0 {
        return;
      }

      var hits, err := Runner.Loop(runner, url, now, 0);
      var loops := |hits.list|;

      var s := LoadStats(stats, url);
      s := s.(counterWakeUps := s.counterWakeUps + 1);
      s := s.(counterLoops := s.counterLoops + loops);
      s := s.(lastHit := now);
      if err.Some? {
        s := s.(counterErrors := s.counterErrors + 1);
      }
      stats := stats[url := s];
    }

    /**
     * serve, with the front door's URL already split into path and query;
     * an accepted /queue request enqueues its target. `md5` stands for the
     * keyed hash internal.GetMD5.
     */
    method Serve(path: string, query: map<string, string>, md5: (string, string) -> string, now: int) returns (code: int)
      requires Valid()
      modifies this`queued, this`stats, this`timers, this`timerCounterSet, this`timerTimestampSet
      ensures Valid()
      ensures code == ServeReply(path, query, secret, md5).code
      ensures ServeReply(path, query, secret, md5).enqueue.None? ==>
        && queued == old(queued) && stats == old(stats) && timers == old(timers)
        && timerCounterSet == old(timerCounterSet) && timerTimestampSet == old(timerTimestampSet)
      // an accepted /queue request is step1Enqueue of its target with ParseInt's delay
      ensures var r := ServeReply(path, query, secret, md5);
        r.enqueue.Some? ==>
          var url, timestamp := r.enqueue.value.0, now + Clamp(r.enqueue.value.1);
          var existing := if url in old(queued) then old(queued)[url] else 0;
          if now < existing <= timestamp then
            && queued == old(queued) && stats == old(stats) && timers == old(timers)
            && timerCounterSet == old(timerCounterSet) && timerTimestampSet == old(timerTimestampSet)
          else
            && queued == Unexpired(old(queued)[url := timestamp], now - DelayMax)
            && stats == old(stats)[url := LoadStats(old(stats), url).(counterEnqueues := LoadStats(old(stats), url).counterEnqueues + 1)]
            && Rescheduled(queued, now, timerCounterTrigger,
                           old(timerCounterSet), old(timerTimestampSet), old(timers),
                           timerCounterSet, timerTimestampSet, timers)
    {
      var r := ServeReply(path, query, secret, md5);
      if r.enqueue.Some? {
        Step1Enqueue(r.enqueue.value.0, r.enqueue.value.1, now);
      }
      code := r.code;
    }
  }
}
