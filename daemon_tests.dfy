/**
 * Scenarios over the Daemon model, after pkg/daemon/daemon_test.go: an
 * enqueue, the timer it arms, the drain it causes, and what the registry and
 * the timers look like afterwards.
 */
module DaemonTests {
  import opened Wrappers
  import opened Strconv
  import opened Mock
  import opened Daemon
  import Runner

  const Done: MockedHit := MockedHit(0, 0, None, false, false)
  const MoreDeferred: MockedHit := MockedHit(0, 0, None, false, true)

  /** The earliest entry of a one-entry registry is that entry. */
  lemma EarliestOfOne(url: string, timestamp: int)
    requires timestamp <= MaxInt64
    ensures Earliest(map[url := timestamp]) == timestamp
  {
    assert map[url := timestamp][url] == timestamp;
    EarliestUnique(map[url := timestamp], Earliest(map[url := timestamp]), timestamp);
  }

  /** The clock reading at which each scenario starts. */
  const T: int := 1_500_000_000

  /**
   * A fresh daemon over a runner scripted with `script` (no error budget, no
   * ceiling), after one enqueue of `url` with the minimum delay at T.
   */
  method EnqueuedOnce(script: seq<MockedHit>, url: string) returns (m: MockedRunner, d: Daemon)
    ensures fresh(m) && fresh(d) && d.runner == m && d.Valid()
    ensures m.hits == script && m.errorsBeforeQuitting == 0 && m.maxHitsPerLoop == 0
    ensures d.queued == map[url := T + 1] && d.stats == map[url := Stats(1, 0, 0, 0, 0)]
    ensures d.timers == [T + 1] && d.timerCounterSet == 1 && d.timerCounterTrigger == 0
  {
    m := new MockedRunner.NewMocked(script, 0);
    d := new Daemon(m);
    d.Step1Enqueue(url, DelayMin, T);
    EarliestOfOne(url, T + 1);
    assert d.queued == map[url := T + 1];
  }

  /** TestOne's first round: the entry is drained once by the timer it armed. */
  method OneFirstRound() returns (m: MockedRunner, d: Daemon)
    ensures fresh(m) && fresh(d) && d.runner == m && d.Valid()
    ensures m.hits == []
    ensures d.queued == map["one" := T + 1]
    ensures d.stats == map["one" := Stats(1, 0, 1, 1, T + 1)]
    ensures d.timers == [T + 1] && d.timerCounterSet == 2
  {
    m, d := EnqueuedOnce([Done], "one");
    assert Due(map["one" := T + 1], T + 1) == {"one"};
    assert Runner.Walk([Done], 0, 0, 0, 0) == 1;
    d.TimerFire(0, T + 1);
    // the drained entry stays in the registry and, being due, re-arms a timer
    assert d.queued == map["one" := T + 1];
  }

  /**
   * TestOne: one enqueue, one loop, one wake-up. A later round skips the
   * entry, because its lastHit already covers its due time, and leaves the
   * script alone.
   */
  method TestOne() {
    var m, d := OneFirstRound();
    assert d.stats["one"].counterEnqueues == 1;
    assert d.stats["one"].counterLoops == 1;
    assert d.stats["one"].counterWakeUps == 1;

    assert Due(map["one" := T + 1], T + 2) == {"one"};
    d.TimerFire(0, T + 2);
    assert d.stats["one"].counterWakeUps == 1;
    assert m.hits == [];
  }

  /** TestLoop: a response with more deferred work is followed by a second hit in the same loop. */
  method TestLoop() {
    var m, d := EnqueuedOnce([MoreDeferred, Done], "loop");
    assert Due(map["loop" := T + 1], T + 1) == {"loop"};
    assert Runner.Walk([MoreDeferred, Done], 0, 0, 1, 0) == 2;
    d.TimerFire(0, T + 1);
    assert d.stats["loop"].counterEnqueues == 1;
    assert d.stats["loop"].counterLoops == 2;
    assert d.stats["loop"].counterWakeUps == 1;
    assert d.stats["loop"].counterErrors == 0;
  }

  const AfterHitUrl: string := "enqueue-after-hit"

  /** TestEnqueueAfterHit's first round: an enqueue, then the drain its timer causes. */
  method EnqueueAfterHitFirstRound() returns (m: MockedRunner, d: Daemon)
    ensures fresh(m) && fresh(d) && d.runner == m && d.Valid()
    ensures m.hits == [Done] && m.errorsBeforeQuitting == 0 && m.maxHitsPerLoop == 0
    ensures d.queued == map[AfterHitUrl := T + 1]
    ensures d.stats == map[AfterHitUrl := Stats(1, 0, 1, 1, T + 1)]
    ensures d.timers == [T + 1] && d.timerCounterSet == 2 && d.timerCounterTrigger == 1
  {
    m, d := EnqueuedOnce([Done, Done], AfterHitUrl);
    assert Due(map[AfterHitUrl := T + 1], T + 1) == {AfterHitUrl};
    assert Runner.Walk([Done, Done], 0, 0, 0, 0) == 1;
    d.TimerFire(0, T + 1);
    assert m.hits == [Done];
  }

  /**
   * TestEnqueueAfterHit: after the first drain, enqueuing the same target
   * again leads to a second round that drains it with the rest of the script.
   */
  method TestEnqueueAfterHit() {
    var m, d := EnqueueAfterHitFirstRound();

    // the second enqueue moves the entry to T + 3; the timer armed after the first round is still pending
    d.Step1Enqueue(AfterHitUrl, 1, T + 2);
    EarliestOfOne(AfterHitUrl, T + 3);
    assert d.queued == map[AfterHitUrl := T + 3];
    assert d.timers == [T + 1];

    assert Due(map[AfterHitUrl := T + 3], T + 3) == {AfterHitUrl};
    assert Runner.Walk([Done], 0, 0, 0, 0) == 1;
    d.TimerFire(0, T + 3);
    assert d.stats[AfterHitUrl].counterEnqueues == 2;
    assert d.stats[AfterHitUrl].counterLoops == 2;
    assert d.stats[AfterHitUrl].counterWakeUps == 2;
    assert m.hits == [];
  }

  /** An enqueue with a later due time than a pending entry changes nothing. */
  method TestEarliestWins() {
    var m := new MockedRunner.NewMocked([], 0);
    var d := new Daemon(m);
    var t := 1_500_000_000;

    d.Step1Enqueue("x", 3, t);
    EarliestOfOne("x", t + 3);
    d.Step1Enqueue("x", 5, t + 1);
    assert d.queued == map["x" := t + 3];
    assert d.stats["x"].counterEnqueues == 1;
    assert d.timers == [t + 3] && d.timerCounterSet == 1;
  }

  /**
   * An outstanding timer blocks a new one: an entry due sooner than the
   * pending timer is not given its own timer and waits for that one.
   */
  method TestOutstandingTimerIsKept() {
    var m := new MockedRunner.NewMocked([], 0);
    var d := new Daemon(m);
    var t := 1_500_000_000;

    d.Step1Enqueue("a", DelayMax, t);
    EarliestOfOne("a", t + DelayMax);
    d.Step1Enqueue("b", DelayMin, t);
    ghost var q := map["a" := t + DelayMax, "b" := t + DelayMin];
    assert d.queued == q;
    assert q["b"] == t + DelayMin;
    EarliestUnique(q, Earliest(q), t + DelayMin);
    assert d.timers == [t + DelayMax] && d.timerCounterSet == 1;
  }
}
