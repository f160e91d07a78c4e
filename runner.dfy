/**
 * The hit-loop runner of pkg/runner/runner.go: Loop, the configuration that
 * `init` reads from the environment, and the enqueue-header decision of Hit.
 * Loop drives a scripted runner (Mock.MockedRunner); its specification is the
 * recursive function Walk, and LoopStopsAtFirstStop ties Walk to a direct
 * description of when the loop stops.
 */
module Runner {
  import opened Wrappers
  import opened Strconv
  import opened RunnerDef
  import opened Mock

  // ---------------------------------------------------------------------------
  // The loop, as a function of the script

  /**
   * The number of hits Loop makes when `i` hits are done and the last
   * `count` of them failed in a row: a failure past the error budget stops
   * the loop, a success that reports no more work stops it, and so does
   * reaching a positive hit ceiling.
   */
  function Walk(script: seq<MockedHit>, errorsBeforeQuitting: nat, maxHitsPerLoop: nat, i: nat, count: nat): (n: nat)
    requires count <= errorsBeforeQuitting
    ensures n > i
    decreases |script| - (if i < |script| then i else |script|), errorsBeforeQuitting - count
  {
    var o := OutcomeAt(script, i);
    if o.err.Some? && count + 1 > errorsBeforeQuitting then i + 1
    else if o.err.None? && Finished(o.hit) then i + 1
    else if maxHitsPerLoop > 0 && i + 1 == maxHitsPerLoop then i + 1
    else Walk(script, errorsBeforeQuitting, maxHitsPerLoop, i + 1, if o.err.Some? then count + 1 else 0)
  }

  /** The number of hits one Loop makes over `script`. */
  function LoopLength(script: seq<MockedHit>, errorsBeforeQuitting: nat, maxHitsPerLoop: nat): (n: nat)
    ensures n >= 1
  {
    Walk(script, errorsBeforeQuitting, maxHitsPerLoop, 0, 0)
  }

  // ---------------------------------------------------------------------------
  // When the loop stops, stated directly on the outcomes

  /** The outcomes of the first n Hit calls. */
  function Outcomes(script: seq<MockedHit>, n: nat): (outs: seq<Outcome>)
    ensures |outs| == n
  {
    seq(n, i requires 0 <= i < n => OutcomeAt(script, i))
  }

  /** How many outcomes at the end of `outs` are failures in a row. */
  function TrailingErrors(outs: seq<Outcome>): (t: nat)
    ensures t <= |outs|
  {
    if outs == [] || outs[|outs| - 1].err.None? then 0
    else 1 + TrailingErrors(outs[..|outs| - 1])
  }

  /** After the hits `outs`, Loop does not hit again. */
  predicate StopsAfter(outs: seq<Outcome>, errorsBeforeQuitting: nat, maxHitsPerLoop: nat)
    requires outs != []
  {
    var last := outs[|outs| - 1];
    || (last.err.Some? && TrailingErrors(outs) > errorsBeforeQuitting)
    || (last.err.None? && Finished(last.hit))
    || (maxHitsPerLoop > 0 && |outs| == maxHitsPerLoop)
  }

  lemma OutcomesSnoc(script: seq<MockedHit>, i: nat)
    ensures Outcomes(script, i + 1) == Outcomes(script, i) + [OutcomeAt(script, i)]
    ensures Outcomes(script, i + 1)[..i] == Outcomes(script, i)
  {
    assert Outcomes(script, i + 1)[..i] == Outcomes(script, i);
  }

  lemma {:induction false} WalkStopsAtFirstStop(script: seq<MockedHit>, errorsBeforeQuitting: nat, maxHitsPerLoop: nat, i: nat, count: nat)
    requires count <= errorsBeforeQuitting
    requires count == TrailingErrors(Outcomes(script, i))
    requires forall j :: 1 <= j <= i ==> !StopsAfter(Outcomes(script, j), errorsBeforeQuitting, maxHitsPerLoop)
    ensures var n := Walk(script, errorsBeforeQuitting, maxHitsPerLoop, i, count);
      && StopsAfter(Outcomes(script, n), errorsBeforeQuitting, maxHitsPerLoop)
      && forall j :: 1 <= j < n ==> !StopsAfter(Outcomes(script, j), errorsBeforeQuitting, maxHitsPerLoop)
    decreases |script| - (if i < |script| then i else |script|), errorsBeforeQuitting - count
  {
    var o := OutcomeAt(script, i);
    OutcomesSnoc(script, i);
    var outs := Outcomes(script, i + 1);
    var count' := if o.err.Some? then count + 1 else 0;
    assert TrailingErrors(outs) == count';
    var stop := StopsAfter(outs, errorsBeforeQuitting, maxHitsPerLoop);
    if !stop {
      WalkStopsAtFirstStop(script, errorsBeforeQuitting, maxHitsPerLoop, i + 1, count');
    }
  }

  /**
   * Loop makes exactly as many hits as it takes to reach the first point at
   * which it stops: the (k+1)-th failure in a row, a success with neither
   * "more" flag, or the hit ceiling.
   */
  lemma LoopStopsAtFirstStop(script: seq<MockedHit>, errorsBeforeQuitting: nat, maxHitsPerLoop: nat)
    ensures var n := LoopLength(script, errorsBeforeQuitting, maxHitsPerLoop);
      && n >= 1
      && StopsAfter(Outcomes(script, n), errorsBeforeQuitting, maxHitsPerLoop)
      && forall j :: 1 <= j < n ==> !StopsAfter(Outcomes(script, j), errorsBeforeQuitting, maxHitsPerLoop)
  {
    WalkStopsAtFirstStop(script, errorsBeforeQuitting, maxHitsPerLoop, 0, 0);
  }

  /** Over a finite script Loop ends within |script| + k + 1 hits, and never passes a positive ceiling. */
  lemma {:induction false} WalkBounded(script: seq<MockedHit>, errorsBeforeQuitting: nat, maxHitsPerLoop: nat, i: nat, count: nat)
    requires count <= errorsBeforeQuitting
    requires maxHitsPerLoop > 0 ==> i < maxHitsPerLoop
    ensures var n := Walk(script, errorsBeforeQuitting, maxHitsPerLoop, i, count);
      && n <= (if i < |script| then |script| + errorsBeforeQuitting + 1 else i + errorsBeforeQuitting + 1 - count)
      && (maxHitsPerLoop > 0 ==> n <= maxHitsPerLoop)
    decreases |script| - (if i < |script| then i else |script|), errorsBeforeQuitting - count
  {
    var o := OutcomeAt(script, i);
    if o.err.Some? && count + 1 > errorsBeforeQuitting {
    } else if o.err.None? && Finished(o.hit) {
    } else if maxHitsPerLoop > 0 && i + 1 == maxHitsPerLoop {
    } else {
      WalkBounded(script, errorsBeforeQuitting, maxHitsPerLoop, i + 1, if o.err.Some? then count + 1 else 0);
    }
  }

  lemma LoopBounded(script: seq<MockedHit>, errorsBeforeQuitting: nat, maxHitsPerLoop: nat)
    ensures LoopLength(script, errorsBeforeQuitting, maxHitsPerLoop) <= |script| + errorsBeforeQuitting + 1
    ensures maxHitsPerLoop > 0 ==> LoopLength(script, errorsBeforeQuitting, maxHitsPerLoop) <= maxHitsPerLoop
  {
    WalkBounded(script, errorsBeforeQuitting, maxHitsPerLoop, 0, 0);
  }

  lemma {:induction false} TrailingErrorsOfFailures(script: seq<MockedHit>, j: nat)
    requires forall i :: 0 <= i < j ==> OutcomeAt(script, i).err.Some?
    ensures TrailingErrors(Outcomes(script, j)) == j
  {
    if j > 0 {
      OutcomesSnoc(script, j - 1);
      TrailingErrorsOfFailures(script, j - 1);
    }
  }

  lemma {:induction false} TrailingErrorsAreFailures(outs: seq<Outcome>, k: nat)
    requires k < TrailingErrors(outs)
    ensures outs[|outs| - 1 - k].err.Some?
    decreases |outs|
  {
    if k > 0 {
      TrailingErrorsAreFailures(outs[..|outs| - 1], k - 1);
    }
  }

  /**
   * With errorsBeforeQuitting = k, k + 1 failures in a row from the start end
   * the loop right after the (k+1)-th of them, unless a ceiling of at most k
   * hits ends it sooner.
   */
  lemma QuitsAfterErrorBudget(script: seq<MockedHit>, errorsBeforeQuitting: nat, maxHitsPerLoop: nat)
    requires forall i :: 0 <= i <= errorsBeforeQuitting ==> OutcomeAt(script, i).err.Some?
    requires maxHitsPerLoop == 0 || maxHitsPerLoop > errorsBeforeQuitting
    ensures LoopLength(script, errorsBeforeQuitting, maxHitsPerLoop) == errorsBeforeQuitting + 1
  {
    var n := LoopLength(script, errorsBeforeQuitting, maxHitsPerLoop);
    LoopStopsAtFirstStop(script, errorsBeforeQuitting, maxHitsPerLoop);
    TrailingErrorsOfFailures(script, errorsBeforeQuitting + 1);
    forall j | 1 <= j <= errorsBeforeQuitting
      ensures !StopsAfter(Outcomes(script, j), errorsBeforeQuitting, maxHitsPerLoop)
    {
      TrailingErrorsOfFailures(script, j);
    }
    assert StopsAfter(Outcomes(script, errorsBeforeQuitting + 1), errorsBeforeQuitting, maxHitsPerLoop);
  }

  /** m failures in a row ending at hit j + m - 1 leave at least m trailing failures. */
  lemma {:induction false} TrailingAtLeast(script: seq<MockedHit>, j: nat, m: nat)
    requires forall i :: j <= i < j + m ==> OutcomeAt(script, i).err.Some?
    ensures TrailingErrors(Outcomes(script, j + m)) >= m
  {
    if m > 0 {
      OutcomesSnoc(script, j + m - 1);
      TrailingAtLeast(script, j, m - 1);
    }
  }

  /**
   * With errorsBeforeQuitting = k, any k + 1 failures in a row, wherever they
   * start, end the loop no later than the (k+1)-th of them.
   */
  lemma QuitsWithinAnyErrorRun(script: seq<MockedHit>, errorsBeforeQuitting: nat, maxHitsPerLoop: nat, j: nat)
    requires forall i :: j <= i <= j + errorsBeforeQuitting ==> OutcomeAt(script, i).err.Some?
    ensures LoopLength(script, errorsBeforeQuitting, maxHitsPerLoop) <= j + errorsBeforeQuitting + 1
  {
    var end := j + errorsBeforeQuitting + 1;
    LoopStopsAtFirstStop(script, errorsBeforeQuitting, maxHitsPerLoop);
    TrailingAtLeast(script, j, errorsBeforeQuitting + 1);
    OutcomesSnoc(script, end - 1);
    assert StopsAfter(Outcomes(script, end), errorsBeforeQuitting, maxHitsPerLoop);
  }

  /**
   * A loop that returns an error either hit the ceiling or ended on k + 1
   * failures in a row: failures with a success between them never make it
   * quit.
   */
  lemma ErrorNeedsFailureRun(script: seq<MockedHit>, errorsBeforeQuitting: nat, maxHitsPerLoop: nat)
    ensures var n := LoopLength(script, errorsBeforeQuitting, maxHitsPerLoop);
      OutcomeAt(script, n - 1).err.Some? && !(maxHitsPerLoop > 0 && n == maxHitsPerLoop) ==>
        && n > errorsBeforeQuitting
        && forall i :: n - 1 - errorsBeforeQuitting <= i < n ==> OutcomeAt(script, i).err.Some?
  {
    var n := LoopLength(script, errorsBeforeQuitting, maxHitsPerLoop);
    LoopStopsAtFirstStop(script, errorsBeforeQuitting, maxHitsPerLoop);
    var outs := Outcomes(script, n);
    if OutcomeAt(script, n - 1).err.Some? && !(maxHitsPerLoop > 0 && n == maxHitsPerLoop) {
      assert TrailingErrors(outs) > errorsBeforeQuitting;
      forall i | n - 1 - errorsBeforeQuitting <= i < n
        ensures OutcomeAt(script, i).err.Some?
      {
        TrailingErrorsAreFailures(outs, n - 1 - i);
      }
    }
  }

  /** The loop never goes past the first success that reports no more work. */
  lemma EndsByFirstFinishedHit(script: seq<MockedHit>, errorsBeforeQuitting: nat, maxHitsPerLoop: nat, j: nat)
    requires OutcomeAt(script, j).err.None? && Finished(OutcomeAt(script, j).hit)
    ensures LoopLength(script, errorsBeforeQuitting, maxHitsPerLoop) <= j + 1
  {
    LoopStopsAtFirstStop(script, errorsBeforeQuitting, maxHitsPerLoop);
    assert StopsAfter(Outcomes(script, j + 1), errorsBeforeQuitting, maxHitsPerLoop);
  }

  // ---------------------------------------------------------------------------
  // Loop itself

  /**
   * Hits `url` through `m` until the target has no more work, the error
   * budget is spent or the ceiling is reached. Every hit is appended, failed
   * ones too; the error is that of the last hit. `now` is the clock at the
   * start and `elapsed` the time measured at the end.
   */
  method Loop(m: MockedRunner, url: string, now: int, elapsed: int) returns (hits: Hits, err: Option<string>)
    modifies m`hits
    ensures var script := old(m.hits);
      var n := LoopLength(script, m.errorsBeforeQuitting, m.maxHitsPerLoop);
      && |hits.list| == n
      && (forall i :: 0 <= i < n ==> hits.list[i] == OutcomeAt(script, i).hit)
      && err == OutcomeAt(script, n - 1).err
      && m.hits == Remaining(script, n)
    ensures hits.timeStart == now && hits.timeElapsed == elapsed
  {
    hits := Hits([], now, 0);
    var errorsBeforeQuitting := m.GetErrorsBeforeQuitting();
    var maxHitsPerLoop := m.GetMaxHitsPerLoop();
    var consecutiveErrorCount: nat := 0;
    var someError: Option<string> := None;
    ghost var script := m.hits;
    ghost var total := LoopLength(script, errorsBeforeQuitting, maxHitsPerLoop);

    while true
      invariant consecutiveErrorCount <= errorsBeforeQuitting
      invariant m.hits == Remaining(script, |hits.list|)
      invariant forall i :: 0 <= i < |hits.list| ==> hits.list[i] == OutcomeAt(script, i).hit
      invariant Walk(script, errorsBeforeQuitting, maxHitsPerLoop, |hits.list|, consecutiveErrorCount) == total
      invariant hits.timeStart == now
      decreases |m.hits|, errorsBeforeQuitting - consecutiveErrorCount
    {
      ghost var i := |hits.list|;
      var hit, e := m.Hit(url);
      hits := hits.(list := hits.list + [hit]);
      if e.Some? {
        someError := e;
        consecutiveErrorCount := consecutiveErrorCount + 1;
        if consecutiveErrorCount > errorsBeforeQuitting {
          break;
        }
      } else {
        consecutiveErrorCount := 0;
        someError := None;
      }

      var data := hit.data;
      if someError.None? && !data.moreDeferred && !data.more {
        break;
      }

      if maxHitsPerLoop > 0 && |hits.list| == maxHitsPerLoop {
        break;
      }
    }

    hits := hits.(timeElapsed := elapsed);
    if someError.Some? {
      return hits, someError;
    }
    return hits, None;
  }

  // ---------------------------------------------------------------------------
  // The enqueue header of a response (Hit, after the body is decoded)

  const EnqueueHeaderKey: string := "X-Go-Deferred-Enqueue"

  /** http.Header.Get: the empty string when the header is absent. */
  function HeaderGet(header: map<string, string>, key: string): (value: string)
  {
    if key in header then header[key] else ""
  }

  /**
   * A hit carries a reschedule hint exactly when the enqueue header is
   * non-empty and parses as an int64; the hint is that integer.
   */
  function ApplyEnqueueHeader(hit: Hit, header: map<string, string>): (r: Hit)
    ensures r.data == hit.data && r.timeStart == hit.timeStart && r.timeElapsed == hit.timeElapsed
    ensures r.hasEnqueue <==> hit.hasEnqueue || ParseInt(HeaderGet(header, EnqueueHeaderKey)).err == NoError
    ensures ParseInt(HeaderGet(header, EnqueueHeaderKey)).err == NoError ==>
      r.enqueue == ParseInt(HeaderGet(header, EnqueueHeaderKey)).value
    ensures ParseInt(HeaderGet(header, EnqueueHeaderKey)).err != NoError ==> r == hit
  {
    var enqueueValue := HeaderGet(header, EnqueueHeaderKey);
    if |enqueueValue| > 0 then
      var p := ParseInt(enqueueValue);
      if p.err == NoError then hit.(hasEnqueue := true, enqueue := p.value) else hit
    else hit
  }

  /** A hint of v seconds sent by the target is read back as v. */
  lemma EnqueueHintRoundTrip(hit: Hit, header: map<string, string>, v: int)
    requires MinInt64 <= v <= MaxInt64
    ensures var r := ApplyEnqueueHeader(hit, header[EnqueueHeaderKey := FormatInt(v)]);
      r.hasEnqueue && r.enqueue == v
  {
    ParseFormatInt(v);
  }

  // ---------------------------------------------------------------------------
  // Configuration read by init

  const CooldownKey: string := "DEFERRED_COOLDOWN_DURATION_IN_SECONDS"
  const DumpKey: string := "DEFERRED_DUMP_RESPONSE_ON_PARSE_ERROR"
  const ErrorsBeforeQuittingKey: string := "DEFERRED_ERRORS_BEFORE_QUITTING"
  const MaxHitsPerLoopKey: string := "DEFERRED_MAX_HITS_PER_LOOP"

  /** time.Second and time.Minute, as time.Duration nanoseconds. */
  const Second: int := 1_000_000_000
  const Minute: int := 60 * Second

  /** os.Getenv: the empty string when the variable is unset. */
  function Getenv(env: map<string, string>, key: string): (value: string)
  {
    if key in env then env[key] else ""
  }

  /** int64 two's-complement wrap-around, as Go's int64 multiplication has it. */
  function Wrap64(x: int): (r: int)
    ensures MinInt64 <= r <= MaxInt64
    ensures (r - x) % (MaxUint64 + 1) == 0
  {
    (x - MinInt64) % (MaxUint64 + 1) + MinInt64
  }

  /** The cooldown in nanoseconds: the env value in seconds when it parses, one minute otherwise. */
  function CooldownSetting(env: map<string, string>): (d: int)
    ensures MinInt64 <= d <= MaxInt64
  {
    var v := Getenv(env, CooldownKey);
    var p := ParseInt(v);
    if |v| > 0 && p.err == NoError then Wrap64(p.value * Second) else Minute
  }

  /** A uint64 option: the env value when it parses, `default` otherwise. */
  function UintSetting(env: map<string, string>, key: string, default: nat): (n: nat)
    ensures n <= MaxUint64 || n == default
  {
    var v := Getenv(env, key);
    var p := ParseUint(v);
    if |v| > 0 && p.err == NoError then p.value else default
  }

  /** The dump flag: set only when the variable is non-empty, then true exactly for "true", "yes" or "1". */
  function DumpSetting(env: map<string, string>, previous: bool): (dump: bool)
  {
    var v := Getenv(env, DumpKey);
    if |v| > 0 then v == "true" || v == "yes" || v == "1" else previous
  }

  /** With nothing set, the configuration is one minute, no dump, 3 errors, 5 hits. */
  lemma ConfigDefaults(env: map<string, string>)
    requires CooldownKey !in env && DumpKey !in env
    requires ErrorsBeforeQuittingKey !in env && MaxHitsPerLoopKey !in env
    ensures CooldownSetting(env) == 60 * Second
    ensures DumpSetting(env, false) == false
    ensures UintSetting(env, ErrorsBeforeQuittingKey, 3) == 3
    ensures UintSetting(env, MaxHitsPerLoopKey, 5) == 5
  {
  }

  /** A value that does not parse leaves the default in place. */
  lemma UnparsableKeepsDefault(env: map<string, string>, key: string, default: nat)
    requires ParseUint(Getenv(env, key)).err != NoError
    ensures UintSetting(env, key, default) == default
  {
  }

  /** Any uint64 written in decimal replaces the default. */
  lemma UintSettingRoundTrip(env: map<string, string>, key: string, default: nat, n: nat)
    requires n <= MaxUint64
    ensures UintSetting(env[key := FormatUint(n)], key, default) == n
  {
    ParseFormatUint(n);
  }

  /** A cooldown of s seconds that fits in a time.Duration is s seconds exactly. */
  lemma CooldownSettingRoundTrip(env: map<string, string>, s: int)
    requires MinInt64 <= s * Second <= MaxInt64
    ensures CooldownSetting(env[CooldownKey := FormatInt(s)]) == s * Second
  {
    ParseFormatInt(s);
    assert MinInt64 <= s <= MaxInt64;
  }

  /** The dump flag is true exactly for "true", "yes" and "1". */
  lemma DumpFlagExactly(env: map<string, string>)
    ensures DumpSetting(env, false) <==> Getenv(env, DumpKey) in {"true", "yes", "1"}
  {
  }

  /** The HTTP runner's configuration; the client and logger are not part of this model. */
  class HttpRunner {
    var cooldownDuration: int
    var dumpResponseOnParseError: bool
    var errorsBeforeQuitting: nat
    var maxHitsPerLoop: nat

    /** New: a zero runner, then init. */
    constructor New(env: map<string, string>)
      ensures cooldownDuration == CooldownSetting(env)
      ensures dumpResponseOnParseError == DumpSetting(env, false)
      ensures errorsBeforeQuitting == UintSetting(env, ErrorsBeforeQuittingKey, 3)
      ensures maxHitsPerLoop == UintSetting(env, MaxHitsPerLoopKey, 5)
      ensures GetCooldownDuration() == CooldownSetting(env) && GetDumpResponseOnParseError() == DumpSetting(env, false)
      ensures GetErrorsBeforeQuitting() == UintSetting(env, ErrorsBeforeQuittingKey, 3)
      ensures GetMaxHitsPerLoop() == UintSetting(env, MaxHitsPerLoopKey, 5)
    {
      cooldownDuration, dumpResponseOnParseError := 0, false;
      errorsBeforeQuitting, maxHitsPerLoop := 0, 0;
      new;
      Init(env);
    }

    /** init: each option starts from its default and is replaced by an env value that parses. */
    method Init(env: map<string, string>)
      modifies this
      ensures cooldownDuration == CooldownSetting(env)
      ensures dumpResponseOnParseError == DumpSetting(env, old(dumpResponseOnParseError))
      ensures errorsBeforeQuitting == UintSetting(env, ErrorsBeforeQuittingKey, 3)
      ensures maxHitsPerLoop == UintSetting(env, MaxHitsPerLoopKey, 5)
    {
      cooldownDuration := Minute;
      var cooldownValue := Getenv(env, CooldownKey);
      if |cooldownValue| > 0 {
        var p := ParseInt(cooldownValue);
        if p.err == NoError {
          cooldownDuration := Wrap64(p.value * Second);
        }
      }

      var dumpValue := Getenv(env, DumpKey);
      if |dumpValue| > 0 {
        dumpResponseOnParseError := dumpValue == "true" || dumpValue == "yes" || dumpValue == "1";
      }

      errorsBeforeQuitting := 3;
      var errorsValue := Getenv(env, ErrorsBeforeQuittingKey);
      if |errorsValue| > 0 {
        var p := ParseUint(errorsValue);
        if p.err == NoError {
          errorsBeforeQuitting := p.value;
        }
      }

      maxHitsPerLoop := 5;
      var maxValue := Getenv(env, MaxHitsPerLoopKey);
      if |maxValue| > 0 {
        var p := ParseUint(maxValue);
        if p.err == NoError {
          maxHitsPerLoop := p.value;
        }
      }
    }

    function GetCooldownDuration(): (d: int)
      reads this
      ensures d == cooldownDuration
    {
      cooldownDuration
    }

    function GetDumpResponseOnParseError(): (dump: bool)
      reads this
      ensures dump == dumpResponseOnParseError
    {
      dumpResponseOnParseError
    }

    function GetErrorsBeforeQuitting(): (count: nat)
      reads this
      ensures count == errorsBeforeQuitting
    {
      errorsBeforeQuitting
    }

    function GetMaxHitsPerLoop(): (max: nat)
      reads this
      ensures max == maxHitsPerLoop
    {
      maxHitsPerLoop
    }
  }
}
