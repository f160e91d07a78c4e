/**
 * The scripted runner of pkg/runner/mock.go: each Hit pops the next entry of
 * a FIFO script; once the script is empty every Hit fails with "No hit".
 */
module Mock {
  import opened Wrappers
  import opened RunnerDef

  /** One scripted response. `duration` is only slept on, so it has no effect here. */
  datatype MockedHit = MockedHit(duration: int, enqueue: int, error: Option<string>, hasEnqueue: bool, moreDeferred: bool)

  const NoHit: Outcome := Outcome(ZeroHit, Some("No hit"))

  /** The outcome a scripted entry produces. */
  function Respond(entry: MockedHit): (o: Outcome)
    ensures o.err == entry.error
    ensures o.err.Some? ==> o.hit == ZeroHit
    ensures o.err.None? ==>
      && o.hit.data == Data("", entry.moreDeferred, false)
      && o.hit.enqueue == entry.enqueue && o.hit.hasEnqueue == entry.hasEnqueue
      && o.hit.timeStart == 0 && o.hit.timeElapsed == 0
  {
    if entry.error.Some? then Outcome(ZeroHit, entry.error)
    else Outcome(ZeroHit.(data := ZeroHit.data.(moreDeferred := entry.moreDeferred),
                          enqueue := entry.enqueue, hasEnqueue := entry.hasEnqueue), None)
  }

  /** The outcome of the i-th Hit call (counting from 0) on a runner started with `script`. */
  function OutcomeAt(script: seq<MockedHit>, i: nat): (o: Outcome)
    ensures o.err == if i < |script| then script[i].error else Some("No hit")
    ensures o.err.Some? ==> o.hit == ZeroHit
  {
    if i < |script| then Respond(script[i]) else NoHit
  }

  /** What is left of `script` after n Hit calls. */
  function Remaining(script: seq<MockedHit>, n: nat): (rest: seq<MockedHit>)
    ensures |rest| == if n < |script| then |script| - n else 0
  {
    if n < |script| then script[n..] else []
  }

  class MockedRunner {
    var hits: seq<MockedHit>
    var maxHitsPerLoop: nat
    var errorsBeforeQuitting: nat

    /** NewMocked; `errorsBeforeQuitting` keeps its zero value. */
    constructor NewMocked(hits: seq<MockedHit>, maxHitsPerLoop: nat)
      ensures this.hits == hits
      ensures this.maxHitsPerLoop == maxHitsPerLoop && GetMaxHitsPerLoop() == maxHitsPerLoop
      ensures errorsBeforeQuitting == 0
    {
      this.hits := hits;
      this.maxHitsPerLoop := maxHitsPerLoop;
      this.errorsBeforeQuitting := 0;
    }

    function GetMaxHitsPerLoop(): (max: nat)
      reads this
      ensures max == maxHitsPerLoop
    {
      maxHitsPerLoop
    }

    function GetErrorsBeforeQuitting(): (count: nat)
      reads this
      ensures count == errorsBeforeQuitting
    {
      errorsBeforeQuitting
    }

    /** Pops the first scripted entry and answers with it. */
    method Hit(url: string) returns (hit: Hit, err: Option<string>)
      modifies this`hits
      ensures Outcome(hit, err) == OutcomeAt(old(hits), 0)
      ensures hits == Remaining(old(hits), 1)
      // an empty script: "No hit", and the script stays empty
      ensures old(hits) == [] ==> hits == [] && err == Some("No hit") && hit == ZeroHit
      // otherwise exactly the first entry is removed, the rest keep their order
      ensures old(hits) != [] ==> hits == old(hits)[1..]
      // a scripted error: that error and a zero hit
      ensures old(hits) != [] && old(hits)[0].error.Some? ==> err == old(hits)[0].error && hit == ZeroHit
      // a scripted success: the entry's flags and hint, `More` false, no error
      ensures old(hits) != [] && old(hits)[0].error.None? ==>
        && err.None?
        && hit.data == Data("", old(hits)[0].moreDeferred, false)
        && hit.enqueue == old(hits)[0].enqueue && hit.hasEnqueue == old(hits)[0].hasEnqueue
    {
      var mocked: Option<MockedHit> := None;
      hit := ZeroHit;
      if |hits| > 0 {
        mocked, hits := Some(hits[0]), hits[1..];
      }
      if mocked.None? {
        return hit, Some("No hit");
      }
      if mocked.value.error.Some? {
        return hit, mocked.value.error;
      }
      hit := hit.(data := hit.data.(moreDeferred := mocked.value.moreDeferred));
      hit := hit.(enqueue := mocked.value.enqueue, hasEnqueue := mocked.value.hasEnqueue);
      return hit, None;
    }
  }
}
