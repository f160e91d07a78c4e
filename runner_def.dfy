/** The values the hit-loop runner produces (pkg/runner/def.go); times are whole seconds. */
module RunnerDef {
  import opened Wrappers

  /** The decoded response body of a target. `more` is the XenForo 2 job.php flag. */
  datatype Data = Data(message: string, moreDeferred: bool, more: bool)

  /** One hit: the response, the optional reschedule hint, and its timing. */
  datatype Hit = Hit(data: Data, enqueue: int, hasEnqueue: bool, timeStart: int, timeElapsed: int)

  /** One loop: every hit made, in order, and the loop's timing. */
  datatype Hits = Hits(list: seq<Hit>, timeStart: int, timeElapsed: int)

  /** Go's zero value `Hit{}`. */
  const ZeroHit: Hit := Hit(Data("", false, false), 0, false, 0, 0)

  /** What one call of a runner's Hit returns: the hit and the error (None for nil). */
  datatype Outcome = Outcome(hit: Hit, err: Option<string>)

  /** The hit reports that the target has no more work. */
  predicate Finished(h: Hit) { !h.data.moreDeferred && !h.data.more }
}
