/** Instants are whole seconds on one timeline; wall-clock readings are passed in as parameters. */
module Time {
  import opened Wrappers

  const MINUTE: int := 60
  const DAY: int := 24 * 60 * MINUTE

  /**
   * The query window shared by the history and metrics queries: a missing end defaults to now,
   * a missing start to `days` days before the end.
   */
  function Window(now: int, start: Option<int>, end: Option<int>, days: int): (w: (int, int))
    ensures w.1 == (if end.Some? then end.value else now)
    ensures start.Some? ==> w.0 == start.value
    ensures start.None? ==> w.1 - w.0 == days * DAY
  {
    var e := if end.Some? then end.value else now;
    (if start.Some? then start.value else e - days * DAY, e)
  }
}
