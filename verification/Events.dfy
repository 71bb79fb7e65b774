/**
 Cluster events, and the order they are shown in: newest first.
 */
module Events {
  import opened Results
  import opened Ordering

  /** Timestamps in microseconds since the smallest one; an event without one counts
      as that smallest one. */
  datatype Event = Event(about: string, text: string, at: Option<nat>)

  function ByTime(e: Event): Rank {
    Rank(match e.at case Some(t) => t case None => 0, 0)
  }
}
